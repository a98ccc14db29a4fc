// The saved encryption state of one device and what one journal row does to it
// (cmd/tincan/encryption.go cryptoState, encryption_mls.go syncMLS, consumeMLSKey).
module Sessions {
  import opened Text
  import opened Encryption

  // `active` is the last membership accepted (None before the first), `staged` the membership
  // change this device has prepared but not seen in the journal, `head` the newest membership
  // the relay has shown.
  datatype Session = Session(
    me: string, key: Key, root: Key, room: string,
    group: Option<Group>, mlsEpoch: int, active: Option<Roster>, head: Option<Roster>, cursor: int,
    consumed: set<Id>, archive: map<Id, int>, rejected: set<Envelope>,
    staged: Option<Roster>, outbox: map<string, Envelope>)

  datatype Row =
    | RosterRow(seqNo: int, roster: Roster)
    | OpaqueRow(seqNo: int, capsule: Capsule, id: Id)
    | EnvelopeRow(seqNo: int, envelope: Envelope)
    | UnknownRow(seqNo: int)

  datatype Fault =
    | NotAdvancing | RoomMismatch | Untrusted | ForkOrGap | WelcomeMissing | EngineError | NotTheOwner
    | MembersDiffer | Removed | BadEnvelope | StaleOrCloned | UnknownKind

  datatype Step = Moved(st: Session) | Stopped(why: Fault)

  function ActiveEpoch(st: Session): int {
    if st.active.Some? then st.active.value.epoch else 0
  }

  predicate IsMember(st: Session) {
    st.active.Some? && DeviceOf(st.active.value, st.me).Some?
  }

  // The engine's members are compared with the roster's devices.
  predicate MembersMatch(e: Era, r: Roster) {
    && Epoch(e) + 1 == r.epoch
    && |Members(e)| == |r.members|
    && forall d <- r.members :: d.key in Members(e)
  }

  // ----- A membership row -----

  datatype Engine = Now(group: Group) | Fails(why: Fault)

  function FollowRoster(st: Session, r: Roster): Engine {
    if st.staged == Some(r) then
      if st.group.None? then Fails(EngineError)
      else Now(if r.epoch == 1 then st.group.value else Finalize(st.group.value))
    else if st.mlsEpoch == 0 then
      if r.welcome.None? then Fails(WelcomeMissing)
      else if st.group.Some? || Join(st.key, r.welcome.value).None? then Fails(EngineError)
      else Now(Join(st.key, r.welcome.value).value)
    else
      if st.group.None? || r.commit.None? || Merge(st.group.value, st.key, r.commit.value).None? then Fails(EngineError)
      else if r.commit.value.author != st.root then Fails(NotTheOwner)
      else Now(Merge(st.group.value, st.key, r.commit.value).value)
  }

  function EnterRoster(st: Session, r: Roster): Step {
    if r.room != st.room then Stopped(RoomMismatch)
    else if !Trusted(r, st.root) then Stopped(Untrusted)
    else if r.epoch != ActiveEpoch(st) + 1 || (r.epoch > 1 && r.previous != HashOf(st.active.value)) then Stopped(ForkOrGap)
    else if DeviceOf(r, st.me).Some? then
      match FollowRoster(st, r)
      case Fails(why) => Stopped(why)
      case Now(g) =>
        if !MembersMatch(g.era, r) then Stopped(MembersDiffer)
        else Moved(st.(group := Some(g), mlsEpoch := r.epoch, active := Some(r),
                       staged := if st.staged == Some(r) then None else st.staged))
    else if st.mlsEpoch > 0 then Stopped(Removed)
    else Moved(st.(active := Some(r)))
  }

  // ----- A message row -----

  datatype Use = Used(st: Session) | Rejection | Broken(why: Fault)

  predicate Nested(c: Context) {
    c.room != "" && !c.roomGroup
  }

  function Consume(st: Session, e: Envelope): Use
    requires st.active.Some?
  {
    var c, r := e.context, st.active.value;
    if IdOf(e) in st.consumed then Used(st)
    else if c.sender == st.me then Broken(StaleOrCloned)
    else if st.group.None? then Broken(EngineError)
    else
      var g := Decrypt(st.group.value, st.key, e.capsule);
      if g.None? then Rejection
      else if DeviceOf(r, c.sender).None? || e.capsule.sender != DeviceOf(r, c.sender).value.key || e.capsule.bound != c
      then Rejection
      else if Nested(c) && !RoomHas(r, c.room, st.me) then
        Used(st.(group := g, consumed := st.consumed + {IdOf(e)}))
      else if if Nested(c) then e.capsule.box.Boxed? && st.me in e.capsule.box.readers else e.capsule.box.Plain? then
        Used(st.(group := g, consumed := st.consumed + {IdOf(e)}, archive := st.archive[IdOf(e) := e.capsule.box.secret]))
      else Rejection
  }

  function EnterEnvelope(st: Session, e: Envelope): Step {
    if st.active.None? || !Verified(e, st.active.value) then Stopped(BadEnvelope)
    else if !IsMember(st) then Moved(st)
    else
      match Consume(st, e)
      case Used(next) => Moved(next)
      case Rejection => Moved(st.(rejected := st.rejected + {e}))
      case Broken(why) => Stopped(why)
  }

  // A message this device may not read only moves the ratchet on.
  function EnterOpaque(st: Session, c: Capsule, id: Id): Step {
    if !IsMember(st) || id in st.consumed then Moved(st)
    else if st.group.None? then Stopped(EngineError)
    else
      var g := Decrypt(st.group.value, st.key, c);
      Moved(if g.Some? then st.(group := g) else st)
  }

  function Enter(st: Session, row: Row): Step {
    match row
    case RosterRow(_, r) => EnterRoster(st, r)
    case OpaqueRow(_, c, id) => EnterOpaque(st, c, id)
    case EnvelopeRow(_, e) => EnterEnvelope(st, e)
    case UnknownRow(_) => Stopped(UnknownKind)
  }

  function RowStep(st: Session, row: Row): Step {
    if row.seqNo <= st.cursor then Stopped(NotAdvancing)
    else
      match Enter(st, row)
      case Moved(next) => Moved(next.(cursor := row.seqNo))
      case Stopped(why) => Stopped(why)
  }

  // ----- A journal -----

  // Where the replay ends, and the fault it ends with.
  datatype Replayed = Replayed(st: Session, fault: Option<Fault>)

  function Replay(st: Session, rows: seq<Row>): Replayed
    decreases |rows|
  {
    if rows == [] then Replayed(st, None)
    else
      match RowStep(st, rows[0])
      case Moved(next) => Replay(next, rows[1..])
      case Stopped(why) => Replayed(st, Some(why))
  }

  ghost predicate Increasing(rows: seq<Row>) {
    forall i, j :: 0 <= i < j < |rows| ==> rows[i].seqNo < rows[j].seqNo
  }

  // The rows behind a cursor: what the relay still has to send.
  function Rest(rows: seq<Row>, cursor: int): seq<Row> {
    if rows == [] then []
    else if rows[0].seqNo > cursor then rows
    else Rest(rows[1..], cursor)
  }
}

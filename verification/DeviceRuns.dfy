// Runs of one device against a relay: sessions that open the saved state, replay the journal,
// seal, save, post and stage, and may crash at any point; requests and answers that are lost,
// late or repeated; a relay that appends to the journal at any time.
module DeviceRuns {
  import opened Text
  import opened Encryption
  import opened Sessions
  import opened Rosters
  import opened Journal
  import opened Sealing

  // An open session. `unsaved` while something prepared has not been saved; `failed` once a
  // save or a check has failed, after which the session only closes. `ready` is the envelope
  // that may be posted.
  datatype Mem = Mem(st: Session, unsaved: bool, failed: bool, ready: Option<Envelope>)

  // `sent` are the envelopes posted so far, `uploads` the random keys used for files, and
  // `offered` the memberships on their way to the relay that it has not refused.
  datatype World = World(
    disk: Session, mem: Option<Mem>, journal: seq<Row>,
    sent: set<Envelope>, uploads: set<string>, offered: set<Roster>)

  datatype Op =
    | Open | Close(saved: bool) | Crash
    | SyncRow(saved: bool)
    | Refresh
    | SealMessage(key: string, channel: string, payload: int, secret: int)
    | SealFile(key: string, channel: string, payload: int, secret: int)
    | PrepareFirst(recipient: string, seed: int)
    | Prepare(change: Change, seed: int)
    | Persist(saved: bool)
    | Retry(key: string)
    | Post
    | Conflict(key: string)
    | Offer
    | OfferRefused
    | RelayTakes(envelope: Envelope, at: int)
    | RelayTakesRoster(roster: Roster, at: int)
    | RelayBrings(row: Row)

  // ----- The journal -----

  function Head(rows: seq<Row>): Option<Roster> {
    var rs := Links(rows);
    if rs == [] then None else Some(rs[|rs| - 1])
  }

  function HeadEpoch(rows: seq<Row>): int {
    if Head(rows).Some? then Head(rows).value.epoch else 0
  }

  // The journal up to a cursor.
  function Past(rows: seq<Row>, cursor: int): seq<Row> {
    if rows == [] || rows[0].seqNo > cursor then [] else [rows[0]] + Past(rows[1..], cursor)
  }

  // The membership in force at a cursor.
  function Synced(rows: seq<Row>, cursor: int): Option<Roster> {
    Head(Past(rows, cursor))
  }

  predicate Follows(rows: seq<Row>, at: int) {
    at > 0 && (rows == [] || rows[|rows| - 1].seqNo < at)
  }

  // The relay publishes a membership only as the signed successor of the newest one.
  predicate Succeeds(rows: seq<Row>, r: Roster, root: Key, room: string) {
    && Trusted(r, root) && r.room == room && r.epoch == HeadEpoch(rows) + 1
    && (r.epoch > 1 ==> Head(rows).Some? && r.previous == HashOf(Head(rows).value))
  }

  predicate Published(rows: seq<Row>, e: Envelope) {
    exists row <- rows :: row.EnvelopeRow? && row.envelope == e
  }

  // ----- Steps -----

  predicate Working(w: World) {
    w.mem.Some? && !w.mem.value.unsaved && !w.mem.value.failed
  }

  // Every envelope that exists outside a crashed session.
  ghost predicate InPool(w: World, e: Envelope) {
    || e in w.sent || e in w.disk.outbox.Values
    || (w.mem.Some? && (e in w.mem.value.st.outbox.Values || w.mem.value.ready == Some(e)))
  }

  function SealedWith(st: Session, key: string, channel: string, payload: int, secret: int, keep: bool): Session
    requires Seal(st, key, channel, payload, secret).Some?
  {
    var (next, e) := Seal(st, key, channel, payload, secret).value;
    if keep then next.(outbox := next.outbox[key := e]) else next
  }

  ghost predicate Enabled(w: World, op: Op) {
    match op
    case Open => w.mem.None?
    case Close(_) | Crash => w.mem.Some?
    case SyncRow(_) => Working(w) && Rest(w.journal, w.mem.value.st.cursor) != []
    case Refresh => Working(w) && Head(w.journal).Some?
    case SealMessage(key, channel, payload, secret) =>
      Working(w) && Seal(w.mem.value.st, key, channel, payload, secret).Some?
      && key !in w.mem.value.st.outbox && key !in w.uploads
    case SealFile(key, channel, payload, secret) =>
      Working(w) && Seal(w.mem.value.st, key, channel, payload, secret).Some?
      && key !in w.uploads && (forall e :: InPool(w, e) ==> e.context.key != key)
    case PrepareFirst(recipient, seed) =>
      Working(w) && w.mem.value.st.staged.None? && Head(w.journal).None?
      && StageFirst(w.mem.value.st, recipient, seed).Some?
    case Prepare(change, seed) =>
      // The session is in step: ensureMLS has returned normally.
      Working(w) && w.mem.value.st.staged.None? && w.mem.value.st.key == w.mem.value.st.root
      && w.mem.value.st.mlsEpoch > 0 && w.mem.value.st.mlsEpoch == ActiveEpoch(w.mem.value.st)
      && StageChange(w.mem.value.st, change, seed).Some?
    case Persist(_) => w.mem.Some? && w.mem.value.unsaved && !w.mem.value.failed
    case Retry(key) => Working(w) && key in w.mem.value.st.outbox
    case Post => Working(w) && w.mem.value.ready.Some?
    case Conflict(key) =>
      // The relay refuses for an outdated epoch only what it has not published.
      Working(w) && key in w.mem.value.st.outbox
      && !Published(w.journal, w.mem.value.st.outbox[key])
      && w.mem.value.st.outbox[key].context.epoch < HeadEpoch(w.journal)
    case Offer => Working(w) && w.mem.value.st.staged.Some?
    case OfferRefused =>
      // A definitive refusal means that the membership was not published.
      Working(w) && w.mem.value.st.staged.Some? && w.mem.value.st.staged.value.epoch > 1
      && w.mem.value.st.staged.value !in Links(w.journal)
    case RelayTakes(e, at) => e in w.sent && e.context.epoch == HeadEpoch(w.journal) && Follows(w.journal, at)
    case RelayTakesRoster(r, at) =>
      r in w.offered && Succeeds(w.journal, r, w.disk.root, w.disk.room) && Follows(w.journal, at)
    case RelayBrings(row) =>
      && Follows(w.journal, row.seqNo)
      && (row.EnvelopeRow? ==> row.envelope.signer != w.disk.key)
      && (row.RosterRow? ==> w.disk.key != w.disk.root && Honest(row.roster)
                             && Succeeds(w.journal, row.roster, w.disk.root, w.disk.room))
  }

  // A prepared change waits to be saved.
  function Prepared(w: World, st: Session, ready: Option<Envelope>): World
    requires w.mem.Some?
  {
    w.(mem := Some(Mem(st, true, false, ready)))
  }

  function Failing(w: World): World
    requires w.mem.Some?
  {
    w.(mem := Some(w.mem.value.(failed := true)))
  }

  ghost function Next(w: World, op: Op): World
    requires Enabled(w, op)
  {
    match op
    case Open => w.(mem := Some(Mem(w.disk, false, false, None)))
    case Close(saved) => w.(disk := if saved then w.mem.value.st else w.disk, mem := None)
    case Crash => w.(mem := None)
    case SyncRow(saved) =>
      var step := RowStep(w.mem.value.st, Rest(w.journal, w.mem.value.st.cursor)[0]);
      if step.Stopped? then Failing(w)
      else if saved then w.(disk := step.st, mem := Some(w.mem.value.(st := step.st)))
      else w.(mem := Some(w.mem.value.(st := step.st, failed := true)))
    case Refresh =>
      var st := Refreshed(w.mem.value.st, Head(w.journal).value);
      if st.None? then Failing(w) else w.(mem := Some(w.mem.value.(st := st.value)))
    case SealMessage(key, channel, payload, secret) =>
      Prepared(w, SealedWith(w.mem.value.st, key, channel, payload, secret, true),
               Some(Seal(w.mem.value.st, key, channel, payload, secret).value.1))
    case SealFile(key, channel, payload, secret) =>
      Prepared(w, SealedWith(w.mem.value.st, key, channel, payload, secret, false),
               Some(Seal(w.mem.value.st, key, channel, payload, secret).value.1))
        .(uploads := w.uploads + {key})
    case PrepareFirst(recipient, seed) => Prepared(w, StageFirst(w.mem.value.st, recipient, seed).value, None)
    case Prepare(change, seed) => Prepared(w, StageChange(w.mem.value.st, change, seed).value, None)
    case Persist(saved) =>
      if saved then w.(disk := w.mem.value.st, mem := Some(w.mem.value.(unsaved := false))) else Failing(w)
    case Retry(key) => w.(mem := Some(w.mem.value.(ready := Some(w.mem.value.st.outbox[key]))))
    case Post => w.(sent := w.sent + {w.mem.value.ready.value})
    case Conflict(key) =>
      w.(mem := Some(w.mem.value.(st := w.mem.value.st.(outbox := w.mem.value.st.outbox - {key}), ready := None)))
    case Offer => w.(offered := w.offered + {w.mem.value.st.staged.value})
    case OfferRefused =>
      Prepared(w, Discarded(w.mem.value.st), None).(offered := w.offered - {w.mem.value.st.staged.value})
    case RelayTakes(e, at) => w.(journal := w.journal + [EnvelopeRow(at, e)])
    case RelayTakesRoster(r, at) => w.(journal := w.journal + [RosterRow(at, r)])
    case RelayBrings(row) => w.(journal := w.journal + [row])
  }

  // A run: worlds joined by operations.
  datatype Run = Run(worlds: seq<World>, ops: seq<Op>)

  ghost predicate IsRun(run: Run) {
    && |run.worlds| == |run.ops| + 1 && Beginning(run.worlds[0])
    && forall k :: 0 <= k < |run.ops| ==>
         Enabled(run.worlds[k], run.ops[k]) && run.worlds[k + 1] == Next(run.worlds[k], run.ops[k])
  }

  // A device that has just been set up, in a workspace whose journal it has not read.
  ghost predicate Beginning(w: World) {
    && w.mem.None? && w.sent == {} && w.uploads == {} && w.offered == {}
    && w.disk.group.None? && w.disk.mlsEpoch == 0 && w.disk.active.None? && w.disk.head.None?
    && w.disk.staged.None? && w.disk.outbox == map[] && w.disk.consumed == {}
    && (w.disk.key == w.disk.root ==> w.journal == [])
    && w.disk.cursor == 0 && Increasing(w.journal) && (forall row <- w.journal :: row.seqNo > 0)
    && Chained(None, Links(w.journal), w.disk.root)
    && (forall row <- w.journal ::
          && (row.EnvelopeRow? ==> row.envelope.signer != w.disk.key)
          && (row.RosterRow? ==> Honest(row.roster) && row.roster.room == w.disk.room))
  }
}

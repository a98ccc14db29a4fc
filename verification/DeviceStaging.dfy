// Staged memberships: over any run, a commit is merged exactly when its membership is reached
// in the journal, and the group is always in the epoch the journal position calls for.
module DeviceStaging {
  import opened Text
  import opened Encryption
  import opened Sessions
  import opened Rosters
  import opened Journal
  import opened Sealing
  import opened DeviceRuns
  import opened DeviceSealing
  import opened DeviceKeys

  // ----- Journal positions -----

  lemma {:induction false} PastAndRest(rows: seq<Row>, cursor: int)
    ensures rows == Past(rows, cursor) + Rest(rows, cursor)
    decreases |rows|
  {
    if rows != [] && rows[0].seqNo <= cursor {
      PastAndRest(rows[1..], cursor);
    }
  }

  lemma {:induction false} PastStep(rows: seq<Row>, cursor: int)
    requires Increasing(rows) && Rest(rows, cursor) != []
    ensures var row := Rest(rows, cursor)[0];
            && row.seqNo > cursor
            && Past(rows, row.seqNo) == Past(rows, cursor) + [row]
            && Rest(rows, row.seqNo) == Rest(rows, cursor)[1..]
    decreases |rows|
  {
    if rows[0].seqNo <= cursor {
      PastStep(rows[1..], cursor);
      RestIncreasing(rows[1..], cursor);
    } else {
      if |rows| > 1 {
        assert rows[1..][0] == rows[1];
      }
      assert Past(rows[1..], rows[0].seqNo) == [];
      assert [rows[0]] + [] == [rows[0]];
    }
  }

  lemma {:induction false} PastAppend(rows: seq<Row>, row: Row, cursor: int)
    requires row.seqNo > cursor
    ensures Past(rows + [row], cursor) == Past(rows, cursor)
    ensures Rest(rows + [row], cursor) == Rest(rows, cursor) + [row]
    decreases |rows|
  {
    if rows == [] {
      assert rows + [row] == [row];
    } else {
      assert (rows + [row])[0] == rows[0] && (rows + [row])[1..] == rows[1..] + [row];
      if rows[0].seqNo <= cursor {
        PastAppend(rows[1..], row, cursor);
      }
    }
  }

  lemma {:induction false} LinksConcat(a: seq<Row>, b: seq<Row>)
    ensures Links(a + b) == Links(a) + Links(b)
    decreases |a|
  {
    if a == [] {
      assert a + b == b;
    } else {
      assert (a + b)[0] == a[0] && (a + b)[1..] == a[1..] + b;
      LinksConcat(a[1..], b);
    }
  }

  function EpochOf(y: Option<Roster>): int {
    if y.Some? then y.value.epoch else 0
  }

  ghost predicate JournalOk(rows: seq<Row>, root: Key, room: string) {
    && Increasing(rows) && Chained(None, Links(rows), root)
    && (forall r <- Links(rows) :: Honest(r) && r.room == room)
  }

  // Every membership in the journal has its place in the chain.
  lemma LinkAt(rows: seq<Row>, root: Key, room: string, cursor: int)
    requires JournalOk(rows, root, room)
    ensures EpochOf(Synced(rows, cursor)) == |Links(Past(rows, cursor))|
    ensures Synced(rows, cursor).Some? ==> Trusted(Synced(rows, cursor).value, root) && Synced(rows, cursor).value.room == room
    ensures var rest := Links(Rest(rows, cursor));
            rest != [] ==>
              && Trusted(rest[0], root) && rest[0].room == room && Honest(rest[0])
              && rest[0].epoch == EpochOf(Synced(rows, cursor)) + 1
              && (rest[0].epoch > 1 ==> Synced(rows, cursor).Some?
                                        && rest[0].previous == HashOf(Synced(rows, cursor).value))
    ensures HeadEpoch(rows) == |Links(rows)| == |Links(Past(rows, cursor))| + |Links(Rest(rows, cursor))|
  {
    PastAndRest(rows, cursor);
    LinksConcat(Past(rows, cursor), Rest(rows, cursor));
    var all, past := Links(rows), Links(Past(rows, cursor));
    if past != [] {
      assert all[|past| - 1] == past[|past| - 1];
    }
    if Links(Rest(rows, cursor)) != [] {
      assert all[|past|] == Links(Rest(rows, cursor))[0];
    }
  }

  // ----- The invariant -----

  // The session as it would be had the relay's newest membership not been looked at.
  function At(st: Session, y: Option<Roster>): Session {
    st.(active := y)
  }

  // The era the group will be in once the staged membership is reached.
  function NextEra(st: Session): Option<Era>
    requires st.staged.Some?
  {
    if st.group.None? then None
    else if st.staged.value.epoch == 1 then Some(st.group.value.era)
    else st.group.value.staged
  }

  // The staged membership is the successor of the one in force, with its commit in the engine.
  ghost predicate StagedFits(st: Session, y: Option<Roster>) {
    if st.staged.None? then st.group.Some? ==> st.group.value.staged.None?
    else
      var r := st.staged.value;
      && r.epoch == EpochOf(y) + 1 && (r.epoch > 1 ==> y.Some? && r.previous == HashOf(y.value))
      && Honest(r) && DeviceOf(r, st.me).Some? && KeysDiffer(r.members)
      && NextEra(st).Some? && MembersMatch(NextEra(st).value, r)
  }

  ghost predicate CreatorOk(st: Session, y: Option<Roster>) {
    st.key == st.root ==> st.mlsEpoch == EpochOf(y) && (y.Some? ==> KeysDiffer(y.value.members))
  }

  // Looking at the newest membership can only have run ahead.
  ghost predicate ActiveOk(st: Session, y: Option<Roster>) {
    st.active == y || ActiveEpoch(st) > EpochOf(y)
  }

  // The only membership the owner has not yet reached is the one it staged.
  ghost predicate BeyondOk(st: Session, rest: seq<Row>) {
    st.key == st.root ==> Links(rest) == [] || (st.staged.Some? && Links(rest) == [st.staged.value])
  }

  ghost predicate CursorOk(rows: seq<Row>, st: Session) {
    forall at :: Follows(rows, at) ==> at > st.cursor
  }

  ghost predicate Standing(st: Session, y: Option<Roster>) {
    EpochOk(At(st, y)) && EraOk(At(st, y)) && StagedFits(st, y) && CreatorOk(st, y)
  }

  ghost predicate Placed(rows: seq<Row>, st: Session) {
    var y := Synced(rows, st.cursor);
    Standing(st, y) && ActiveOk(st, y) && BeyondOk(st, Rest(rows, st.cursor)) && CursorOk(rows, st)
  }

  // A session with nothing to save differs from the saved state only in what it may drop.
  ghost predicate Settled(disk: Session, st: Session) {
    st == disk.(outbox := st.outbox, active := st.active, head := st.head)
  }

  ghost predicate Offering(w: World) {
    forall r :: r in w.offered ==>
      r.epoch <= HeadEpoch(w.journal)
      || (w.disk.staged == Some(r) && (w.mem.Some? ==> w.mem.value.st.staged == Some(r)))
  }

  ghost predicate InForce(rows: seq<Row>, st: Session, y: Option<Roster>) {
    y == Synced(rows, st.cursor) && Placed(rows, st) && StagedOk(st)
  }

  // Some membership, or none, is in force for the session, and everything fits it.
  ghost predicate Stands(rows: seq<Row>, st: Session) {
    exists y: Option<Roster> :: InForce(rows, st, y)
  }

  lemma StandsIf(rows: seq<Row>, st: Session)
    requires Placed(rows, st) && StagedOk(st)
    ensures Stands(rows, st)
  {
    assert InForce(rows, st, Synced(rows, st.cursor));
  }

  ghost predicate StageInv(w: World) {
    && JournalOk(w.journal, w.disk.root, w.disk.room)
    && Stands(w.journal, w.disk)
    && (w.mem.Some? ==>
          && SameDevice(w.disk, w.mem.value.st) && Stands(w.journal, w.mem.value.st)
          && (Working(w) ==> Settled(w.disk, w.mem.value.st)))
    && Offering(w)
  }

  lemma BeginningStages(w: World)
    requires Beginning(w)
    ensures StageInv(w)
  {
    var rows := w.journal;
    StartsBefore(rows);
    forall r | r in Links(rows) ensures Honest(r) && r.room == w.disk.room {
      LinkRow(rows, r);
    }
    StandsIf(rows, w.disk);
  }

  lemma StartsBefore(rows: seq<Row>)
    requires forall row <- rows :: row.seqNo > 0
    ensures Past(rows, 0) == [] && Rest(rows, 0) == rows
  {
    if rows != [] {
      assert rows[0] in rows;
    }
  }

  lemma {:induction false} LinkRow(rows: seq<Row>, r: Roster)
    requires r in Links(rows)
    ensures exists row :: row in rows && row.RosterRow? && row.roster == r
    decreases |rows|
  {
    if rows[0].RosterRow? && rows[0].roster == r {
      assert rows[0] in rows;
    } else {
      LinkRow(rows[1..], r);
      var row :| row in rows[1..] && row.RosterRow? && row.roster == r;
      assert row in rows;
    }
  }

  // ----- Replaying a row -----

  lemma MessageStands(st: Session, row: Row, y: Option<Roster>)
    requires !row.RosterRow? && RowStep(st, row).Moved? && Standing(st, y)
    ensures Standing(RowStep(st, row).st, y)
    ensures var next := RowStep(st, row).st;
            next.active == st.active && next.staged == st.staged && SameDevice(st, next)
  {
    MessageFooting(st, row);
  }

  // A membership row is accepted only when nothing ran ahead, and then everything fits.
  lemma RosterStands(st: Session, r: Roster, y: Option<Roster>)
    requires EnterRoster(st, r).Moved? && Standing(st, y) && ActiveOk(st, y) && StagedOk(st) && Honest(r)
    requires r.epoch == EpochOf(y) + 1
    requires st.key == st.root ==> st.staged == Some(r)
    ensures st.active == y
    ensures Standing(EnterRoster(st, r).st, Some(r)) && EnterRoster(st, r).st.active == Some(r)
    ensures SameDevice(st, EnterRoster(st, r).st)
    ensures st.key == st.root ==> EnterRoster(st, r).st.staged.None?
  {
    assert At(st, y) == st;
    RosterKeeps(st, r);
  }

  lemma RosterRowPlaced(rows: seq<Row>, st: Session, rest: seq<Row>, y: Option<Roster>)
    requires JournalOk(rows, st.root, st.room) && Placed(rows, st) && StagedOk(st)
    requires rest == Rest(rows, st.cursor) && y == Synced(rows, st.cursor)
    requires rest != [] && rest[0].RosterRow? && EnterRoster(st, rest[0].roster).Moved?
    ensures var next := EnterRoster(st, rest[0].roster).st;
            && Standing(next, Some(rest[0].roster)) && next.active == Some(rest[0].roster)
            && SameDevice(st, next) && StagedOk(next) && BeyondOk(next, rest[1..])
  {
    var r := rest[0].roster;
    LinkAt(rows, st.root, st.room, st.cursor);
    assert Links(rest)[0] == r && Links(rest) == [r] + Links(rest[1..]);
    RosterStands(st, r, y);
    RosterAdvances(st, r);
  }

  lemma MessageRowPlaced(st: Session, row: Row, rest: seq<Row>, y: Option<Roster>)
    requires Standing(st, y) && ActiveOk(st, y) && StagedOk(st) && BeyondOk(st, rest)
    requires rest != [] && rest[0] == row && !row.RosterRow? && RowStep(st, row).Moved?
    ensures var next := RowStep(st, row).st;
            && Standing(next, y) && ActiveOk(next, y) && SameDevice(st, next) && StagedOk(next)
            && BeyondOk(next, rest[1..])
  {
    MessageStands(st, row, y);
    MessageFooting(st, row);
  }

  lemma SyncedAfter(rows: seq<Row>, cursor: int)
    requires Increasing(rows) && Rest(rows, cursor) != []
    ensures var row := Rest(rows, cursor)[0];
            && Rest(rows, row.seqNo) == Rest(rows, cursor)[1..]
            && Synced(rows, row.seqNo) == if row.RosterRow? then Some(row.roster) else Synced(rows, cursor)
  {
    PastStep(rows, cursor);
    LinksAppend(Past(rows, cursor), Rest(rows, cursor)[0]);
  }

  lemma RowPlaced(rows: seq<Row>, st: Session)
    requires JournalOk(rows, st.root, st.room) && Stands(rows, st)
    requires Rest(rows, st.cursor) != [] && RowStep(st, Rest(rows, st.cursor)[0]).Moved?
    ensures Stands(rows, RowStep(st, Rest(rows, st.cursor)[0]).st)
    ensures SameDevice(st, RowStep(st, Rest(rows, st.cursor)[0]).st)
  {
    var rest := Rest(rows, st.cursor);
    SyncedAfter(rows, st.cursor);
    RowInside(rows, st.cursor);
    if rest[0].RosterRow? {
      RosterRowPlaced(rows, st, rest, Synced(rows, st.cursor));
      CursorMoves(EnterRoster(st, rest[0].roster).st, rest[0].seqNo, Some(rest[0].roster));
      StandsIf(rows, RowStep(st, rest[0]).st);
    } else {
      MessageRowPlaced(st, rest[0], rest, Synced(rows, st.cursor));
      StandsIf(rows, RowStep(st, rest[0]).st);
    }
  }

  lemma CursorMoves(st: Session, cursor: int, y: Option<Roster>)
    requires Standing(st, y) && StagedOk(st)
    ensures Standing(st.(cursor := cursor), y) && StagedOk(st.(cursor := cursor))
  {
  }

  lemma RowInside(rows: seq<Row>, cursor: int)
    requires Increasing(rows) && Rest(rows, cursor) != []
    ensures forall at :: Follows(rows, at) ==> at > Rest(rows, cursor)[0].seqNo
  {
    PastAndRest(rows, cursor);
    var n := |Past(rows, cursor)|;
    assert rows[n] == Rest(rows, cursor)[0];
    assert rows[|rows| - 1].seqNo >= rows[n].seqNo;
  }

  // ----- Staging -----

  lemma KeysOf(ds: seq<Device>, e: Era, r: Roster)
    requires KeysDiffer(ds) && (set d <- ds :: d.key) == Members(e)
    requires multiset(r.members) == multiset(ds) && Epoch(e) + 1 == r.epoch
    ensures MembersMatch(e, r) && KeysDiffer(r.members)
  {
    assert |r.members| == |multiset(r.members)| == |multiset(ds)| == |ds|;
    forall d ensures d in r.members <==> d in ds {
      assert d in r.members <==> d in multiset(r.members);
      assert d in ds <==> d in multiset(ds);
    }
    assert (set d <- r.members :: d.key) == (set d <- ds :: d.key);
    KeyCount(ds);
    KeyCount(r.members);
    forall d | d in r.members ensures d.key in Members(e) {
      assert d in ds;
    }
  }

  lemma {:induction false} DroppedDiffer(ds: seq<Device>, agent: string)
    requires KeysDiffer(ds)
    ensures KeysDiffer(Dropped(ds, agent))
  {
    if ds != [] {
      DroppedDiffer(ds[1..], agent);
      forall x | x in Dropped(ds[1..], agent) ensures ds[0].key != x.key {
        var k :| 1 <= k < |ds| && ds[k] == x;
      }
    }
  }

  lemma DroppedKeySet(ds: seq<Device>, gone: Device)
    requires KeysDiffer(ds) && Strict(ds) && gone in ds
    ensures (set d <- Dropped(ds, gone.agent) :: d.key) == (set d <- ds :: d.key) - {gone.key}
  {
    StrictIsUnique(ds, gone);
    var i :| 0 <= i < |ds| && ds[i] == gone;
    forall d | d in ds && d.agent != gone.agent ensures d.key != gone.key {
      var j :| 0 <= j < |ds| && ds[j] == d;
      assert i != j;
    }
  }

  // The engine's members after a change are the devices of the changed membership.
  lemma ChangeKeys(g: Group, r: Roster, c: Change, own: Key)
    requires MembersMatch(g.era, r) && KeysDiffer(r.members) && Strict(r.members)
    requires EngineMembers(g, r, c, own).Some?
    ensures KeysDiffer(MembersAfter(r, c))
    ensures (set d <- MembersAfter(r, c) :: d.key) == EngineMembers(g, r, c, own).value
  {
    KeysMatch(g.era, r);
    assert (set d <- r.members :: d.key) == Members(g.era);
    match c
    case Admit(d, _) =>
      DifferSnoc(r.members, d);
      KeysSnoc(r.members, d);
    case Revoke(agent) =>
      DroppedDiffer(r.members, agent);
      DroppedKeySet(r.members, DeviceOf(r, agent).value);
    case _ =>
  }

  lemma {:induction false} LookupFinds(ds: seq<Device>, agent: string)
    requires exists d :: d in ds && d.agent == agent
    ensures Lookup(ds, agent).Some?
  {
    var d :| d in ds && d.agent == agent;
  }

  lemma CreatorFound(me: string, r: Roster, c: Change, n: Roster)
    requires DeviceOf(r, me).Some? && Changed(me, r, c).Some? && multiset(n.members) == multiset(MembersAfter(r, c))
    ensures DeviceOf(n, me).Some?
  {
    var d := DeviceOf(r, me).value;
    ChangedShape(me, r, c);
    assert d in MembersAfter(r, c);
    assert d in multiset(n.members);
    LookupFinds(n.members, me);
  }

  // What is staged for a change.
  lemma StagedShape(st: Session, c: Change, seed: int)
    requires StageChange(st, c, seed).Some?
    ensures st.active.Some? && st.group.Some? && Changed(st.me, st.active.value, c).Some?
    ensures EngineMembers(st.group.value, st.active.value, c, st.key).Some?
    ensures var next := StageChange(st, c, seed).value;
            && next.staged.Some? && next.group.Some? && next.group.value.staged.Some? && next.me == st.me
            && next.group.value.staged.value
               == Committed(st.group.value.era, st.key, EngineMembers(st.group.value, st.active.value, c, st.key).value, seed)
            && var n := next.staged.value;
               && n.commit == next.group.value.staged && (n.welcome.Some? ==> n.welcome == n.commit)
               && n.members == SortDevices(MembersAfter(st.active.value, c))
               && n.epoch == st.active.value.epoch + 1 && n.previous == HashOf(st.active.value)
  {
    ChangedShape(st.me, st.active.value, c);
  }

  // The membership that carries a change, against the engine's new members.
  lemma ChangeFits(st: Session, c: Change, seed: int)
    requires st.active.Some? && st.group.Some? && Trusted(st.active.value, st.root)
    requires MembersMatch(st.group.value.era, st.active.value) && KeysDiffer(st.active.value.members)
    requires DeviceOf(st.active.value, st.me).Some? && StageChange(st, c, seed).Some?
    ensures StagedFits(StageChange(st, c, seed).value, st.active)
  {
    StagedShape(st, c, seed);
    var n := StageChange(st, c, seed).value.staged.value;
    MembersFit(st.group.value, st.active.value, c, st.key, n, seed);
    CreatorFound(st.me, st.active.value, c, n);
  }

  lemma MembersFit(g: Group, r: Roster, c: Change, own: Key, n: Roster, seed: int)
    requires MembersMatch(g.era, r) && KeysDiffer(r.members) && Strict(r.members)
    requires EngineMembers(g, r, c, own).Some?
    requires n.members == SortDevices(MembersAfter(r, c)) && n.epoch == r.epoch + 1
    ensures MembersMatch(Committed(g.era, own, EngineMembers(g, r, c, own).value, seed), n) && KeysDiffer(n.members)
    ensures multiset(n.members) == multiset(MembersAfter(r, c))
  {
    ChangeKeys(g, r, c, own);
    SortDevicesMembers(MembersAfter(r, c));
    var era := Committed(g.era, own, EngineMembers(g, r, c, own).value, seed);
    assert Epoch(era) == Epoch(g.era) + 1;
    KeysOf(MembersAfter(r, c), era, n);
  }

  // A change prepared by an owner who is in step fits the chain and the engine.
  lemma ChangeStands(st: Session, c: Change, seed: int)
    requires st.active.Some? && Standing(st, st.active) && st.staged.None? && st.key == st.root
    requires st.mlsEpoch > 0 && Trusted(st.active.value, st.root) && StageChange(st, c, seed).Some?
    ensures Standing(StageChange(st, c, seed).value, st.active)
  {
    assert At(st, st.active) == st;
    ChangeFits(st, c, seed);
    StageLeaves(st, StageChange(st, c, seed).value, st.active);
  }

  // Staging touches neither the epoch nor the era.
  lemma StageLeaves(st: Session, next: Session, y: Option<Roster>)
    requires Standing(st, y) && st.group.Some? && next.group.Some?
    requires next == st.(group := next.group, staged := next.staged)
    requires next.group.value.era == st.group.value.era && Paired(next)
    ensures EpochOk(At(next, y)) && EraOk(At(next, y)) && CreatorOk(next, y)
  {
  }

  lemma FirstStands(st: Session, recipient: string, seed: int)
    requires Standing(st, None) && st.staged.None? && StageFirst(st, recipient, seed).Some?
    ensures Standing(StageFirst(st, recipient, seed).value, None)
  {
    var next := StageFirst(st, recipient, seed).value;
    var d := Device(st.me, recipient, st.key);
    assert next.staged.value.members == [d];
    assert Members(next.group.value.era) == {st.key};
  }

  lemma DiscardStands(st: Session, y: Option<Roster>)
    requires Standing(st, y) && st.staged.Some? && st.staged.value.epoch > 1
    ensures Standing(Discarded(st), y)
  {
  }

  // ----- Each operation -----

  // The session changes; the saved state may become the session's.
  lemma SessionStages(w: World, w2: World)
    requires StageInv(w) && w2.journal == w.journal && (w2.disk == w.disk || w2.mem.None? || w2.disk == w2.mem.value.st)
    requires SameDevice(w.disk, w2.disk) && Stands(w.journal, w2.disk)
    requires w2.mem.Some? ==>
               SameDevice(w.disk, w2.mem.value.st) && Stands(w.journal, w2.mem.value.st)
               && (Working(w2) ==> Settled(w2.disk, w2.mem.value.st))
    requires Offering(w2)
    ensures StageInv(w2)
  {
  }

  // Before the first membership is published there is nothing to stand on.
  lemma NothingSynced(w: World)
    requires StageInv(w) && w.mem.Some? && Links(w.journal) == []
    ensures Synced(w.journal, w.mem.value.st.cursor).None?
  {
    LinkAt(w.journal, w.mem.value.st.root, w.mem.value.st.room, w.mem.value.st.cursor);
  }

  lemma FirstPlaced(w: World, recipient: string, seed: int)
    requires StageInv(w) && Enabled(w, PrepareFirst(recipient, seed))
    ensures Stands(w.journal, StageFirst(w.mem.value.st, recipient, seed).value)
  {
    var st := w.mem.value.st;
    NothingSynced(w);
    FirstStands(st, recipient, seed);
    StandsIf(w.journal, StageFirst(st, recipient, seed).value);
  }

  lemma ChangePlaced(w: World, change: Change, seed: int)
    requires StageInv(w) && Enabled(w, Prepare(change, seed))
    ensures Stands(w.journal, StageChange(w.mem.value.st, change, seed).value)
  {
    var st := w.mem.value.st;
    LinkAt(w.journal, st.root, st.room, st.cursor);
    assert st.active == Synced(w.journal, st.cursor);
    ChangeStands(st, change, seed);
    StandsIf(w.journal, StageChange(st, change, seed).value);
  }

  lemma PrepareStages(w: World, op: Op)
    requires StageInv(w) && Enabled(w, op) && (op.PrepareFirst? || op.Prepare?)
    ensures StageInv(Next(w, op))
  {
    match op
    case PrepareFirst(recipient, seed) => FirstPlaced(w, recipient, seed); SessionStages(w, Next(w, op));
    case Prepare(change, seed) => ChangePlaced(w, change, seed); SessionStages(w, Next(w, op));
  }

  lemma RefusalStages(w: World)
    requires StageInv(w) && Enabled(w, OfferRefused)
    ensures StageInv(Next(w, OfferRefused))
  {
    var st := w.mem.value.st;
    var rest := Rest(w.journal, st.cursor);
    DiscardStands(st, Synced(w.journal, st.cursor));
    PastAndRest(w.journal, st.cursor);
    LinksConcat(Past(w.journal, st.cursor), rest);
    assert Links(w.journal) == Links(Past(w.journal, st.cursor)) + Links(rest);
    assert st.staged.value !in Links(rest);
    StandsIf(w.journal, Discarded(st));
    SessionStages(w, Next(w, OfferRefused));
  }

  lemma SyncStages(w: World, saved: bool)
    requires StageInv(w) && Enabled(w, SyncRow(saved))
    ensures StageInv(Next(w, SyncRow(saved)))
  {
    var m := w.mem.value;
    var step := RowStep(m.st, Rest(w.journal, m.st.cursor)[0]);
    if step.Stopped? {
      FailStages(w, Failing(w).mem);
    } else {
      RowPlaced(w.journal, m.st);
      SyncOffers(w, saved);
      MovedStages(w, step.st, saved, Next(w, SyncRow(saved)));
    }
  }

  lemma MovedStages(w: World, next: Session, saved: bool, w2: World)
    requires StageInv(w) && w.mem.Some? && SameDevice(w.mem.value.st, next) && Stands(w.journal, next)
    requires w2 == w.(disk := if saved then next else w.disk,
                      mem := Some(w.mem.value.(st := next, failed := w.mem.value.failed || !saved)))
    requires Offering(w2)
    ensures StageInv(w2)
  {
    if saved {
      assert Settled(w2.disk, next);
    }
    SessionStages(w, w2);
  }

  // What is reached in the journal is no longer only on its way.
  lemma StagedAfter(st: Session, row: Row)
    requires RowStep(st, row).Moved?
    ensures var next := RowStep(st, row).st;
            next.staged == st.staged || (row.RosterRow? && st.staged == Some(row.roster))
  {
    if !row.RosterRow? {
      MessageFooting(st, row);
    }
  }

  lemma ReachedBelowHead(rows: seq<Row>, root: Key, room: string, cursor: int)
    requires JournalOk(rows, root, room) && Rest(rows, cursor) != [] && Rest(rows, cursor)[0].RosterRow?
    ensures Rest(rows, cursor)[0].roster.epoch <= HeadEpoch(rows)
  {
    LinkAt(rows, root, room, cursor);
    assert Links(Rest(rows, cursor))[0] == Rest(rows, cursor)[0].roster;
  }

  lemma OffersFollow(w: World, w2: World, reached: Option<Roster>)
    requires Offering(w) && w.mem.Some? && w2.mem.Some? && w2.offered == w.offered && w2.journal == w.journal
    requires reached.Some? ==> reached.value.epoch <= HeadEpoch(w.journal)
    requires w2.mem.value.st.staged == w.mem.value.st.staged || w.mem.value.st.staged == reached
    requires w2.disk == w.disk || w2.disk == w2.mem.value.st
    ensures Offering(w2)
  {
  }

  lemma SyncOffers(w: World, saved: bool)
    requires StageInv(w) && Enabled(w, SyncRow(saved))
    requires RowStep(w.mem.value.st, Rest(w.journal, w.mem.value.st.cursor)[0]).Moved?
    ensures Offering(Next(w, SyncRow(saved)))
  {
    var st := w.mem.value.st;
    var row := Rest(w.journal, st.cursor)[0];
    StagedAfter(st, row);
    if row.RosterRow? {
      ReachedBelowHead(w.journal, st.root, st.room, st.cursor);
    }
    OffersFollow(w, Next(w, SyncRow(saved)), if row.RosterRow? then Some(row.roster) else None);
  }

  lemma AppendPlaced(rows: seq<Row>, row: Row, st: Session)
    requires Stands(rows, st) && Follows(rows, row.seqNo)
    requires row.RosterRow? && st.key == st.root ==> st.staged == Some(row.roster) && Links(Rest(rows, st.cursor)) == []
    ensures Stands(rows + [row], st)
  {
    PastAppend(rows, row, st.cursor);
    LinksAppend(Rest(rows, st.cursor), row);
    forall at | Follows(rows + [row], at) ensures at > st.cursor {
      assert Follows(rows, row.seqNo);
    }
    StandsIf(rows + [row], st);
  }

  lemma IncreasingAppend(rows: seq<Row>, row: Row)
    requires Increasing(rows) && Follows(rows, row.seqNo)
    ensures Increasing(rows + [row])
  {
    forall i | 0 <= i < |rows| ensures rows[i].seqNo < row.seqNo {
      assert i < |rows| - 1 ==> rows[i].seqNo < rows[|rows| - 1].seqNo;
    }
  }

  lemma ChainAppend(rs: seq<Roster>, r: Roster, root: Key)
    requires Chained(None, rs, root) && Trusted(r, root) && r.epoch == |rs| + 1
    requires r.epoch > 1 ==> rs != [] && r.previous == HashOf(rs[|rs| - 1])
    ensures Chained(None, rs + [r], root)
  {
  }

  lemma AppendLinks(rows: seq<Row>, row: Row, root: Key, room: string)
    requires JournalOk(rows, root, room)
    requires row.RosterRow? ==> Succeeds(rows, row.roster, root, room) && Honest(row.roster)
    ensures Chained(None, Links(rows + [row]), root)
    ensures forall r <- Links(rows + [row]) :: Honest(r) && r.room == room
    ensures HeadEpoch(rows) <= HeadEpoch(rows + [row])
  {
    LinksAppend(rows, row);
    if row.RosterRow? {
      LinkAt(rows, root, room, 0);
      ChainAppend(Links(rows), row.roster, root);
    } else {
      assert Links(rows + [row]) == Links(rows);
    }
  }

  lemma AppendJournal(rows: seq<Row>, row: Row, root: Key, room: string)
    requires JournalOk(rows, root, room) && Follows(rows, row.seqNo)
    requires row.RosterRow? ==> Succeeds(rows, row.roster, root, room) && Honest(row.roster)
    ensures JournalOk(rows + [row], root, room) && HeadEpoch(rows) <= HeadEpoch(rows + [row])
  {
    AppendLinks(rows, row, root, room);
    IncreasingAppend(rows, row);
  }

  // Nothing the owner staged earlier can still be unread when the relay takes the next one.
  lemma NothingBeyond(w: World, st: Session, r: Roster)
    requires JournalOk(w.journal, st.root, st.room) && Stands(w.journal, st) && st.key == st.root
    requires r.epoch == HeadEpoch(w.journal) + 1 && st.staged == Some(r)
    ensures Links(Rest(w.journal, st.cursor)) == []
  {
    LinkAt(w.journal, st.root, st.room, st.cursor);
  }

  lemma TakenStages(w: World, r: Roster, at: int)
    requires StageInv(w) && Enabled(w, RelayTakesRoster(r, at))
    ensures StageInv(Next(w, RelayTakesRoster(r, at)))
  {
    var row := RosterRow(at, r);
    assert w.disk.staged == Some(r);
    AppendJournal(w.journal, row, w.disk.root, w.disk.room);
    assert w.disk.key == w.disk.root;
    NothingBeyond(w, w.disk, r);
    AppendPlaced(w.journal, row, w.disk);
    if w.mem.Some? {
      NothingBeyond(w, w.mem.value.st, r);
      AppendPlaced(w.journal, row, w.mem.value.st);
    }
  }

  lemma OtherRowStages(w: World, row: Row)
    requires StageInv(w) && Follows(w.journal, row.seqNo)
    requires row.RosterRow? ==> w.disk.key != w.disk.root && Honest(row.roster)
                                && Succeeds(w.journal, row.roster, w.disk.root, w.disk.room)
    ensures StageInv(w.(journal := w.journal + [row]))
  {
    AppendJournal(w.journal, row, w.disk.root, w.disk.room);
    AppendPlaced(w.journal, row, w.disk);
    if w.mem.Some? {
      AppendPlaced(w.journal, row, w.mem.value.st);
    }
  }

  // Once everything has been read, the newest membership is the one in force.
  lemma HeadIsSynced(rows: seq<Row>, cursor: int)
    requires Links(Rest(rows, cursor)) == []
    ensures Head(rows) == Synced(rows, cursor)
  {
    PastAndRest(rows, cursor);
    LinksConcat(Past(rows, cursor), Rest(rows, cursor));
    assert Links(rows) == Links(Past(rows, cursor));
  }

  lemma RefreshPlaced(rows: seq<Row>, st: Session)
    requires JournalOk(rows, st.root, st.room) && Stands(rows, st) && Head(rows).Some?
    requires Refreshed(st, Head(rows).value).Some?
    ensures Stands(rows, Refreshed(st, Head(rows).value).value)
  {
    var y := Synced(rows, st.cursor);
    LinkAt(rows, st.root, st.room, st.cursor);
    if Links(Rest(rows, st.cursor)) == [] {
      HeadIsSynced(rows, st.cursor);
    }
    LooksStand(st, Head(rows), Head(rows), y);
    StandsIf(rows, Refreshed(st, Head(rows).value).value);
  }

  lemma LooksStand(st: Session, head: Option<Roster>, active: Option<Roster>, y: Option<Roster>)
    requires Standing(st, y) && StagedOk(st)
    ensures Standing(st.(head := head, active := active), y) && StagedOk(st.(head := head, active := active))
  {
  }

  lemma RefreshStages(w: World)
    requires StageInv(w) && Enabled(w, Refresh)
    ensures StageInv(Next(w, Refresh))
  {
    if Refreshed(w.mem.value.st, Head(w.journal).value).Some? {
      RefreshPlaced(w.journal, w.mem.value.st);
    }
    SessionStages(w, Next(w, Refresh));
  }

  lemma SealPlaced(rows: seq<Row>, st: Session, next: Session)
    requires Stands(rows, st) && st.group.Some? && next.group.Some?
    requires next == st.(group := next.group, consumed := next.consumed, archive := next.archive, outbox := next.outbox)
    requires next.group.value == st.group.value.(sent := next.group.value.sent)
    ensures Stands(rows, next)
  {
    StandsIf(rows, next);
  }

  lemma SealStages(w: World, op: Op)
    requires StageInv(w) && Enabled(w, op) && (op.SealMessage? || op.SealFile?)
    ensures StageInv(Next(w, op))
  {
    SealPlaced(w.journal, w.mem.value.st, Next(w, op).mem.value.st);
    SessionStages(w, Next(w, op));
  }

  lemma ConflictStages(w: World, key: string)
    requires StageInv(w) && Enabled(w, Conflict(key))
    ensures StageInv(Next(w, Conflict(key)))
  {
    var st := w.mem.value.st;
    OutboxStands(w.journal, st, st.outbox - {key});
    SessionStages(w, Next(w, Conflict(key)));
  }

  lemma OutboxStands(rows: seq<Row>, st: Session, outbox: map<string, Envelope>)
    requires Stands(rows, st)
    ensures Stands(rows, st.(outbox := outbox))
  {
    StandsIf(rows, st.(outbox := outbox));
  }

  lemma OpenStages(w: World)
    requires StageInv(w) && w.mem.None?
    ensures StageInv(Next(w, Open))
  {
    SessionStages(w, Next(w, Open));
  }

  // The session's state becomes the saved one.
  lemma SaveStages(w: World, mem: Option<Mem>)
    requires StageInv(w) && w.mem.Some? && (mem.None? || mem.value.st == w.mem.value.st)
    ensures StageInv(w.(disk := w.mem.value.st, mem := mem))
  {
    SessionStages(w, w.(disk := w.mem.value.st, mem := mem));
  }

  lemma FailStages(w: World, mem: Option<Mem>)
    requires StageInv(w) && w.mem.Some? && (mem.None? || (mem.value.st == w.mem.value.st && mem.value.failed))
    ensures StageInv(w.(mem := mem))
  {
    SessionStages(w, w.(mem := mem));
  }

  lemma MoreOffered(w: World, r: Roster)
    requires StageInv(w) && w.disk.staged == Some(r) && (w.mem.Some? ==> w.mem.value.st.staged == Some(r))
    ensures StageInv(w.(offered := w.offered + {r}))
  {
    SessionStages(w, w.(offered := w.offered + {r}));
  }

  lemma SettledStaged(disk: Session, st: Session)
    requires Settled(disk, st)
    ensures st.staged == disk.staged
  {
  }

  lemma OfferStages(w: World)
    requires StageInv(w) && Enabled(w, Offer)
    ensures StageInv(Next(w, Offer))
  {
    SettledStaged(w.disk, w.mem.value.st);
    MoreOffered(w, w.mem.value.st.staged.value);
  }

  lemma QuietStages(w: World, op: Op)
    requires StageInv(w) && Enabled(w, op) && (op.Retry? || op.Post?)
    ensures StageInv(Next(w, op))
  {
    SessionStages(w, Next(w, op));
  }

  lemma RelayStages(w: World, op: Op)
    requires StageInv(w) && Enabled(w, op) && (op.RelayTakes? || op.RelayTakesRoster? || op.RelayBrings?)
    ensures StageInv(Next(w, op))
  {
    match op
    case RelayTakes(e, at) => OtherRowStages(w, EnvelopeRow(at, e));
    case RelayTakesRoster(r, at) => TakenStages(w, r, at);
    case RelayBrings(row) => OtherRowStages(w, row);
  }

  lemma DraftStages(w: World, op: Op)
    requires StageInv(w) && Enabled(w, op)
    requires op.SealMessage? || op.SealFile? || op.PrepareFirst? || op.Prepare? || op.OfferRefused?
    ensures StageInv(Next(w, op))
  {
    match op
    case SealMessage(_, _, _, _) => SealStages(w, op);
    case SealFile(_, _, _, _) => SealStages(w, op);
    case PrepareFirst(_, _) => PrepareStages(w, op);
    case Prepare(_, _) => PrepareStages(w, op);
    case OfferRefused => RefusalStages(w);
  }

  lemma WorkStages(w: World, op: Op)
    requires StageInv(w) && Enabled(w, op)
    requires op.SyncRow? || op.Refresh? || op.Conflict? || op.Offer? || op.Retry? || op.Post?
    ensures StageInv(Next(w, op))
  {
    match op
    case SyncRow(saved) => SyncStages(w, saved);
    case Refresh => RefreshStages(w);
    case Conflict(key) => ConflictStages(w, key);
    case Offer => OfferStages(w);
    case Retry(_) => QuietStages(w, op);
    case Post => QuietStages(w, op);
  }

  lemma EndStages(w: World, op: Op)
    requires StageInv(w) && Enabled(w, op) && (op.Open? || op.Close? || op.Crash? || op.Persist?)
    ensures StageInv(Next(w, op))
  {
    match op
    case Open => OpenStages(w);
    case Close(saved) => if saved { SaveStages(w, None); } else { FailStages(w, None); }
    case Crash => FailStages(w, None);
    case Persist(saved) =>
      if saved { SaveStages(w, Next(w, op).mem); } else { FailStages(w, Next(w, op).mem); }
  }

  lemma StepStages(w: World, op: Op)
    requires StageInv(w) && Enabled(w, op)
    ensures StageInv(Next(w, op))
  {
    if op.Open? || op.Close? || op.Crash? || op.Persist? {
      EndStages(w, op);
    } else if op.RelayTakes? || op.RelayTakesRoster? || op.RelayBrings? {
      RelayStages(w, op);
    } else if op.SealMessage? || op.SealFile? || op.PrepareFirst? || op.Prepare? || op.OfferRefused? {
      DraftStages(w, op);
    } else {
      WorkStages(w, op);
    }
  }
}

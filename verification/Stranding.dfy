// Exactly when a device can go on after it has looked at the relay's newest membership
// (cmd/tincan/encryption.go cryptoRoster, encryption_mls.go ensureMLS and syncMLS).
module Stranding {
  import opened Text
  import opened Encryption
  import opened Sessions
  import opened Rosters
  import opened Journal
  import opened Sealing
  import opened DeviceRuns
  import opened DeviceSealing
  import opened DeviceKeys
  import opened DeviceStaging
  import opened DeviceTheorems

  // cryptoRoster makes the relay's newest membership the active one. That leaves the device at
  // its place in the journal exactly when the journal holds no unread membership.
  lemma RefreshKeepsPlace(run: Run, k: nat, st: Session)
    requires IsRun(run) && k < |run.worlds| && StateOf(run.worlds[k], st) && Head(run.worlds[k].journal).Some?
    requires Refreshed(st, Head(run.worlds[k].journal).value).Some?
    ensures var rows := run.worlds[k].journal;
            var next := Refreshed(st, Head(rows).value).value;
            next.active == Synced(rows, st.cursor) <==> Links(Rest(rows, st.cursor)) == []
  {
    RunStages(run, k);
    var rows := run.worlds[k].journal;
    LinkAt(rows, st.root, st.room, st.cursor);
    if Links(Rest(rows, st.cursor)) == [] {
      HeadIsSynced(rows, st.cursor);
    }
  }

  // For a device in the group that is: exactly when the newest membership has the epoch of its
  // group, which it could compare before it replaces the active membership.
  lemma RefreshGuard(run: Run, k: nat, st: Session)
    requires IsRun(run) && k < |run.worlds| && StateOf(run.worlds[k], st) && Head(run.worlds[k].journal).Some?
    requires Refreshed(st, Head(run.worlds[k].journal).value).Some? && st.mlsEpoch > 0
    ensures var rows := run.worlds[k].journal;
            var next := Refreshed(st, Head(rows).value).value;
            next.active == Synced(rows, st.cursor) <==> Head(rows).value.epoch == st.mlsEpoch
  {
    var rows := run.worlds[k].journal;
    RefreshKeepsPlace(run, k, st);
    MergedExactly(run, k, st);
    RunStages(run, k);
    LinkAt(rows, st.root, st.room, st.cursor);
  }

  // A device that is ahead enters no membership it has not read: each synchronization stops
  // with a fault at the latest at the first of them, and leaves the device where it was.
  lemma {:induction false} AheadIsStranded(st: Session, rows: seq<Row>)
    requires Links(rows) != [] && Links(rows)[0].epoch <= ActiveEpoch(st)
    ensures Replay(st, rows).fault.Some?
    ensures Replay(st, rows).st.active == st.active && Replay(st, rows).st.mlsEpoch == st.mlsEpoch
    decreases |rows|
  {
    if RowStep(st, rows[0]).Moved? {
      MessageFooting(st, rows[0]);
      AheadIsStranded(RowStep(st, rows[0]).st, rows[1..]);
    }
  }

  // Together: after the newest membership has been looked at, the unread part of the journal
  // cannot be replayed if there is an unread membership.
  lemma RefreshStrands(run: Run, k: nat, st: Session)
    requires IsRun(run) && k < |run.worlds| && StateOf(run.worlds[k], st) && Head(run.worlds[k].journal).Some?
    requires Refreshed(st, Head(run.worlds[k].journal).value).Some?
    requires Links(Rest(run.worlds[k].journal, st.cursor)) != []
    ensures var rows := run.worlds[k].journal;
            Replay(Refreshed(st, Head(rows).value).value, Rest(rows, st.cursor)).fault.Some?
  {
    RunStages(run, k);
    var rows := run.worlds[k].journal;
    LinkAt(rows, st.root, st.room, st.cursor);
    AheadIsStranded(Refreshed(st, Head(rows).value).value, Rest(rows, st.cursor));
  }

  // ----- For the rest of the run -----

  // The session has membership y in force, in group epoch `epoch`, and looks further ahead.
  ghost predicate StuckAt(rows: seq<Row>, st: Session, y: Option<Roster>, epoch: int) {
    && Synced(rows, st.cursor) == y && st.mlsEpoch == epoch
    && ActiveEpoch(st) > EpochOf(y) && HeadEpoch(rows) > EpochOf(y)
  }

  ghost predicate Stuck(w: World, y: Option<Roster>, epoch: int) {
    StuckAt(w.journal, w.disk, y, epoch) && (w.mem.Some? ==> StuckAt(w.journal, w.mem.value.st, y, epoch))
  }

  lemma UnreadStops(rows: seq<Row>, st: Session, y: Option<Roster>, epoch: int)
    requires JournalOk(rows, st.root, st.room) && StuckAt(rows, st, y, epoch)
    requires Rest(rows, st.cursor) != [] && Rest(rows, st.cursor)[0].RosterRow?
    ensures RowStep(st, Rest(rows, st.cursor)[0]).Stopped?
  {
    LinkAt(rows, st.root, st.room, st.cursor);
    assert Links(Rest(rows, st.cursor))[0] == Rest(rows, st.cursor)[0].roster;
  }

  lemma RowStuck(rows: seq<Row>, st: Session, y: Option<Roster>, epoch: int)
    requires JournalOk(rows, st.root, st.room) && StuckAt(rows, st, y, epoch) && Rest(rows, st.cursor) != []
    requires RowStep(st, Rest(rows, st.cursor)[0]).Moved?
    ensures StuckAt(rows, RowStep(st, Rest(rows, st.cursor)[0]).st, y, epoch)
  {
    var row := Rest(rows, st.cursor)[0];
    assert !row.RosterRow? by {
      if row.RosterRow? {
        UnreadStops(rows, st, y, epoch);
      }
    }
    SyncedAfter(rows, st.cursor);
    MessageFooting(st, row);
  }

  lemma AppendStuck(rows: seq<Row>, row: Row, st: Session, y: Option<Roster>, epoch: int)
    requires StuckAt(rows, st, y, epoch) && CursorOk(rows, st) && Follows(rows, row.seqNo)
    requires HeadEpoch(rows) <= HeadEpoch(rows + [row])
    ensures StuckAt(rows + [row], st, y, epoch)
  {
    PastAppend(rows, row, st.cursor);
  }

  lemma JournalStuck(w: World, row: Row, y: Option<Roster>, epoch: int)
    requires StageInv(w) && Stuck(w, y, epoch) && Follows(w.journal, row.seqNo)
    requires row.RosterRow? ==> row.roster.epoch >= HeadEpoch(w.journal)
    ensures Stuck(w.(journal := w.journal + [row]), y, epoch)
  {
    LinksAppend(w.journal, row);
    assert row.RosterRow? || Links(w.journal + [row]) == Links(w.journal);
    assert Stands(w.journal, w.disk);
    AppendStuck(w.journal, row, w.disk, y, epoch);
    if w.mem.Some? {
      assert Stands(w.journal, w.mem.value.st);
      AppendStuck(w.journal, row, w.mem.value.st, y, epoch);
    }
  }

  lemma SyncStuck(w: World, saved: bool, y: Option<Roster>, epoch: int)
    requires StageInv(w) && Enabled(w, SyncRow(saved)) && Stuck(w, y, epoch)
    ensures Stuck(Next(w, SyncRow(saved)), y, epoch)
  {
    if RowStep(w.mem.value.st, Rest(w.journal, w.mem.value.st.cursor)[0]).Moved? {
      RowStuck(w.journal, w.mem.value.st, y, epoch);
    }
  }

  lemma RefreshStuck(w: World, y: Option<Roster>, epoch: int)
    requires Enabled(w, Refresh) && Stuck(w, y, epoch)
    ensures Stuck(Next(w, Refresh), y, epoch)
  {
  }

  // What the other operations of a session leave alone.
  lemma DraftStuck(w: World, op: Op, y: Option<Roster>, epoch: int)
    requires Enabled(w, op) && Stuck(w, y, epoch)
    requires op.SealMessage? || op.SealFile? || op.PrepareFirst? || op.Prepare? || op.OfferRefused?
    ensures Stuck(Next(w, op), y, epoch)
  {
    if Next(w, op).mem.Some? {
      var st, st2 := w.mem.value.st, Next(w, op).mem.value.st;
      assert st2.cursor == st.cursor && st2.mlsEpoch == st.mlsEpoch && st2.active == st.active;
    }
  }

  lemma PlainStuck(w: World, op: Op, y: Option<Roster>, epoch: int)
    requires Enabled(w, op) && Stuck(w, y, epoch)
    requires op.Open? || op.Close? || op.Crash? || op.Persist? || op.Retry? || op.Post? || op.Conflict? || op.Offer?
    ensures Stuck(Next(w, op), y, epoch)
  {
  }

  lemma RelayStuck(w: World, op: Op, y: Option<Roster>, epoch: int)
    requires StageInv(w) && Enabled(w, op) && Stuck(w, y, epoch)
    requires op.RelayTakes? || op.RelayTakesRoster? || op.RelayBrings?
    ensures Stuck(Next(w, op), y, epoch)
  {
    match op
    case RelayTakes(e, at) => JournalStuck(w, EnvelopeRow(at, e), y, epoch);
    case RelayTakesRoster(r, at) => JournalStuck(w, RosterRow(at, r), y, epoch);
    case RelayBrings(row) => JournalStuck(w, row, y, epoch);
  }

  lemma StepStuck(run: Run, k: nat, y: Option<Roster>, epoch: int)
    requires IsRun(run) && k < |run.ops| && Stuck(run.worlds[k], y, epoch)
    ensures Stuck(run.worlds[k + 1], y, epoch)
  {
    RunStages(run, k);
    var w, op := run.worlds[k], run.ops[k];
    if op.RelayTakes? || op.RelayTakesRoster? || op.RelayBrings? {
      RelayStuck(w, op, y, epoch);
    } else if op.SyncRow? {
      SyncStuck(w, op.saved, y, epoch);
    } else if op.Refresh? {
      RefreshStuck(w, y, epoch);
    } else if op.SealMessage? || op.SealFile? || op.PrepareFirst? || op.Prepare? || op.OfferRefused? {
      DraftStuck(w, op, y, epoch);
    } else {
      PlainStuck(w, op, y, epoch);
    }
  }

  // And it stays that way: whatever the device and the relay do from then on, retries and
  // restarts included, the device never comes to another membership or group epoch.
  lemma {:induction false} StrandedForGood(run: Run, i: nat, j: nat, y: Option<Roster>, epoch: int)
    requires IsRun(run) && i <= j < |run.worlds| && Stuck(run.worlds[i], y, epoch)
    ensures Stuck(run.worlds[j], y, epoch)
    decreases j
  {
    if i < j {
      StrandedForGood(run, i, j - 1, y, epoch);
      StepStuck(run, j - 1, y, epoch);
    }
  }

  // ----- An example -----

  // A room of two: its owner, and a member who was admitted with the second membership and
  // looks at the third before it has read it.
  const OWNER := Device("a", "ra", "k")
  const MEMBER := Device("b", "rb", "x")

  function EraOf(n: nat): Era {
    if n <= 1 then Founded("k", 0) else Committed(EraOf(n - 1), "k", {"k", "x"}, n)
  }

  const FIRST := Roster("m", None, map[], 1, NoHash, [OWNER], None, None, "k")
  const SECOND := Roster("m", None, map[], 2, HashOf(FIRST), [OWNER, MEMBER], Some(EraOf(2)), Some(EraOf(2)), "k")
  const THIRD := Roster("m", None, map[], 3, HashOf(SECOND), [OWNER, MEMBER], Some(EraOf(3)), None, "k")

  const EARLY := [RosterRow(1, FIRST), RosterRow(2, SECOND)]
  const LATE := EARLY + [RosterRow(3, THIRD)]

  // The saved states: new, after one row, admitted, and with the newest membership looked at.
  const NEW := Session("b", "x", "k", "m", None, 0, None, None, 0, {}, map[], {}, None, map[])
  const WATCHING := NEW.(active := Some(FIRST), cursor := 1)
  const ADMITTED := NEW.(group := Some(Entered(EraOf(2))), mlsEpoch := 2, active := Some(SECOND), cursor := 2)
  const AHEAD := ADMITTED.(active := Some(THIRD), head := Some(THIRD))

  function Closed(st: Session, rows: seq<Row>): World {
    World(st, None, rows, {}, {}, {})
  }

  function Opened(st: Session, disk: Session, rows: seq<Row>, failed: bool): World {
    World(disk, Some(Mem(st, false, failed, None)), rows, {}, {}, {})
  }

  lemma RostersTrusted()
    ensures Trusted(FIRST, "k") && Trusted(SECOND, "k") && Trusted(THIRD, "k")
    ensures DeviceOf(FIRST, "b").None? && DeviceOf(SECOND, "b") == Some(MEMBER)
    ensures MembersMatch(EraOf(2), SECOND)
  {
    assert Before("a", "b");
    assert Epoch(EraOf(2)) == 1;
    assert [OWNER, MEMBER][1..] == [MEMBER];
    assert [OWNER][1..] == [];
    assert |{"k", "x"}| == 2;
  }

  lemma JournalsChained()
    ensures Links(EARLY) == [FIRST, SECOND] && Links(LATE) == [FIRST, SECOND, THIRD]
    ensures Increasing(EARLY) && Chained(None, Links(EARLY), "k")
    ensures Head(EARLY) == Some(SECOND) && Head(LATE) == Some(THIRD)
  {
    RostersTrusted();
    LinksAppend([], RosterRow(1, FIRST));
    LinksAppend([RosterRow(1, FIRST)], RosterRow(2, SECOND));
    LinksAppend(EARLY, RosterRow(3, THIRD));
    assert [] + [RosterRow(1, FIRST)] == [RosterRow(1, FIRST)];
    assert [RosterRow(1, FIRST)] + [RosterRow(2, SECOND)] == EARLY;
  }

  lemma RestsAre()
    ensures Rest(EARLY, 0) == EARLY && Rest(EARLY, 1) == [RosterRow(2, SECOND)]
    ensures Rest(LATE, 2) == [RosterRow(3, THIRD)]
  {
    assert EARLY[1..] == [RosterRow(2, SECOND)];
    assert Rest([RosterRow(2, SECOND)], 2) == Rest([], 2);
    assert Rest(EARLY, 2) == Rest(EARLY[1..], 2) == [];
    RestAppend(EARLY, [RosterRow(3, THIRD)], 2);
  }

  lemma RowsEnter()
    ensures RowStep(NEW, RosterRow(1, FIRST)) == Moved(WATCHING)
    ensures RowStep(WATCHING, RosterRow(2, SECOND)) == Moved(ADMITTED)
    ensures Refreshed(ADMITTED, THIRD) == Some(AHEAD)
    ensures RowStep(AHEAD, RosterRow(3, THIRD)) == Stopped(ForkOrGap)
  {
    RostersTrusted();
  }

  lemma ExampleBegins()
    ensures Beginning(Closed(NEW, EARLY))
  {
    JournalsChained();
  }

  lemma ExampleSteps(w: World, op: Op, next: World)
    requires (w, op, next) in {
               (Closed(NEW, EARLY), Open, Opened(NEW, NEW, EARLY, false)),
               (Opened(NEW, NEW, EARLY, false), SyncRow(true), Opened(WATCHING, WATCHING, EARLY, false)),
               (Opened(WATCHING, WATCHING, EARLY, false), SyncRow(true), Opened(ADMITTED, ADMITTED, EARLY, false)),
               (Opened(ADMITTED, ADMITTED, EARLY, false), RelayBrings(RosterRow(3, THIRD)),
                Opened(ADMITTED, ADMITTED, LATE, false)),
               (Opened(ADMITTED, ADMITTED, LATE, false), Refresh, Opened(AHEAD, ADMITTED, LATE, false)),
               (Opened(AHEAD, ADMITTED, LATE, false), Close(true), Closed(AHEAD, LATE)),
               (Closed(AHEAD, LATE), Open, Opened(AHEAD, AHEAD, LATE, false)),
               (Opened(AHEAD, AHEAD, LATE, false), SyncRow(true), Opened(AHEAD, AHEAD, LATE, true))}
    ensures Enabled(w, op) && Next(w, op) == next
  {
    RostersTrusted();
    JournalsChained();
    RestsAre();
    RowsEnter();
  }

  function Example(): Run {
    Run([Closed(NEW, EARLY), Opened(NEW, NEW, EARLY, false), Opened(WATCHING, WATCHING, EARLY, false),
         Opened(ADMITTED, ADMITTED, EARLY, false), Opened(ADMITTED, ADMITTED, LATE, false),
         Opened(AHEAD, ADMITTED, LATE, false), Closed(AHEAD, LATE), Opened(AHEAD, AHEAD, LATE, false),
         Opened(AHEAD, AHEAD, LATE, true)],
        [Open, SyncRow(true), SyncRow(true), RelayBrings(RosterRow(3, THIRD)), Refresh, Close(true), Open, SyncRow(true)])
  }

  lemma ExampleRuns()
    ensures IsRun(Example())
  {
    ExampleBegins();
    var run := Example();
    forall k | 0 <= k < 8 ensures Enabled(run.worlds[k], run.ops[k]) && run.worlds[k + 1] == Next(run.worlds[k], run.ops[k]) {
      ExampleSteps(run.worlds[k], run.ops[k], run.worlds[k + 1]);
    }
  }

  // A run in which an admitted member ends up stranded: its next synchronization fails at the
  // third membership, and by the lemma above so does every later one.
  lemma StrandedExample()
    ensures IsRun(Example())
    ensures var w := Example().worlds[8];
            && w.disk.mlsEpoch == 2 && HeadEpoch(w.journal) == 3 && w.mem.Some? && w.mem.value.failed
            && Rest(w.journal, w.disk.cursor) == [RosterRow(3, THIRD)]
            && RowStep(w.disk, RosterRow(3, THIRD)) == Stopped(ForkOrGap)
            && Stuck(w, Some(SECOND), 2)
  {
    ExampleRuns();
    JournalsChained();
    RestsAre();
    RowsEnter();
    ExamplePlace();
  }

  lemma ExamplePlace()
    ensures Synced(LATE, 2) == Some(SECOND)
  {
    JournalsChained();
    PastAndRest(LATE, 2);
    RestsAre();
    assert Past(LATE, 2) == EARLY by {
      assert LATE == EARLY + [RosterRow(3, THIRD)];
      assert |Past(LATE, 2)| == 2;
    }
  }
}

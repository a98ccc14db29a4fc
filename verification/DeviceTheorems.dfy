// What the staging invariant means over whole runs.
module DeviceTheorems {
  import opened Text
  import opened Encryption
  import opened Sessions
  import opened Rosters
  import opened Journal
  import opened Sealing
  import opened DeviceRuns
  import opened DeviceSealing
  import opened DeviceKeys
  import opened DeviceStaging

  lemma {:induction false} RunStages(run: Run, k: nat)
    requires IsRun(run) && k < |run.worlds|
    ensures StageInv(run.worlds[k])
  {
    if k == 0 {
      BeginningStages(run.worlds[0]);
    } else {
      RunStages(run, k - 1);
      StepStages(run.worlds[k - 1], run.ops[k - 1]);
    }
  }

  // A state the device may be in: the saved one, or that of its open session.
  ghost predicate StateOf(w: World, st: Session) {
    st == w.disk || (w.mem.Some? && st == w.mem.value.st)
  }

  lemma StateStands(run: Run, k: nat, st: Session)
    requires IsRun(run) && k < |run.worlds| && StateOf(run.worlds[k], st)
    ensures var rows := run.worlds[k].journal;
            var y := Synced(rows, st.cursor);
            && JournalOk(rows, st.root, st.room) && Standing(st, y) && ActiveOk(st, y) && StagedOk(st)
            && BeyondOk(st, Rest(rows, st.cursor))
  {
    RunStages(run, k);
    assert Stands(run.worlds[k].journal, st);
  }

  lemma PastEpochs(rows: seq<Row>, root: Key, room: string, cursor: int)
    requires JournalOk(rows, root, room)
    ensures forall r <- Links(Past(rows, cursor)) :: r.epoch <= EpochOf(Synced(rows, cursor))
  {
    LinkAt(rows, root, room, cursor);
    PastAndRest(rows, cursor);
    LinksConcat(Past(rows, cursor), Rest(rows, cursor));
    var past := Links(Past(rows, cursor));
    forall r | r in past ensures r.epoch <= |past| {
      var n :| 0 <= n < |past| && past[n] == r;
      assert Links(rows)[n] == r;
    }
  }

  // The position in the journal decides the group: its epoch, its members, and, from the
  // second membership on, its secrets, which are those of the commit published there. So a
  // staged commit is merged when its membership is reached, not before, and never again.
  lemma MergedExactly(run: Run, k: nat, st: Session)
    requires IsRun(run) && k < |run.worlds| && StateOf(run.worlds[k], st)
    ensures var y := Synced(run.worlds[k].journal, st.cursor);
            && (st.mlsEpoch == 0 || st.mlsEpoch == EpochOf(y))
            && (st.key == st.root ==> st.mlsEpoch == EpochOf(y))
            && (st.mlsEpoch > 0 ==> y.Some? && st.group.Some? && MembersMatch(st.group.value.era, y.value))
            && (st.mlsEpoch > 1 ==> y.Some? && st.group.Some? && Some(st.group.value.era) == y.value.commit)
            && (st.staged.Some? ==> st.staged.value.epoch == EpochOf(y) + 1
                                    && st.staged.value !in Links(Past(run.worlds[k].journal, st.cursor)))
  {
    StateStands(run, k, st);
    PastEpochs(run.worlds[k].journal, st.root, st.room, st.cursor);
  }

  // When the owner comes to an unread membership, it is the one it staged, and it is entered
  // exactly when the session has not looked past the membership in force.
  lemma StagedIsReached(run: Run, k: nat, st: Session)
    requires IsRun(run) && k < |run.worlds| && StateOf(run.worlds[k], st) && st.key == st.root
    requires var rest := Rest(run.worlds[k].journal, st.cursor); rest != [] && rest[0].RosterRow?
    ensures var row := Rest(run.worlds[k].journal, st.cursor)[0];
            && st.staged == Some(row.roster)
            && (RowStep(st, row).Moved? <==> st.active == Synced(run.worlds[k].journal, st.cursor))
            && (RowStep(st, row).Moved? ==>
                  var next := RowStep(st, row).st;
                  && next.staged.None? && next.active == Some(row.roster) && next.mlsEpoch == row.roster.epoch
                  && next.group.Some? && next.group.value.staged.None?
                  && (row.roster.epoch > 1 ==> Some(next.group.value.era) == row.roster.commit))
  {
    StateStands(run, k, st);
    var rows := run.worlds[k].journal;
    LinkAt(rows, st.root, st.room, st.cursor);
    PastStep(rows, st.cursor);
    var row := Rest(rows, st.cursor)[0];
    assert Links(Rest(rows, st.cursor))[0] == row.roster;
    ReachedEnters(st, row.roster, Synced(rows, st.cursor));
  }

  lemma ReachedEnters(st: Session, r: Roster, y: Option<Roster>)
    requires Standing(st, y) && ActiveOk(st, y) && StagedOk(st) && st.staged == Some(r) && st.key == st.root
    requires Trusted(r, st.root) && r.room == st.room && r.epoch == EpochOf(y) + 1
    requires r.epoch > 1 ==> y.Some? && r.previous == HashOf(y.value)
    ensures EnterRoster(st, r).Moved? <==> st.active == y
    ensures EnterRoster(st, r).Moved? ==>
              var next := EnterRoster(st, r).st;
              && next.staged.None? && next.active == Some(r) && next.mlsEpoch == r.epoch
              && next.group.Some? && next.group.value.staged.None?
              && (r.epoch > 1 ==> Some(next.group.value.era) == r.commit)
  {
  }

  // ensureMLS returns normally: nothing was staged or the relay has published it, the journal
  // has been read to its end, and the newest membership is the one the group is in.
  ghost predicate Returns(w: World) {
    && Working(w) && Head(w.journal).Some?
    && (w.mem.value.st.staged.Some? ==> w.mem.value.st.staged.value in Links(w.journal))
    && Rest(w.journal, w.mem.value.st.cursor) == []
    && Refreshed(w.mem.value.st, Head(w.journal).value).Some?
    && w.mem.value.st.mlsEpoch == HeadEpoch(w.journal)
  }

  // Then nothing is left staged, and the roster, the group and the journal agree.
  lemma NormalReturn(run: Run, k: nat)
    requires IsRun(run) && k < |run.worlds| && Returns(run.worlds[k])
    ensures var w := run.worlds[k];
            var st := Refreshed(w.mem.value.st, Head(w.journal).value).value;
            && st.staged.None? && st.group.Some? && st.group.value.staged.None?
            && st.active == Head(w.journal) && st.mlsEpoch == st.active.value.epoch == Epoch(st.group.value.era) + 1
            && MembersMatch(st.group.value.era, st.active.value)
            && Refreshed(w.mem.value.st, Head(w.journal).value).value.cursor == w.mem.value.st.cursor
  {
    var w := run.worlds[k];
    var st := w.mem.value.st;
    MergedExactly(run, k, st);
    RunStages(run, k);
    assert Stands(w.journal, st);
    HeadIsSynced(w.journal, st.cursor);
    PastAndRest(w.journal, st.cursor);
    assert w.journal == Past(w.journal, st.cursor);
    LinkAt(w.journal, st.root, st.room, st.cursor);
  }

  // For the owner that last check always passes once the journal has been read.
  lemma OwnerReturns(run: Run, k: nat, st: Session)
    requires IsRun(run) && k < |run.worlds| && StateOf(run.worlds[k], st) && st.key == st.root
    requires Rest(run.worlds[k].journal, st.cursor) == []
    ensures st.mlsEpoch == HeadEpoch(run.worlds[k].journal)
  {
    MergedExactly(run, k, st);
    HeadIsSynced(run.worlds[k].journal, st.cursor);
  }
}

// When a saved state notices that it is not the only copy of its device, or not the latest
// (cmd/tincan/encryption_mls.go consumeMLSKey).
module Snapshots {
  import opened Text
  import opened Encryption
  import opened Sessions
  import opened Rosters
  import opened Journal
  import opened Sealing
  import opened DeviceRuns
  import opened DeviceSealing
  import opened DeviceKeys
  import opened DeviceStaging
  import opened DeviceTheorems

  // An own message that this state has not consumed.
  predicate Foreign(st: Session, row: Row) {
    row.EnvelopeRow? && row.envelope.context.sender == st.me && IdOf(row.envelope) !in st.consumed
  }

  lemma ConsumeOthers(st: Session, e: Envelope)
    requires st.active.Some? && Consume(st, e).Used?
    ensures Consume(st, e).st.consumed - st.consumed <= {IdOf(e)}
    ensures IdOf(e) !in st.consumed ==> e.context.sender != st.me
    ensures Consume(st, e).st.me == st.me
  {
  }

  // Replaying consumes other devices' messages only.
  lemma StepOwn(st: Session, row: Row, id: Id)
    requires RowStep(st, row).Moved? && id.sender == st.me
    ensures id in RowStep(st, row).st.consumed <==> id in st.consumed
    ensures RowStep(st, row).st.me == st.me
  {
    if row.RosterRow? {
      RosterMoved(st, row.roster);
    } else {
      MessageFooting(st, row);
      if row.EnvelopeRow? && IsMember(st) && Consume(st, row.envelope).Used? {
        ConsumeOthers(st, row.envelope);
      }
    }
  }

  lemma {:induction false} ReplayOwn(st: Session, rows: seq<Row>, id: Id)
    requires id.sender == st.me
    ensures id in Replay(st, rows).st.consumed <==> id in st.consumed
    ensures Replay(st, rows).st.me == st.me
    decreases |rows|
  {
    if rows != [] && RowStep(st, rows[0]).Moved? {
      StepOwn(st, rows[0], id);
      ReplayOwn(RowStep(st, rows[0]).st, rows[1..], id);
    }
  }

  lemma SameForeign(st: Session, rows: seq<Row>, row: Row)
    requires row.EnvelopeRow?
    ensures Foreign(Replay(st, rows).st, row) <==> Foreign(st, row)
  {
    var c := row.envelope.context;
    ReplayOwn(st, rows, Id(st.me, c.key, c.payload));
  }

  // A message that is verified here, as an own one can only be for a member.
  predicate Reaches(st: Session, row: Row) {
    row.seqNo > st.cursor && row.EnvelopeRow? && st.active.Some? && Verified(row.envelope, st.active.value)
  }

  lemma StaleStep(st: Session, row: Row)
    ensures RowStep(st, row) == Stopped(StaleOrCloned) <==> Reaches(st, row) && Foreign(st, row)
  {
    if Reaches(st, row) {
      var e := row.envelope;
      if e.context.sender == st.me {
        assert IsMember(st);
        assert Consume(st, e) == if IdOf(e) in st.consumed then Used(st) else Broken(StaleOrCloned);
      } else if IsMember(st) {
        ConsumeFaults(st, e);
      }
    } else {
      RosterFaults(st, row);
    }
  }

  lemma ConsumeFaults(st: Session, e: Envelope)
    requires st.active.Some? && e.context.sender != st.me
    ensures Consume(st, e) != Broken(StaleOrCloned)
  {
  }

  lemma RosterFaults(st: Session, row: Row)
    requires !Reaches(st, row)
    ensures RowStep(st, row) != Stopped(StaleOrCloned)
  {
  }

  // The first faulty row of a replay, if there is one, is where the fault-free part ends.
  ghost predicate StopsAt(st: Session, rows: seq<Row>, n: nat)
    requires n < |rows|
  {
    Replay(st, rows[..n]).fault.None? && RowStep(Replay(st, rows[..n]).st, rows[n]).Stopped?
  }

  lemma StopsOnce(st: Session, rows: seq<Row>, n: nat)
    requires n < |rows| && StopsAt(st, rows, n)
    ensures Replay(st, rows) == Replayed(Replay(st, rows[..n]).st, Some(RowStep(Replay(st, rows[..n]).st, rows[n]).why))
  {
    assert rows == rows[..n] + rows[n..];
    ReplayAppend(st, rows[..n], rows[n..]);
    assert rows[n..][0] == rows[n];
  }

  // A saved state that replays the journal reports that it is stale or cloned exactly when its
  // first faulty row is a verified message of its own device that the saved state, as it was
  // before the replay, had not consumed.
  lemma StaleExactly(st: Session, rows: seq<Row>)
    ensures Replay(st, rows).fault == Some(StaleOrCloned) <==>
            exists n :: 0 <= n < |rows| && StopsAt(st, rows, n)
                        && Reaches(Replay(st, rows[..n]).st, rows[n]) && Foreign(st, rows[n])
  {
    var out := Replay(st, rows);
    if out.fault == Some(StaleOrCloned) {
      var n := FaultStops(st, rows);
      StaleStep(out.st, rows[n]);
      SameForeign(st, rows[..n], rows[n]);
      assert StopsAt(st, rows, n);
    }
    if n :| 0 <= n < |rows| && StopsAt(st, rows, n) && Reaches(Replay(st, rows[..n]).st, rows[n]) && Foreign(st, rows[n]) {
      SameForeign(st, rows[..n], rows[n]);
      StaleStep(Replay(st, rows[..n]).st, rows[n]);
      StopsOnce(st, rows, n);
    }
  }

  // No replay ever gets past such a message, whatever else the journal holds.
  lemma {:induction false} ForeignStops(st: Session, rows: seq<Row>, n: nat)
    requires n < |rows| && Foreign(st, rows[n])
    ensures Replay(st, rows).fault.Some?
    decreases |rows|
  {
    if RowStep(st, rows[0]).Moved? {
      var next := RowStep(st, rows[0]).st;
      if n == 0 {
        StaleStep(st, rows[0]);
        ForeignMoves(st, rows[0]);
      } else {
        StepOwn(st, rows[0], IdOf(rows[n].envelope));
        assert rows[1..][n - 1] == rows[n];
        ForeignStops(next, rows[1..], n - 1);
      }
    }
  }

  lemma ForeignMoves(st: Session, row: Row)
    requires Foreign(st, row)
    ensures RowStep(st, row).Stopped?
  {
    StaleStep(st, row);
  }

  // ----- Older saved states -----

  lemma {:induction false} JournalGrows(run: Run, i: nat, j: nat)
    requires IsRun(run) && i <= j < |run.worlds|
    ensures run.worlds[i].journal <= run.worlds[j].journal
    decreases j
  {
    if i < j {
      JournalGrows(run, i, j - 1);
    }
  }

  lemma {:induction false} JournalPositive(run: Run, k: nat)
    requires IsRun(run) && k < |run.worlds|
    ensures forall row <- run.worlds[k].journal :: row.seqNo > 0
  {
    if k > 0 {
      JournalPositive(run, k - 1);
      PositiveStep(run.worlds[k - 1], run.ops[k - 1]);
    }
  }

  lemma PositiveStep(w: World, op: Op)
    requires Enabled(w, op) && forall row <- w.journal :: row.seqNo > 0
    ensures forall row <- Next(w, op).journal :: row.seqNo > 0
  {
  }

  // The saved state is replaced by the session's, or by what the session makes of a row.
  lemma DiskStep(w: World, op: Op)
    requires Enabled(w, op)
    ensures var disk := Next(w, op).disk;
            || disk == w.disk
            || (w.mem.Some? && disk == w.mem.value.st)
            || (w.mem.Some? && op.SyncRow? && Rest(w.journal, w.mem.value.st.cursor) != []
                && RowStep(w.mem.value.st, Rest(w.journal, w.mem.value.st.cursor)[0]) == Moved(disk))
  {
  }

  lemma KeyStep(w: World, op: Op)
    requires SealInv(w) && Enabled(w, op)
    ensures SameDevice(w.disk, Next(w, op).disk)
  {
    DiskStep(w, op);
    if op.SyncRow? && RowStep(w.mem.value.st, Rest(w.journal, w.mem.value.st.cursor)[0]).Moved? {
      RowAdvances(w.mem.value.st, Rest(w.journal, w.mem.value.st.cursor)[0]);
    }
  }

  lemma {:induction false} SameKey(run: Run, i: nat, j: nat)
    requires IsRun(run) && i <= j < |run.worlds|
    ensures SameDevice(run.worlds[i].disk, run.worlds[j].disk)
    decreases j
  {
    if i < j {
      SameKey(run, i, j - 1);
      RunKeys(run, j - 1);
      KeyStep(run.worlds[j - 1], run.ops[j - 1]);
    }
  }

  lemma {:induction false} RestHas(rows: seq<Row>, cursor: int, row: Row)
    requires row in rows && row.seqNo > cursor
    ensures row in Rest(rows, cursor)
    decreases |rows|
  {
    if rows[0].seqNo <= cursor {
      RestHas(rows[1..], cursor, row);
    }
  }

  lemma NotYetThere(run: Run, i: nat, row: Row)
    requires IsRun(run) && i < |run.worlds| && Foreign(run.worlds[i].disk, row)
    requires row.envelope.signer == run.worlds[i].disk.key
    ensures row !in run.worlds[i].journal
  {
    RunKeys(run, i);
    assert row in run.worlds[i].journal ==> row.envelope in run.worlds[i].sent;
    assert row.envelope in run.worlds[i].sent ==> Covers(run.worlds[i].disk, row.envelope);
  }

  lemma CursorInside(run: Run, i: nat)
    requires IsRun(run) && i < |run.worlds|
    ensures CursorOk(run.worlds[i].journal, run.worlds[i].disk)
  {
    RunStages(run, i);
    assert Stands(run.worlds[i].journal, run.worlds[i].disk);
  }

  lemma JournalOrdered(run: Run, j: nat)
    requires IsRun(run) && j < |run.worlds|
    ensures Increasing(run.worlds[j].journal)
  {
    RunStages(run, j);
  }

  // Bringing back an older saved state is noticed at the latest at the first message that was
  // posted since and has reached the journal: the replay does not get past it.
  lemma SnapshotIsCaught(run: Run, i: nat, j: nat, row: Row)
    requires IsRun(run) && i <= j < |run.worlds| && row in run.worlds[j].journal
    requires row.EnvelopeRow? && row.envelope.signer == run.worlds[j].disk.key
    requires Foreign(run.worlds[i].disk, row)
    ensures Replay(run.worlds[i].disk, Rest(run.worlds[j].journal, run.worlds[i].disk.cursor)).fault.Some?
  {
    var disk, rows := run.worlds[i].disk, run.worlds[j].journal;
    SameKey(run, i, j);
    NotYetThere(run, i, row);
    JournalGrows(run, i, j);
    JournalPositive(run, j);
    CursorInside(run, i);
    JournalOrdered(run, j);
    AppendedIsAhead(run.worlds[i].journal, rows, disk, row);
    RestHas(rows, disk.cursor, row);
    var n :| 0 <= n < |Rest(rows, disk.cursor)| && Rest(rows, disk.cursor)[n] == row;
    ForeignStops(disk, Rest(rows, disk.cursor), n);
  }

  lemma AppendedIsAhead(before: seq<Row>, after: seq<Row>, st: Session, row: Row)
    requires before <= after && Increasing(after) && row in after && row !in before && CursorOk(before, st)
    requires forall r <- after :: r.seqNo > 0
    ensures row.seqNo > st.cursor
  {
    var m :| 0 <= m < |after| && after[m] == row;
    assert forall k :: 0 <= k < |before| ==> before[k] == after[k] && before[k] in before;
    assert Follows(before, row.seqNo) by {
      if before != [] {
        assert before[|before| - 1] == after[|before| - 1];
      }
    }
  }
}

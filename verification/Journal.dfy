// What replaying the journal keeps: an unbroken chain of memberships, one group epoch per
// membership, indifference to rejected messages, to paging and to interruptions.
module Journal {
  import opened Text
  import opened Encryption
  import opened Sessions

  // ----- Interruptions -----

  lemma {:induction false} ReplayAppend(st: Session, a: seq<Row>, b: seq<Row>)
    ensures Replay(st, a + b) ==
            var first := Replay(st, a); if first.fault.Some? then first else Replay(first.st, b)
    decreases |a|
  {
    if a == [] {
      assert a + b == b;
    } else {
      assert (a + b)[0] == a[0] && (a + b)[1..] == a[1..] + b;
      if RowStep(st, a[0]).Moved? {
        ReplayAppend(RowStep(st, a[0]).st, a[1..], b);
      }
    }
  }

  // A replay that ends with a fault has done exactly the rows before the faulty one.
  lemma {:induction false} FaultStops(st: Session, rows: seq<Row>) returns (n: nat)
    ensures n <= |rows| && Replay(st, rows[..n]) == Replayed(Replay(st, rows).st, None)
    ensures var out := Replay(st, rows);
            if out.fault.Some? then n < |rows| && RowStep(out.st, rows[n]) == Stopped(out.fault.value) else n == |rows|
    decreases |rows|
  {
    if rows == [] {
      n := 0;
    } else if RowStep(st, rows[0]).Stopped? {
      n := 0;
    } else {
      var k := FaultStops(RowStep(st, rows[0]).st, rows[1..]);
      n := k + 1;
      assert rows[..n][0] == rows[0] && rows[..n][1..] == rows[1..][..k];
    }
  }

  lemma {:induction false} CursorFollows(st: Session, rows: seq<Row>)
    requires Replay(st, rows).fault.None?
    ensures Replay(st, rows).st.cursor == if rows == [] then st.cursor else rows[|rows| - 1].seqNo
    ensures forall k :: 0 <= k < |rows| ==> rows[k].seqNo > st.cursor
    decreases |rows|
  {
    if rows != [] {
      CursorFollows(RowStep(st, rows[0]).st, rows[1..]);
    }
  }

  lemma {:induction false} RestAppend(rows: seq<Row>, more: seq<Row>, cursor: int)
    ensures var rest := Rest(rows, cursor);
            Rest(rows + more, cursor) == if rest == [] then Rest(more, cursor) else rest + more
    decreases |rows|
  {
    if rows == [] {
      assert rows + more == more;
    } else {
      assert (rows + more)[0] == rows[0] && (rows + more)[1..] == rows[1..] + more;
      RestAppend(rows[1..], more, cursor);
    }
  }

  lemma {:induction false} RestTwice(rows: seq<Row>, earlier: int, later: int)
    requires earlier <= later
    ensures Rest(Rest(rows, earlier), later) == Rest(rows, later)
    decreases |rows|
  {
    if rows != [] && rows[0].seqNo <= earlier {
      RestTwice(rows[1..], earlier, later);
    }
  }

  lemma {:induction false} RestAfter(rows: seq<Row>, n: nat)
    requires Increasing(rows) && 0 < n <= |rows|
    ensures Rest(rows, rows[n - 1].seqNo) == rows[n..]
    decreases |rows|
  {
    if n > 1 {
      RestAfter(rows[1..], n - 1);
    } else if |rows| > 1 {
      assert rows[1..][0] == rows[1];
    }
  }

  lemma {:induction false} RestIncreasing(rows: seq<Row>, cursor: int)
    requires Increasing(rows)
    ensures Increasing(Rest(rows, cursor))
    ensures forall k :: 0 <= k < |Rest(rows, cursor)| ==> Rest(rows, cursor)[k].seqNo > cursor
    decreases |rows|
  {
    if rows != [] && rows[0].seqNo <= cursor {
      RestIncreasing(rows[1..], cursor);
    }
  }

  // Synchronizing, then synchronizing again after the journal has grown, is synchronizing
  // once with the grown journal; also when the first attempt was cut short after any row.
  lemma SyncResumes(st: Session, rows: seq<Row>, more: seq<Row>, done: nat)
    requires Increasing(rows + more) && done <= |Rest(rows, st.cursor)|
    requires Replay(st, Rest(rows, st.cursor)[..done]).fault.None?
    ensures var mid := Replay(st, Rest(rows, st.cursor)[..done]).st;
            Replay(mid, Rest(rows + more, mid.cursor)) == Replay(st, Rest(rows + more, st.cursor))
  {
    var rest, all := Rest(rows, st.cursor), Rest(rows + more, st.cursor);
    if done == 0 {
      assert rest[..done] == [];
    } else {
      RestAppend(rows, more, st.cursor);
      assert all[..done] == rest[..done] && all == all[..done] + all[done..];
      CursorFollows(st, rest[..done]);
      var mid := Replay(st, rest[..done]).st;
      RestIncreasing(rows + more, st.cursor);
      RestTwice(rows + more, st.cursor, mid.cursor);
      RestAfter(all, done);
      ReplayAppend(st, all[..done], all[done..]);
    }
  }

  // ----- The membership chain -----

  function Links(rows: seq<Row>): seq<Roster> {
    if rows == [] then []
    else (if rows[0].RosterRow? then [rows[0].roster] else []) + Links(rows[1..])
  }

  // Each membership names the one before it, and epochs count up by one.
  ghost predicate Chained(from: Option<Roster>, rs: seq<Roster>, root: Key) {
    && (forall k :: 0 <= k < |rs| ==>
          Trusted(rs[k], root) && rs[k].epoch == (if from.Some? then from.value.epoch else 0) + k + 1)
    && (forall k :: 1 <= k < |rs| && rs[k].epoch > 1 ==> rs[k].previous == HashOf(rs[k - 1]))
    && (rs != [] && rs[0].epoch > 1 ==> from.Some? && rs[0].previous == HashOf(from.value))
  }

  lemma ChainStep(from: Option<Roster>, r: Roster, rs: seq<Roster>, root: Key)
    requires Chained(from, [r], root) && Chained(Some(r), rs, root)
    ensures Chained(from, [r] + rs, root)
  {
    var all := [r] + rs;
    assert [r][0] == r;
    forall k | 0 <= k < |all|
      ensures Trusted(all[k], root) && all[k].epoch == (if from.Some? then from.value.epoch else 0) + k + 1
    {
      if k > 0 {
        assert all[k] == rs[k - 1];
      }
    }
  }

  // What a row that is not a membership leaves alone.
  ghost predicate SameFooting(st: Session, next: Session) {
    && next == st.(cursor := next.cursor, consumed := next.consumed, archive := next.archive,
                   rejected := next.rejected, group := next.group)
    && (next.group == st.group
        || (next.group.Some? && st.group.Some? && next.group.value.era == st.group.value.era
            && next.group.value.staged == st.group.value.staged && next.group.value.sent == st.group.value.sent))
  }

  lemma ConsumeFooting(st: Session, e: Envelope)
    requires st.active.Some? && Consume(st, e).Used?
    ensures SameFooting(st, Consume(st, e).st)
    ensures st.consumed <= Consume(st, e).st.consumed
  {
  }

  lemma MessageFooting(st: Session, row: Row)
    requires !row.RosterRow? && RowStep(st, row).Moved?
    ensures SameFooting(st, RowStep(st, row).st)
  {
    if row.EnvelopeRow? && IsMember(st) && Consume(st, row.envelope).Used? {
      ConsumeFooting(st, row.envelope);
    }
  }

  lemma RosterMoved(st: Session, r: Roster)
    requires EnterRoster(st, r).Moved?
    ensures Chained(st.active, [r], st.root)
    ensures var next := EnterRoster(st, r).st;
            next.active == Some(r) && next.root == st.root && next.me == st.me
  {
  }

  // Whatever a replay accepts is one unbroken chain signed by the owner, and the active
  // membership is its last link.
  lemma ChainKept(st: Session, rows: seq<Row>)
    requires Replay(st, rows).fault.None?
    ensures Chained(st.active, Links(rows), st.root)
    ensures var rs := Links(rows);
            Replay(st, rows).st.active == if rs == [] then st.active else Some(rs[|rs| - 1])
  {
    LinksChained(st, rows);
    LastLinkTaken(st, rows);
  }

  lemma {:induction false} LinksChained(st: Session, rows: seq<Row>)
    requires Replay(st, rows).fault.None?
    ensures Chained(st.active, Links(rows), st.root)
    decreases |rows|
  {
    if rows != [] {
      LinksChained(RowStep(st, rows[0]).st, rows[1..]);
      if rows[0].RosterRow? {
        ChainRow(st, rows[0], Links(rows[1..]));
      } else {
        MessageFooting(st, rows[0]);
      }
    }
  }

  lemma {:induction false} LastLinkTaken(st: Session, rows: seq<Row>)
    requires Replay(st, rows).fault.None?
    ensures var rs := Links(rows);
            Replay(st, rows).st.active == if rs == [] then st.active else Some(rs[|rs| - 1])
    decreases |rows|
  {
    if rows != [] {
      LastLinkTaken(RowStep(st, rows[0]).st, rows[1..]);
      if rows[0].RosterRow? {
        RosterMoved(st, rows[0].roster);
      } else {
        MessageFooting(st, rows[0]);
      }
    }
  }

  lemma ChainRow(st: Session, row: Row, later: seq<Roster>)
    requires row.RosterRow? && RowStep(st, row).Moved?
    requires Chained(RowStep(st, row).st.active, later, RowStep(st, row).st.root)
    ensures RowStep(st, row).st.active == Some(row.roster) && Chained(st.active, [row.roster] + later, st.root)
  {
    RosterMoved(st, row.roster);
    ChainStep(st.active, row.roster, later, st.root);
  }

  // ----- One group epoch per membership -----

  // A device that has joined is in the epoch of the active membership, with its members.
  ghost predicate EpochOk(st: Session) {
    && st.mlsEpoch >= 0
    && (st.mlsEpoch > 0 ==>
          IsMember(st) && st.mlsEpoch == st.active.value.epoch
          && st.group.Some? && MembersMatch(st.group.value.era, st.active.value))
  }

  // Only the creator stages, and its engine holds exactly the commit of the staged membership.
  ghost predicate Paired(st: Session) {
    st.staged.Some? ==>
      && st.key == st.root && st.group.Some?
      && (if st.staged.value.epoch == 1 then st.group.value.staged.None?
          else st.staged.value.commit.Some? && st.group.value.staged == st.staged.value.commit)
  }

  // From epoch 2 on, the group's secrets are those of the active membership's commit.
  ghost predicate EraOk(st: Session) {
    && Paired(st)
    && (st.mlsEpoch > 1 && st.active.Some? ==> st.group.Some? && Some(st.group.value.era) == st.active.value.commit)
  }

  // A welcome admits to the era of the commit it came with.
  ghost predicate Honest(r: Roster) {
    r.epoch > 1 ==> r.commit.Some? && (r.welcome.Some? ==> r.welcome == r.commit)
  }

  lemma RowKeeps(st: Session, row: Row)
    requires EpochOk(st) && RowStep(st, row).Moved?
    ensures EpochOk(RowStep(st, row).st)
    ensures EraOk(st) && (row.RosterRow? ==> Honest(row.roster)) ==> EraOk(RowStep(st, row).st)
  {
    if row.RosterRow? {
      RosterKeeps(st, row.roster);
    } else {
      MessageFooting(st, row);
    }
  }

  lemma RosterKeeps(st: Session, r: Roster)
    requires EpochOk(st) && EnterRoster(st, r).Moved?
    ensures EpochOk(EnterRoster(st, r).st)
    ensures EraOk(st) && Honest(r) ==> EraOk(EnterRoster(st, r).st)
  {
  }

  lemma {:induction false} EpochKept(st: Session, rows: seq<Row>)
    requires EpochOk(st)
    ensures EpochOk(Replay(st, rows).st)
    ensures EraOk(st) && (forall row <- rows :: row.RosterRow? ==> Honest(row.roster)) ==> EraOk(Replay(st, rows).st)
    decreases |rows|
  {
    if rows != [] && RowStep(st, rows[0]).Moved? {
      assert rows[0] in rows;
      RowKeeps(st, rows[0]);
      EpochKept(RowStep(st, rows[0]).st, rows[1..]);
    }
  }

  // A device that has just been set up.
  ghost predicate Newcomer(st: Session) {
    st.active.None? && st.mlsEpoch == 0 && Paired(st)
  }

  // Any two devices that follow the same journal agree on the membership, and, once both are
  // in the group, on its epoch and its secrets.
  lemma Agreement(a: Session, b: Session, rows: seq<Row>)
    requires Newcomer(a) && Newcomer(b) && forall row <- rows :: row.RosterRow? ==> Honest(row.roster)
    requires Replay(a, rows).fault.None? && Replay(b, rows).fault.None?
    ensures var x, y := Replay(a, rows).st, Replay(b, rows).st;
            && x.active == y.active
            && (x.mlsEpoch > 0 && y.mlsEpoch > 0 ==> x.mlsEpoch == y.mlsEpoch)
            && (x.mlsEpoch > 1 && y.mlsEpoch > 0 ==>
                  x.group.Some? && y.group.Some? && x.group.value.era == y.group.value.era)
  {
    ChainKept(a, rows);
    ChainKept(b, rows);
    EpochKept(a, rows);
    EpochKept(b, rows);
  }

  // The engine's comparison means the same members exactly as long as no two listed devices
  // share a signing key.
  lemma {:induction false} KeysMatch(e: Era, r: Roster)
    requires MembersMatch(e, r)
    ensures (set d <- r.members :: d.key) == Members(e)
            <==> KeysDiffer(r.members)
  {
    var keys := set d <- r.members :: d.key;
    assert keys <= Members(e);
    KeyCount(r.members);
    if keys != Members(e) {
      Smaller(keys, Members(e));
    }
  }

  lemma Smaller(a: set<Key>, b: set<Key>)
    requires a <= b && a != b
    ensures |a| < |b|
  {
    assert |b| == |a| + |b - a| by { assert b == a + (b - a); }
    assert b - a != {};
  }

  lemma KeysSnoc(ds: seq<Device>, d: Device)
    ensures (set x <- ds + [d] :: x.key) == (set x <- ds :: x.key) + {d.key}
  {
  }

  ghost predicate KeysDiffer(ds: seq<Device>) {
    forall i, j :: 0 <= i < j < |ds| ==> ds[i].key != ds[j].key
  }

  lemma DifferSnoc(ds: seq<Device>, d: Device)
    ensures KeysDiffer(ds + [d]) <==> KeysDiffer(ds) && d.key !in (set x <- ds :: x.key)
  {
    var all := ds + [d];
    if KeysDiffer(all) {
      forall i, j | 0 <= i < j < |ds| ensures ds[i].key != ds[j].key {
        assert all[i].key != all[j].key;
      }
      forall i | 0 <= i < |ds| ensures ds[i].key != d.key {
        assert all[i].key != all[|ds|].key;
      }
    } else {
      var i, j :| 0 <= i < j < |all| && all[i].key == all[j].key;
      assert all[i] == ds[i] && ds[i] in ds;
      if j < |ds| {
        assert ds[i].key == ds[j].key;
      }
    }
  }

  lemma {:induction false} KeyCount(ds: seq<Device>)
    ensures |set d <- ds :: d.key| <= |ds|
    ensures |set d <- ds :: d.key| == |ds| <==> KeysDiffer(ds)
  {
    if ds != [] {
      var n := |ds| - 1;
      KeyCount(ds[..n]);
      assert ds == ds[..n] + [ds[n]];
      KeysSnoc(ds[..n], ds[n]);
      DifferSnoc(ds[..n], ds[n]);
    }
  }

  // ----- Rejected messages -----

  predicate Rejects(st: Session, row: Row) {
    match row
    case EnvelopeRow(_, e) =>
      st.active.Some? && Verified(e, st.active.value) && IsMember(st) && Consume(st, e).Rejection?
    case OpaqueRow(_, c, id) =>
      IsMember(st) && id !in st.consumed && st.group.Some? && Decrypt(st.group.value, st.key, c).None?
    case _ => false
  }

  // The journal without the application messages that are rejected when replayed from st.
  function Kept(st: Session, rows: seq<Row>): (out: seq<Row>)
    decreases |rows|
  {
    if rows == [] then []
    else
      match RowStep(st, rows[0])
      case Stopped(_) => rows
      case Moved(next) => (if Rejects(st, rows[0]) then [] else [rows[0]]) + Kept(next, rows[1..])
  }

  // Everything but the cursor and the list of rejections.
  function Core(st: Session): Session {
    st.(cursor := 0, rejected := {})
  }

  // The same state with another cursor and other rejections.
  function Elsewhere(st: Session, cursor: int, rejected: set<Envelope>): Session {
    st.(cursor := cursor, rejected := rejected)
  }

  lemma RosterElsewhere(st: Session, cursor: int, rejected: set<Envelope>, r: Roster)
    ensures EnterRoster(Elsewhere(st, cursor, rejected), r) ==
            match EnterRoster(st, r)
            case Stopped(why) => Stopped(why)
            case Moved(next) => Moved(Elsewhere(next, cursor, rejected))
  {
    assert FollowRoster(Elsewhere(st, cursor, rejected), r) == FollowRoster(st, r);
  }

  lemma ConsumeElsewhere(st: Session, cursor: int, rejected: set<Envelope>, e: Envelope)
    requires st.active.Some?
    ensures Consume(Elsewhere(st, cursor, rejected), e) ==
            match Consume(st, e)
            case Used(next) => Used(Elsewhere(next, cursor, rejected))
            case Rejection => Rejection
            case Broken(why) => Broken(why)
  {
  }

  lemma StepElsewhere(st: Session, cursor: int, rejected: set<Envelope>, row: Row)
    requires row.seqNo > st.cursor && row.seqNo > cursor
    ensures match RowStep(st, row)
            case Stopped(why) => RowStep(Elsewhere(st, cursor, rejected), row) == Stopped(why)
            case Moved(next) =>
              var other := RowStep(Elsewhere(st, cursor, rejected), row);
              && other.Moved? && next.cursor == row.seqNo
              && other.st == Elsewhere(next, row.seqNo, other.st.rejected)
  {
    match row
    case RosterRow(_, r) => RosterElsewhere(st, cursor, rejected, r);
    case EnvelopeRow(_, e) => if st.active.Some? { ConsumeElsewhere(st, cursor, rejected, e); }
    case _ =>
  }

  lemma StepCore(a: Session, b: Session, row: Row)
    requires Core(a) == Core(b) && row.seqNo > a.cursor && row.seqNo > b.cursor
    ensures match RowStep(a, row)
            case Stopped(why) => RowStep(b, row) == Stopped(why)
            case Moved(x) => RowStep(b, row).Moved? && Core(x) == Core(RowStep(b, row).st)
                             && RowStep(b, row).st.cursor == x.cursor == row.seqNo
  {
    assert b == Elsewhere(a, b.cursor, b.rejected) by {
      assert b == Core(b).(cursor := b.cursor, rejected := b.rejected);
    }
    StepElsewhere(a, b.cursor, b.rejected, row);
  }

  lemma RejectCore(st: Session, row: Row)
    requires Rejects(st, row) && row.seqNo > st.cursor
    ensures RowStep(st, row).Moved? && Core(RowStep(st, row).st) == Core(st)
  {
  }

  ghost predicate Alike(x: Replayed, y: Replayed) {
    x.fault == y.fault && Core(x.st) == Core(y.st)
  }

  lemma KeptFirst(st: Session, rows: seq<Row>)
    requires rows != [] && RowStep(st, rows[0]).Moved?
    ensures var later := Kept(RowStep(st, rows[0]).st, rows[1..]);
            if Rejects(st, rows[0]) then Kept(st, rows) == later
            else Kept(st, rows) == [rows[0]] + later && Kept(st, rows)[1..] == later
  {
  }

  // Rejected messages leave no trace but the cursor and their own listing: without them the
  // journal has the same effect and ends with the same fault, if any.
  lemma {:induction false} RejectionsInvisible(st: Session, a: Session, rows: seq<Row>)
    requires Core(a) == Core(st) && a.cursor <= st.cursor
    requires Increasing(rows) && forall k :: 0 <= k < |rows| ==> rows[k].seqNo > st.cursor
    ensures Alike(Replay(st, rows), Replay(a, Kept(st, rows)))
    decreases |rows|
  {
    if rows != [] {
      StepCore(st, a, rows[0]);
      var step := RowStep(st, rows[0]);
      if step.Moved? {
        KeptFirst(st, rows);
        if Rejects(st, rows[0]) {
          RejectCore(st, rows[0]);
          RejectionsInvisible(step.st, a, rows[1..]);
        } else {
          RejectionsInvisible(step.st, RowStep(a, rows[0]).st, rows[1..]);
        }
      }
    }
  }

  ghost predicate KeysKept(st: Session, next: Session) {
    && st.consumed <= next.consumed && st.archive.Keys <= next.archive.Keys
    && forall id :: id in st.consumed && id in st.archive ==> next.archive[id] == st.archive[id]
  }

  lemma StepConsumes(st: Session, row: Row)
    requires RowStep(st, row).Moved?
    ensures KeysKept(st, RowStep(st, row).st)
  {
  }

  // A message key that has been consumed is never taken from the journal again.
  lemma {:induction false} ConsumedOnce(st: Session, rows: seq<Row>)
    ensures KeysKept(st, Replay(st, rows).st)
    decreases |rows|
  {
    if rows != [] && RowStep(st, rows[0]).Moved? {
      StepConsumes(st, rows[0]);
      ConsumedOnce(RowStep(st, rows[0]).st, rows[1..]);
    }
  }
}

// When work can proceed, and what repeating a call does.
module Progress {
  import opened Text
  import opened Commitments
  import opened Scheduling
  import opened Dependencies
  import opened Operations
  import opened ControllerRuns
  import opened ControllerSteps
  import opened ControllerBatches
  import opened ControllerInvariant

  // ----- Absence of deadlock -----

  ghost predicate NoClaims(rs: seq<Request>) {
    forall r :: r in rs ==> r.claim.None? && !r.status.Running?
  }

  ghost predicate HasStatus(rs: seq<Request>, id: int, ready: bool) {
    exists r :: r in rs && r.event.seqNo == id &&
      (if ready then r.status.Ready? else !r.status.Ready? && !r.status.Completed?)
  }

  // A chain of dependencies through ready records that ends at one which is neither ready
  // nor completed: only a user or an operator can move that one.
  ghost predicate WaitsFor(rs: seq<Request>, w: seq<int>) {
    && |w| >= 2 && Walk(rs, w)
    && (forall k :: 0 <= k < |w| - 1 ==> HasStatus(rs, w[k], true))
    && HasStatus(rs, w[|w| - 1], false)
  }

  ghost predicate Blocked(rs: seq<Request>, id: int) {
    exists w :: WaitsFor(rs, w) && w[0] == id
  }

  lemma {:induction false} IdleCount(rs: seq<Request>)
    requires NoClaims(rs)
    ensures RunningCount(rs) == 0
  {
    if rs != [] {
      assert rs[|rs| - 1] in rs;
      forall r | r in rs[..|rs| - 1] ensures r in rs {
      }
      IdleCount(rs[..|rs| - 1]);
    }
  }

  // With nothing claimed, a ready record is eligible unless a dependency is unfinished.
  lemma IdleEligible(s: State, r: Request)
    requires NoClaims(s.requests) && r in s.requests && r.status.Ready? && Limit(s.policy) > 0
    ensures Eligible(s, r) <==> Notice(r.event) || forall d :: d in r.dependencies ==> Done(s.requests, d)
  {
    IdleCount(s.requests);
  }

  lemma DoneMeans(rs: seq<Request>, d: int, r: Request)
    requires UniqueIds(rs) && r in rs && r.event.seqNo == d
    ensures Done(rs, d) <==> r.status.Completed?
  {
    var k :| 0 <= k < |rs| && rs[k] == r;
    assert Position(rs, d) == k;
  }

  lemma WaitsLonger(rs: seq<Request>, id: int, tail: seq<int>)
    requires WaitsFor(rs, tail) && Edge(rs, id, tail[0]) && HasStatus(rs, id, true)
    ensures WaitsFor(rs, [id] + tail)
  {
    var w := [id] + tail;
    forall k | 0 <= k < |w| - 1 ensures Edge(rs, w[k], w[k + 1]) && HasStatus(rs, w[k], true) {
      if k > 0 {
        assert w[k] == tail[k - 1] && w[k + 1] == tail[k - 1 + 1];
      }
    }
  }

  lemma {:induction false} FollowToBlock(s: State, r: Request, n: nat) returns (w: seq<int>)
    requires UniqueIds(s.requests) && NoClaims(s.requests) && Limit(s.policy) > 0
    requires forall x :: x in s.requests ==> !Eligible(s, x)
    requires r in s.requests && r.status.Ready? && Grounded(s.requests, r.event.seqNo, n)
    ensures WaitsFor(s.requests, w) && w[0] == r.event.seqNo
    decreases n
  {
    var rs := s.requests;
    IdleEligible(s, r);
    var d :| d in r.dependencies && !Done(rs, d);
    assert Edge(rs, r.event.seqNo, d);
    assert Known(rs, d);
    var x :| x in rs && x.event.seqNo == d;
    DoneMeans(rs, d, x);
    if x.status.Ready? {
      var tail := FollowToBlock(s, x, n - 1);
      w := [r.event.seqNo] + tail;
      WaitsLonger(rs, r.event.seqNo, tail);
    } else {
      w := [r.event.seqNo, d];
    }
  }

  lemma BlockedIsIneligible(s: State, r: Request)
    requires UniqueIds(s.requests) && r in s.requests && !Notice(r.event) && Blocked(s.requests, r.event.seqNo)
    ensures !Eligible(s, r)
  {
    var rs := s.requests;
    var w :| WaitsFor(rs, w) && w[0] == r.event.seqNo;
    assert Edge(rs, w[0], w[0 + 1]);
    var k :| 0 <= k < |rs| && rs[k] == r;
    EdgesAre(rs, w[0], k);
    assert HasStatus(rs, w[1], |w| > 2);
    var x :| x in rs && x.event.seqNo == w[1] && !x.status.Completed?;
    DoneMeans(rs, w[1], x);
  }

  lemma StuckIsBlocked(w: World, r: Request)
    requires Inv(w) && NoClaims(w.s.requests) && Limit(w.s.policy) > 0 && UniqueIds(w.s.requests)
    requires forall x :: x in w.s.requests ==> !Eligible(w.s, x)
    requires r in w.s.requests && r.status.Ready?
    ensures !Notice(r.event) && Blocked(w.s.requests, r.event.seqNo)
  {
    IdleEligible(w.s, r);
    assert Sound(w.s.requests, r.event.seqNo);
    var n: nat :| Grounded(w.s.requests, r.event.seqNo, n);
    var chain := FollowToBlock(w.s, r, n);
  }

  lemma AllBlocked(s: State)
    requires UniqueIds(s.requests)
    requires forall r :: r in s.requests && r.status.Ready? ==> !Notice(r.event) && Blocked(s.requests, r.event.seqNo)
    ensures forall r :: r in s.requests ==> !Eligible(s, r)
  {
    forall r | r in s.requests ensures !Eligible(s, r) {
      if r.status.Ready? {
        BlockedIsIneligible(s, r);
      }
    }
  }

  // With nothing claimed, nothing can start exactly when every ready record waits, through
  // other ready records, for one that is suspended, failed, unanswered, declined or cancelled.
  // In particular the records never merely wait for each other.
  lemma NoDeadlock(w: World)
    requires Inv(w) && NoClaims(w.s.requests)
    ensures Runnable(w.s) == |w.s.requests| <==>
            forall r :: r in w.s.requests && r.status.Ready? ==> !Notice(r.event) && Blocked(w.s.requests, r.event.seqNo)
  {
    var s := w.s;
    InvIsValid(w);
    RunnableIsBest(s);
    if forall r :: r in s.requests ==> !Eligible(s, r) {
      forall r | r in s.requests && r.status.Ready? ensures !Notice(r.event) && Blocked(s.requests, r.event.seqNo) {
        StuckIsBlocked(w, r);
      }
    }
    if forall r :: r in s.requests && r.status.Ready? ==> !Notice(r.event) && Blocked(s.requests, r.event.seqNo) {
      AllBlocked(s);
    }
  }

  lemma WaitEnds(rs: seq<Request>, w: seq<int>)
    requires WaitsFor(rs, w)
    ensures exists a, b :: Edge(rs, a, b) && HasStatus(rs, b, false)
  {
    assert Edge(rs, w[|w| - 2], w[|w| - 2 + 1]);
  }

  // If all dependencies are completed or ready, some ready record can start.
  lemma ReadyWorkRuns(w: World, r: Request)
    requires Inv(w) && NoClaims(w.s.requests) && r in w.s.requests && r.status.Ready?
    requires forall a, b :: Edge(w.s.requests, a, b) ==> !HasStatus(w.s.requests, b, false)
    ensures Runnable(w.s) < |w.s.requests|
  {
    NoDeadlock(w);
    if Blocked(w.s.requests, r.event.seqNo) {
      var c :| WaitsFor(w.s.requests, c) && c[0] == r.event.seqNo;
      WaitEnds(w.s.requests, c);
      assert false;
    }
  }

  // ----- Repeated calls -----

  lemma SuspendSaves(s: State, id: int, token: string, o: Report, first: string)
    requires ReportFault(token, o).None? && !o.status.Completed? && Suspend(s, id, token, o, first).Saved?
    ensures var n := Position(s.requests, id);
            n < |s.requests| && Suspend(s, id, token, o, first) == Save(Put(s, n, Stopped(s.requests[n], token, o, first), 1))
  {
  }

  // Saying again that work stopped, after the answer to the first call was lost, changes
  // nothing: no second question is asked, whatever new decision ID is offered.
  lemma SuspendRetry(w: World, id: int, token: string, o: Report, first: string, again: string, s2: State)
    requires Inv(w) && ReportFault(token, o).None? && !o.status.Completed?
    requires Suspend(w.s, id, token, o, first) == Saved(s2)
    ensures Suspend(s2, id, token, o, again) == Unchanged
  {
    var n := Position(w.s.requests, id);
    InvIsValid(w);
    SuspendSaves(w.s, id, token, o, first);
    PutAt(w.s, n, Stopped(w.s.requests[n], token, o, first), 1);
    StoppedAgain(s2, n, id, token, o, again);
  }

  lemma StoppedAgain(s: State, n: nat, id: int, token: string, o: Report, again: string)
    requires ReportFault(token, o).None? && !o.status.Completed?
    requires n == Position(s.requests, id) && n < |s.requests|
    requires s.requests[n].lastClaim == token && s.requests[n].status == o.status
    ensures Suspend(s, id, token, o, again) == Unchanged
  {
  }

  // Replacing a record by one with the same event leaves it where it was.
  lemma PutAt(s: State, n: nat, next: Request, bump: int)
    requires UniqueIds(s.requests) && Ordered(s.requests)
    requires n < |s.requests| && next.event == s.requests[n].event
    ensures ByPriority(s.requests[n := next]) == s.requests[n := next]
    ensures Position(s.requests[n := next], next.event.seqNo) == n
  {
    var rs := s.requests[n := next];
    forall i, j | 0 <= i < j < |rs| ensures Priority(rs[i]) >= Priority(rs[j]) {
      assert Priority(s.requests[i]) >= Priority(s.requests[j]);
    }
    SortedIsFixed(rs);
    assert rs[n].event.seqNo == next.event.seqNo;
  }

  // Every clarification in the list is in place.
  ghost predicate AllApplied(rs: seq<Request>, n: nat, updates: seq<(int, string)>)
    requires n < |rs|
  {
    forall k :: 0 <= k < |updates| ==> Applied(rs, n, updates[k])
  }

  predicate Applied(rs: seq<Request>, n: nat, u: (int, string))
    requires n < |rs|
  {
    var t := Position(rs, u.0);
    && t < |rs| && !Terminal(rs[t].status) && rs[t].event.channelId == rs[n].event.channelId
    && !Blank(u.1) && ByteLen(u.1) <= 4000
    && (rs[n].attempt, u.0) in rs[n].appliedUpdates
  }

  // Contexts and notes aside, the records are the same, and no note was removed.
  ghost predicate OnlyNotes(rs: seq<Request>, out: seq<Request>) {
    && |out| == |rs|
    && forall k :: 0 <= k < |rs| ==> OnlyContext(rs[k], out[k]) && rs[k].appliedUpdates <= out[k].appliedUpdates
  }

  lemma {:induction false} SamePositions(rs: seq<Request>, out: seq<Request>, id: int)
    requires |out| == |rs| && forall k :: 0 <= k < |rs| ==> out[k].event == rs[k].event
    ensures Position(out, id) == Position(rs, id)
  {
    var n, m := Position(rs, id), Position(out, id);
    assert n < |rs| ==> out[n].event == rs[n].event;
    assert m < |rs| ==> out[m].event == rs[m].event;
  }

  lemma ClarifiedNotes(rs: seq<Request>, n: nat, t: nat, context: string, target: int)
    requires n < |rs| && t < |rs|
    requires rs[t].context <= context
    ensures OnlyNotes(rs, Clarified(rs, n, t, context, target))
    ensures (rs[n].attempt, target) in Clarified(rs, n, t, context, target)[n].appliedUpdates
  {
  }

  lemma NotesChain(a: seq<Request>, b: seq<Request>, c: seq<Request>)
    requires OnlyNotes(a, b) && OnlyNotes(b, c)
    ensures OnlyNotes(a, c)
  {
    forall k | 0 <= k < |a| ensures OnlyContext(a[k], c[k]) && a[k].appliedUpdates <= c[k].appliedUpdates {
      assert OnlyContext(a[k], b[k]) && OnlyContext(b[k], c[k]);
    }
  }

  // A target that was fine, and has been noted, is applied.
  lemma NotedIsApplied(rs: seq<Request>, out: seq<Request>, n: nat, u: (int, string))
    requires n < |rs| && OnlyNotes(rs, out)
    requires var t := Position(rs, u.0);
             && t < |rs| && !Terminal(rs[t].status) && rs[t].event.channelId == rs[n].event.channelId
             && !Blank(u.1) && ByteLen(u.1) <= 4000
    requires (rs[n].attempt, u.0) in out[n].appliedUpdates
    ensures Applied(out, n, u)
  {
    var t := Position(rs, u.0);
    assert OnlyContext(rs[t], out[t]) && OnlyContext(rs[n], out[n]);
    forall k | 0 <= k < |rs| ensures out[k].event == rs[k].event {
      assert OnlyContext(rs[k], out[k]);
    }
    SamePositions(rs, out, u.0);
  }

  lemma AllAppliedCons(rs: seq<Request>, n: nat, updates: seq<(int, string)>)
    requires n < |rs| && updates != [] && Applied(rs, n, updates[0]) && AllApplied(rs, n, updates[1..])
    ensures AllApplied(rs, n, updates)
  {
    forall k | 0 <= k < |updates| ensures Applied(rs, n, updates[k]) {
      if k > 0 { assert updates[k] == updates[1..][k - 1]; }
    }
  }

  lemma {:induction false} ClarifyApplies(rs: seq<Request>, n: nat, updates: seq<(int, string)>)
    requires n < |rs| && Clarify(rs, n, updates).Some?
    ensures OnlyNotes(rs, Clarify(rs, n, updates).value)
    ensures AllApplied(Clarify(rs, n, updates).value, n, updates)
    decreases |updates|
  {
    if updates != [] {
      var (target, text) := updates[0];
      var t := Position(rs, target);
      var out := Clarify(rs, n, updates).value;
      if (rs[n].attempt, target) in rs[n].appliedUpdates {
        ClarifyApplies(rs, n, updates[1..]);
      } else {
        var context := Appended(rs[t].context, "Peer clarification from " + rs[n].event.messageId, text);
        var mid := Clarified(rs, n, t, context, target);
        ClarifiedNotes(rs, n, t, context, target);
        ClarifyApplies(mid, n, updates[1..]);
        NotesChain(rs, mid, out);
      }
      NotedIsApplied(rs, out, n, updates[0]);
      AllAppliedCons(out, n, updates);
    }
  }

  lemma {:induction false} AppliedIsSkipped(rs: seq<Request>, n: nat, updates: seq<(int, string)>)
    requires n < |rs| && AllApplied(rs, n, updates)
    ensures Clarify(rs, n, updates) == Some(rs)
    decreases |updates|
  {
    if updates != [] {
      assert Applied(rs, n, updates[0]);
      forall k | 0 <= k < |updates[1..]| ensures Applied(rs, n, updates[1..][k]) {
        assert updates[1..][k] == updates[k + 1];
      }
      AppliedIsSkipped(rs, n, updates[1..]);
    }
  }

  lemma UpdatesSaves(s: State, id: int, token: string, updates: seq<(int, string)>)
    requires ContextUpdates(s, id, token, updates).Saved?
    ensures var n := Position(s.requests, id);
            && |updates| <= 20 && n < |s.requests|
            && s.requests[n].claim.Some? && s.requests[n].claim.value.token == token
            && Clarify(s.requests, n, updates).Some?
            && ContextUpdates(s, id, token, updates) == Save(s.(requests := Clarify(s.requests, n, updates).value))
  {
  }

  lemma UpdatesAgain(s: State, id: int, token: string, updates: seq<(int, string)>)
    requires var n := Position(s.requests, id);
             && |updates| <= 20 && n < |s.requests|
             && s.requests[n].claim.Some? && s.requests[n].claim.value.token == token
             && Clarify(s.requests, n, updates) == Some(s.requests)
    requires Save(s) == Saved(s)
    ensures ContextUpdates(s, id, token, updates) == Saved(s)
  {
    assert s.(requests := s.requests) == s;
  }

  lemma NotesPosition(rs: seq<Request>, out: seq<Request>, id: int, n: nat)
    requires OnlyNotes(rs, out) && n < |rs|
    ensures Position(out, id) == Position(rs, id) && out[n].claim == rs[n].claim
  {
    forall k | 0 <= k < |rs| ensures out[k].event == rs[k].event {
      assert OnlyContext(rs[k], out[k]);
    }
    SamePositions(rs, out, id);
    assert OnlyContext(rs[n], out[n]);
  }

  lemma StoredValid(w: World)
    requires Inv(w)
    ensures Save(w.s) == Saved(w.s)
  {
    InvIsValid(w);
    SortedIsFixed(w.s.requests);
  }

  lemma ClarifiedStays(rs: seq<Request>, n: nat, id: int, updates: seq<(int, string)>)
    requires n == Position(rs, id) && n < |rs| && Clarify(rs, n, updates).Some?
    ensures var out := Clarify(rs, n, updates).value;
            Position(out, id) == n && out[n].claim == rs[n].claim && Clarify(out, n, updates) == Some(out)
  {
    var out := Clarify(rs, n, updates).value;
    ClarifyApplies(rs, n, updates);
    AppliedIsSkipped(out, n, updates);
    NotesPosition(rs, out, id, n);
  }

  lemma ClarifiedStored(w: World, n: nat, updates: seq<(int, string)>)
    requires Inv(w) && n < |w.s.requests| && Clarify(w.s.requests, n, updates).Some?
    ensures var s := w.s.(requests := Clarify(w.s.requests, n, updates).value); Save(s) == Saved(s)
  {
    var out := Clarify(w.s.requests, n, updates).value;
    ClarifyBatch(w, w.s.requests, n, updates);
    BatchGood(w, w, out);
    StoredValid(w.(s := w.s.(requests := out)));
  }

  // Sending the same clarifications again within one attempt adds nothing.
  lemma UpdatesRetry(w: World, id: int, token: string, updates: seq<(int, string)>, s2: State)
    requires Inv(w) && ContextUpdates(w.s, id, token, updates) == Saved(s2)
    ensures ContextUpdates(s2, id, token, updates) == Saved(s2)
  {
    var n := Position(w.s.requests, id);
    UpdatesSaves(w.s, id, token, updates);
    ClarifiedStored(w, n, updates);
    ClarifiedStays(w.s.requests, n, id, updates);
    UpdatesAgain(s2, id, token, updates);
  }
}

// The remaining controller operations: those that touch many records at once, start work,
// plan it, or admit new events.
module ControllerBatches {
  import opened Text
  import opened Commitments
  import opened Scheduling
  import opened Dependencies
  import opened Operations
  import opened ControllerRuns
  import opened ControllerSteps

  // ----- Changes to many records -----

  ghost predicate BatchChange(h: World, rs: seq<Request>, next: seq<Request>) {
    && |next| == |rs|
    && forall n :: 0 <= n < |rs| ==>
         && Quiet(rs[n], next[n]) && RecordOk(h, next[n]) && SameApproval(rs[n], next[n])
         && (rs[n].reply.Some? ==> next[n].reply == rs[n].reply)
  }

  lemma BatchIsQuiet(w: World, h: World, next: seq<Request>)
    requires BatchChange(h, w.s.requests, next)
    ensures QuietAll(w.s.requests, next) && ApprovalsKept(w, next, 0) && RepliesKept(w.s.requests, next)
  {
    forall n | 0 <= n < |next| ensures Quiet(w.s.requests[n], next[n]) && SameApproval(w.s.requests[n], next[n]) {
    }
  }

  lemma BatchGood(w: World, h: World, next: seq<Request>)
    requires Inv(w) && Grown(w, h) && BatchChange(h, w.s.requests, next)
    ensures Good(h, Save(w.s.(requests := next)))
    ensures ByPriority(next) == next
    ensures Inv(h.(s := w.s.(requests := next)))
  {
    var s := w.s.(requests := next);
    var w2 := h.(s := s);
    BatchIsQuiet(w, h, next);
    forall r | r in next ensures RecordOk(w2, r) {
      var n :| 0 <= n < |next| && next[n] == r;
      ChangeRecordOk(h, s, r);
    }
    QuietSave(w, s, w2, 0);
    QuietKeepsRecords(w, w2, 0);
  }

  // Clarifications add to contexts and to the note of what was applied, and change nothing else.
  ghost predicate OnlyContext(r: Request, next: Request) {
    && next == r.(context := next.context, appliedUpdates := next.appliedUpdates)
    && r.context <= next.context
  }

  lemma {:induction false} ClarifyOnlyContext(rs: seq<Request>, n: nat, updates: seq<(int, string)>)
    requires n < |rs|
    ensures var out := Clarify(rs, n, updates);
            out.Some? ==> forall k :: 0 <= k < |rs| ==> OnlyContext(rs[k], out.value[k])
    decreases |updates|
  {
    if updates != [] {
      var (target, text) := updates[0];
      var t := Position(rs, target);
      if t < |rs| {
        var context := Appended(rs[t].context, "Peer clarification from " + rs[n].event.messageId, text);
        var mid := Clarified(rs, n, t, context, target);
        assert forall k :: 0 <= k < |rs| ==> OnlyContext(rs[k], mid[k]);
        ClarifyOnlyContext(mid, n, updates[1..]);
        ClarifyOnlyContext(rs, n, updates[1..]);
      }
    }
  }

  lemma OnlyContextChange(h: World, r: Request, next: Request)
    requires RecordOk(h, r) && OnlyContext(r, next)
    ensures Quiet(r, next) && RecordOk(h, next) && SameApproval(r, next) && next.reply == r.reply
  {
  }

  lemma ClarifyBatch(h: World, rs: seq<Request>, n: nat, updates: seq<(int, string)>)
    requires n < |rs| && forall r :: r in rs ==> RecordOk(h, r)
    ensures var out := Clarify(rs, n, updates);
            out.Some? ==> BatchChange(h, rs, out.value)
  {
    var out := Clarify(rs, n, updates);
    ClarifyOnlyContext(rs, n, updates);
    if out.Some? {
      forall k | 0 <= k < |rs|
        ensures Quiet(rs[k], out.value[k]) && RecordOk(h, out.value[k]) && SameApproval(rs[k], out.value[k])
        ensures out.value[k].reply == rs[k].reply
      {
        assert rs[k] in rs;
        OnlyContextChange(h, rs[k], out.value[k]);
      }
    }
  }

  // Either nothing is saved, or the clarified records are.
  lemma UpdatesShape(s: State, id: int, token: string, updates: seq<(int, string)>)
    ensures var v := ContextUpdates(s, id, token, updates); var n := Position(s.requests, id);
            || v.Unchanged?
            || (v.Refused? && v.why != InvalidState)
            || (n < |s.requests| && Clarify(s.requests, n, updates).Some?
                && v == Save(s.(requests := Clarify(s.requests, n, updates).value)))
  {
  }

  lemma UpdatesGood(w: World, id: int, token: string, updates: seq<(int, string)>)
    requires Inv(w)
    ensures Good(w, ContextUpdates(w.s, id, token, updates))
  {
    var n := Position(w.s.requests, id);
    UpdatesShape(w.s, id, token, updates);
    if n < |w.s.requests| {
      if Clarify(w.s.requests, n, updates).Some? {
        ClarifiedGood(w, n, updates);
      }
    }
  }

  lemma ClarifiedGood(w: World, n: nat, updates: seq<(int, string)>)
    requires Inv(w) && n < |w.s.requests| && Clarify(w.s.requests, n, updates).Some?
    ensures Good(w, Save(w.s.(requests := Clarify(w.s.requests, n, updates).value)))
  {
    ClarifyBatch(w, w.s.requests, n, updates);
    BatchGood(w, w, Clarify(w.s.requests, n, updates).value);
  }

  lemma RevalidatedChange(h: World, cfg: Config, rs: seq<Request>, r: Request)
    requires RecordOk(h, r)
    ensures var next := Revalidated(cfg, rs, r);
            Quiet(r, next) && RecordOk(h, next) && SameApproval(r, next) && next.reply == r.reply
  {
  }

  lemma RevalidateGood(w: World, cfg: Config)
    requires Inv(w)
    ensures Good(w, Revalidate(cfg, w.s))
  {
    var rs := w.s.requests;
    var out := RevalidateAll(cfg, rs);
    assert BatchChange(w, rs, out) by {
      forall k | 0 <= k < |rs|
        ensures Quiet(rs[k], out[k]) && RecordOk(w, out[k]) && SameApproval(rs[k], out[k]) && out[k].reply == rs[k].reply
      {
        assert rs[k] in rs;
        RevalidatedChange(w, cfg, rs, rs[k]);
      }
    }
    BatchGood(w, w, out);
  }

  lemma RecoveredChange(h: World, r: Request)
    requires RecordOk(h, r)
    ensures var next := Recovered(h.agent, r);
            Quiet(r, next) && RecordOk(h, next) && SameApproval(r, next) && next.reply == r.reply
  {
    assert r.event.(mentioned := IsMention(h.agent, r.event)) == r.event;
  }

  // For a well-formed world a restart only turns running work into work to be recovered.
  lemma RestartGood(w: World, h: World)
    requires Inv(w) && Grown(w, h)
    ensures Restart(w.agent, w.s) == w.s.(requests := RecoverAll(w.agent, w.s.requests))
    ensures Inv(h.(s := Restart(w.agent, w.s)))
  {
    var rs := w.s.requests;
    var out := RecoverAll(w.agent, rs);
    SortedIsFixed(rs);
    forall k | 0 <= k < |rs| ensures RecordOk(h, rs[k]) {
      assert rs[k] in rs;
      assert RecordOk(w, rs[k]);
    }
    assert BatchChange(h, rs, out) by {
      forall k | 0 <= k < |rs|
        ensures Quiet(rs[k], out[k]) && RecordOk(h, out[k]) && SameApproval(rs[k], out[k]) && out[k].reply == rs[k].reply
      {
        RecoveredChange(h, rs[k]);
      }
    }
    BatchGood(w, h, out);
  }

  // ----- Changes that need the sort -----

  // The invariant but for the order of the records.
  ghost predicate Almost(w: World) {
    && w.s.after >= 0
    && (forall r :: r in w.s.requests ==> RecordOk(w, r))
    && AllApart(w.s.requests) && ArrivalOrder(w.s.requests) && AllSound(w.s.requests)
    && PolicyOk(w) && Workers(w.s.requests) <= w.peak && PostsOk(w)
  }

  lemma AlmostValid(w: World)
    requires Almost(w)
    ensures Valid(w.s)
  {
    var rs := w.s.requests;
    forall n | 0 <= n < |rs| ensures 0 < rs[n].event.seqNo <= w.s.after && ValidRecord(rs[n]) {
      assert rs[n] in rs;
    }
    forall i, j | 0 <= i < j < |rs| ensures rs[i].event.seqNo != rs[j].event.seqNo {
      assert Apart(rs[i], rs[j]);
    }
  }

  lemma SamePosts(w: World, w2: World)
    requires PostsOk(w) && w2.posts == w.posts && w2.flight == w.flight
    requires forall r :: r in w.s.requests ==> r in w2.s.requests
    ensures PostsOk(w2)
  {
    forall p | Holds(w.s.requests, p) ensures Holds(w2.s.requests, p) {
      var r :| r in w.s.requests && r.event.seqNo == p.id && r.reply == Some(p.text);
      assert r in w2.s.requests;
    }
    forall id | Closed(w.s.requests, id) ensures Closed(w2.s.requests, id) {
      var r :| r in w.s.requests && r.event.seqNo == id && Terminal(r.status);
      assert r in w2.s.requests;
    }
  }

  lemma SortedRecordsOk(w: World, w2: World)
    requires forall r :: r in w.s.requests ==> RecordOk(w, r)
    requires w2 == w.(s := w.s.(requests := w2.s.requests))
    requires forall r :: r in w2.s.requests ==> r in w.s.requests
    ensures forall r :: r in w2.s.requests ==> RecordOk(w2, r)
  {
    forall r | r in w2.s.requests ensures RecordOk(w2, r) {
      assert RecordOk(w, r);
    }
  }

  lemma AlmostGood(w: World)
    requires Almost(w)
    ensures Good(w, Save(w.s))
  {
    var sorted := ByPriority(w.s.requests);
    var w2 := w.(s := w.s.(requests := sorted));
    AlmostValid(w);
    SortKeeps(w.s.requests);
    SameMembersSound(w.s.requests, sorted);
    SamePosts(w, w2);
    SortedRecordsOk(w, w2);
    assert Save(w.s) == Saved(w2.s);
    assert Inv(w2);
  }

  lemma AlmostSaves(h: World, s: State)
    requires Almost(h.(s := s))
    ensures Good(h, Save(s))
  {
    AlmostGood(h.(s := s));
    var v := Save(s);
    if v.Saved? {
      assert h.(s := s).(s := v.next) == h.(s := v.next);
    }
  }

  // ----- Starting work -----

  lemma {:induction false} WorkersAreRunning(rs: seq<Request>)
    ensures Workers(rs) <= RunningCount(rs)
  {
    if rs != [] {
      WorkersAreRunning(rs[..|rs| - 1]);
    }
  }

  lemma {:induction false} WorkersUpdate(rs: seq<Request>, n: nat, r: Request)
    requires n < |rs|
    ensures Workers(rs[n := r]) ==
            Workers(rs) - (if Working(rs[n]) then 1 else 0) + if Working(r) then 1 else 0
  {
    var m := |rs| - 1;
    if n < m {
      WorkersUpdate(rs[..m], n, r);
      assert rs[n := r][..m] == rs[..m][n := r];
    } else {
      assert rs[n := r][..m] == rs[..m];
    }
  }

  function Started(r: Request, worker: string, token: string): Request {
    r.(claim := Some(Claim(worker, token)), status := Running, attempt := r.attempt + 1)
  }

  lemma ClaimShape(cfg: Config, s: State, id: int, worker: string, token: string)
    ensures var v := ClaimWork(cfg, s, id, worker, token); var n := Position(s.requests, id);
            || v.Unchanged?
            || (v.Refused? && v.why != InvalidState)
            || (n < |s.requests| && s.requests[n].claim.None? && Eligible(s, s.requests[n]) && WorkerName(worker)
                && v == Save(Put(s, n, Started(s.requests[n], worker, token), 0)))
  {
  }

  lemma StartedOk(w: World, h: World, r: Request, worker: string, token: string)
    requires RecordOk(w, r) && Grown(w, h) && token in h.tokens && token != ""
    requires r.status.Ready? && WorkerName(worker)
    ensures RecordOk(h, Started(r, worker, token))
  {
    assert worker == "" ==> Blank(worker);
  }

  // Everything that holds a claim leaves the eligible record alone.
  lemma StartedApart(w: World, n: nat, k: nat, worker: string, token: string)
    requires Inv(w) && n < |w.s.requests| && k < |w.s.requests| && k != n
    requires Eligible(w.s, w.s.requests[n]) && token !in w.tokens
    ensures var r := Started(w.s.requests[n], worker, token);
            Apart(w.s.requests[k], r) && Apart(r, w.s.requests[k])
  {
    var rs := w.s.requests;
    assert rs[k] in rs;
    assert RecordOk(w, rs[k]);
    assert rs[k].claim.Some? && !Notice(rs[n].event) ==> !Conflict(rs[k], rs[n]);
    if k < n { assert Apart(rs[k], rs[n]); } else { assert Apart(rs[n], rs[k]); }
  }

  lemma StartedAllApart(w: World, n: nat, worker: string, token: string)
    requires Inv(w) && n < |w.s.requests|
    requires Eligible(w.s, w.s.requests[n]) && token !in w.tokens
    ensures AllApart(w.s.requests[n := Started(w.s.requests[n], worker, token)])
  {
    var next := w.s.requests[n := Started(w.s.requests[n], worker, token)];
    forall i, j | 0 <= i < j < |next| ensures Apart(next[i], next[j]) {
      if i == n {
        StartedApart(w, n, j, worker, token);
      } else if j == n {
        StartedApart(w, n, i, worker, token);
      } else {
        assert Apart(w.s.requests[i], w.s.requests[j]);
      }
    }
  }

  lemma StartedArrival(rs: seq<Request>, next: seq<Request>)
    requires ArrivalOrder(rs) && |next| == |rs|
    requires forall n :: 0 <= n < |rs| ==> next[n].event == rs[n].event
    ensures ArrivalOrder(next)
  {
  }

  lemma StartedWorkers(w: World, n: nat, worker: string, token: string)
    requires Inv(w) && n < |w.s.requests| && Eligible(w.s, w.s.requests[n])
    ensures Workers(w.s.requests[n := Started(w.s.requests[n], worker, token)]) <= w.peak
  {
    WorkersAreRunning(w.s.requests);
    WorkersUpdate(w.s.requests, n, Started(w.s.requests[n], worker, token));
  }

  lemma StartedStructure(w: World, n: nat, worker: string, token: string)
    requires Inv(w) && token !in w.tokens
    requires n < |w.s.requests| && Eligible(w.s, w.s.requests[n])
    ensures var next := w.s.requests[n := Started(w.s.requests[n], worker, token)];
            && AllApart(next) && ArrivalOrder(next) && AllSound(next)
            && Workers(next) <= w.peak && RepliesKept(w.s.requests, next)
  {
    var next := w.s.requests[n := Started(w.s.requests[n], worker, token)];
    StartedAllApart(w, n, worker, token);
    StartedArrival(w.s.requests, next);
    SamePlanSound(w.s.requests, next);
    StartedWorkers(w, n, worker, token);
    StartedReply(w, n, worker, token);
  }

  lemma StartedReply(w: World, n: nat, worker: string, token: string)
    requires Inv(w) && n < |w.s.requests| && Eligible(w.s, w.s.requests[n])
    ensures RepliesKept(w.s.requests, w.s.requests[n := Started(w.s.requests[n], worker, token)])
  {
    assert w.s.requests[n] in w.s.requests;
  }

  lemma StartedRecords(w: World, h: World, n: nat, worker: string, token: string)
    requires Inv(w) && Grown(w, h) && token in h.tokens && token != ""
    requires n < |w.s.requests| && Eligible(w.s, w.s.requests[n]) && WorkerName(worker)
    ensures var w2 := h.(s := Put(w.s, n, Started(w.s.requests[n], worker, token), 0));
            forall r :: r in w2.s.requests ==> RecordOk(w2, r)
  {
    var r := Started(w.s.requests[n], worker, token);
    var w2 := h.(s := Put(w.s, n, r, 0));
    assert w.s.requests[n] in w.s.requests;
    StartedOk(w, h, w.s.requests[n], worker, token);
    ChangeRecordOk(h, w2.s, r);
    OthersOk(w, w2, n, r);
  }

  lemma StartedAlmost(w: World, h: World, n: nat, worker: string, token: string)
    requires Inv(w) && Grown(w, h) && h.flight == w.flight && token !in w.tokens && token in h.tokens && token != ""
    requires n < |w.s.requests| && Eligible(w.s, w.s.requests[n]) && WorkerName(worker)
    ensures Almost(h.(s := Put(w.s, n, Started(w.s.requests[n], worker, token), 0)))
  {
    var w2 := h.(s := Put(w.s, n, Started(w.s.requests[n], worker, token), 0));
    StartedRecords(w, h, n, worker, token);
    StartedStructure(w, n, worker, token);
    PostsFollow(w, w2);
    AlmostParts(w, h, w2);
  }

  // The cursor and the policy are as before, and every record is in order.
  lemma AlmostParts(w: World, h: World, w2: World)
    requires Inv(w) && Grown(w, h) && w2 == h.(s := w2.s) && w2.s.after == w.s.after && w2.s.policy == w.s.policy
    requires (forall r :: r in w2.s.requests ==> RecordOk(w2, r)) && PostsOk(w2)
    requires AllApart(w2.s.requests) && ArrivalOrder(w2.s.requests) && AllSound(w2.s.requests)
    requires Workers(w2.s.requests) <= w.peak
    ensures Almost(w2)
  {
  }

  lemma ClaimGood(w: World, h: World, cfg: Config, id: int, worker: string, token: string)
    requires Inv(w) && Grown(w, h) && h.flight == w.flight && token !in w.tokens && token in h.tokens && token != ""
    ensures Good(h, ClaimWork(cfg, w.s, id, worker, token))
  {
    var n := Position(w.s.requests, id);
    ClaimShape(cfg, w.s, id, worker, token);
    if n < |w.s.requests| && Eligible(w.s, w.s.requests[n]) && WorkerName(worker) {
      StartedAlmost(w, h, n, worker, token);
      AlmostSaves(h, Put(w.s, n, Started(w.s.requests[n], worker, token), 0));
    }
  }

  // ----- Planning -----

  lemma PlanShape(s: State, id: int, dependencies: seq<int>, resources: seq<string>)
    ensures var v := Plan(s, id, dependencies, resources); var n := Position(s.requests, id);
            || (v.Refused? && v.why != InvalidState)
            || (n < |s.requests| && s.requests[n].status.Ready?
                && Sound(s.requests[n := Planned(s.requests[n], dependencies, resources)], id)
                && v == Save(Put(s, n, Planned(s.requests[n], dependencies, resources), 1)))
  {
  }

  lemma PlannedSound(rs: seq<Request>, n: nat, next: seq<Request>)
    requires AllSound(rs) && UniqueIds(rs) && n < |rs|
    requires |next| == |rs| && next[n].event == rs[n].event && Sound(next, rs[n].event.seqNo)
    requires forall k :: 0 <= k < |rs| && k != n ==> next[k] == rs[k]
    ensures AllSound(next)
  {
    var id := rs[n].event.seqNo;
    var m: nat :| Grounded(next, id, m);
    forall x | Known(rs, x) ensures Known(next, x) {
      var r :| r in rs && r.event.seqNo == x;
      var k :| 0 <= k < |rs| && rs[k] == r;
      assert next[k] in next;
    }
    forall x, y | x != id && Edge(next, x, y) ensures Edge(rs, x, y) {
      var r :| r in next && r.event.seqNo == x && y in r.dependencies;
      var k :| 0 <= k < |next| && next[k] == r;
      assert rs[k] in rs;
    }
    forall r | r in next ensures Sound(next, r.event.seqNo) {
      var k :| 0 <= k < |next| && next[k] == r;
      assert rs[k] in rs;
      assert Sound(rs, rs[k].event.seqNo);
      var j: nat :| Grounded(rs, rs[k].event.seqNo, j);
      ReplanKeepsOthers(rs, next, id, m, rs[k].event.seqNo, j);
    }
  }

  lemma PlannedApart(w: World, n: nat, dependencies: seq<int>, resources: seq<string>)
    requires Inv(w) && n < |w.s.requests| && w.s.requests[n].status.Ready?
    ensures AllApart(w.s.requests[n := Planned(w.s.requests[n], dependencies, resources)])
  {
    var rs := w.s.requests;
    var next := rs[n := Planned(rs[n], dependencies, resources)];
    assert rs[n] in rs;
    assert RecordOk(w, rs[n]);
    forall i, j | 0 <= i < j < |next| ensures Apart(next[i], next[j]) {
      assert Apart(rs[i], rs[j]);
    }
  }

  lemma PlannedRecords(w: World, n: nat, dependencies: seq<int>, resources: seq<string>)
    requires Inv(w) && n < |w.s.requests|
    ensures var w2 := w.(s := Put(w.s, n, Planned(w.s.requests[n], dependencies, resources), 1));
            forall r :: r in w2.s.requests ==> RecordOk(w2, r)
  {
    var r := Planned(w.s.requests[n], dependencies, resources);
    assert w.s.requests[n] in w.s.requests;
    assert RecordOk(w, w.s.requests[n]);
    OthersOk(w, w.(s := Put(w.s, n, r, 1)), n, r);
  }

  lemma PlannedAlmost(w: World, n: nat, dependencies: seq<int>, resources: seq<string>)
    requires Inv(w) && n < |w.s.requests| && w.s.requests[n].status.Ready?
    requires Sound(w.s.requests[n := Planned(w.s.requests[n], dependencies, resources)], w.s.requests[n].event.seqNo)
    ensures Almost(w.(s := Put(w.s, n, Planned(w.s.requests[n], dependencies, resources), 1)))
  {
    var r := Planned(w.s.requests[n], dependencies, resources);
    var w2 := w.(s := Put(w.s, n, r, 1));
    PlannedRecords(w, n, dependencies, resources);
    PlannedStructure(w, n, dependencies, resources);
    PlannedPosts(w, n, r);
  }

  lemma PlannedStructure(w: World, n: nat, dependencies: seq<int>, resources: seq<string>)
    requires Inv(w) && n < |w.s.requests| && w.s.requests[n].status.Ready?
    requires Sound(w.s.requests[n := Planned(w.s.requests[n], dependencies, resources)], w.s.requests[n].event.seqNo)
    ensures var next := w.s.requests[n := Planned(w.s.requests[n], dependencies, resources)];
            AllApart(next) && ArrivalOrder(next) && AllSound(next) && Workers(next) <= w.peak
  {
    var r := Planned(w.s.requests[n], dependencies, resources);
    var next := w.s.requests[n := r];
    InvIsValid(w);
    PlannedSound(w.s.requests, n, next);
    PlannedApart(w, n, dependencies, resources);
    StartedArrival(w.s.requests, next);
    WorkersUpdate(w.s.requests, n, r);
  }

  lemma PlannedPosts(w: World, n: nat, r: Request)
    requires PostsOk(w) && n < |w.s.requests| && r.event == w.s.requests[n].event
    requires r.reply == w.s.requests[n].reply && r.status == w.s.requests[n].status
    ensures PostsOk(w.(s := Put(w.s, n, r, 1)))
  {
    PostsFollow(w, w.(s := Put(w.s, n, r, 1)));
  }

  lemma PlanGood(w: World, id: int, dependencies: seq<int>, resources: seq<string>)
    requires Inv(w)
    ensures Good(w, Plan(w.s, id, dependencies, resources))
  {
    var n := Position(w.s.requests, id);
    PlanShape(w.s, id, dependencies, resources);
    if n < |w.s.requests| && w.s.requests[n].status.Ready?
       && Sound(w.s.requests[n := Planned(w.s.requests[n], dependencies, resources)], id) {
      PlannedAlmost(w, n, dependencies, resources);
      AlmostSaves(w, Put(w.s, n, Planned(w.s.requests[n], dependencies, resources), 1));
    }
  }

  // ----- Policy -----

  lemma PolicyShape(s: State, p: Policy) returns (q: Policy)
    ensures var v := SetPolicy(s, p);
            || (v.Refused? && v.why != InvalidState)
            || (0 <= q.maxWorkers <= MOST_WORKERS && v == Save(s.(policy := Some(q), revision := s.revision + 1)))
  {
    q := p.(revision := if s.policy.Some? then s.policy.value.revision + 1 else 1);
  }

  lemma PolicyAlmost(w: World, q: Policy)
    requires Inv(w) && 0 <= q.maxWorkers <= MOST_WORKERS
    ensures Almost(w.(s := w.s.(policy := Some(q), revision := w.s.revision + 1),
                      peak := Larger(w.peak, Limit(Some(q)))))
  {
    var w2 := w.(s := w.s.(policy := Some(q), revision := w.s.revision + 1), peak := Larger(w.peak, Limit(Some(q))));
    forall r | r in w2.s.requests ensures RecordOk(w2, r) {
      assert RecordOk(w, r);
    }
    PostsFollow(w, w2);
  }

  lemma PolicyGood(w: World, h: World, p: Policy)
    requires Inv(w) && h == w.(peak := h.peak)
    requires h.peak == (var v := SetPolicy(w.s, p); if v.Saved? then Larger(w.peak, Limit(v.next.policy)) else w.peak)
    ensures Good(h, SetPolicy(w.s, p))
  {
    var q := PolicyShape(w.s, p);
    var v := SetPolicy(w.s, p);
    if v.Saved? || v == Refused(InvalidState) {
      var s := w.s.(policy := Some(q), revision := w.s.revision + 1);
      var full := w.(peak := Larger(w.peak, Limit(Some(q))));
      PolicyAlmost(w, q);
      assert full.(s := s) == w.(s := s, peak := full.peak);
      AlmostSaves(full, s);
      assert v.Saved? ==> h == full;
    }
  }

  // ----- Receipt -----

  lemma ClassifiedKeeps(r: Request, sem: Semantic)
    ensures var c := Classified(r, sem);
            && c == r.(event := r.event.(semantic := c.event.semantic))
            && (Notice(c.event) <==> Notice(r.event)) && Urgency(c.event) == Urgency(r.event)
  {
  }

  // The records after receipt, before sorting: known ones (perhaps classified), then the new one.
  ghost predicate Arrived(rs: seq<Request>, next: seq<Request>, x: Request) {
    && |next| == |rs| + 1 && next[|rs|] == x
    && x.claim.None? && x.approval.None? && x.reply.None? && x.dependencies == [] && !x.status.Running?
    && forall n :: 0 <= n < |rs| ==>
         && next[n] == rs[n].(event := rs[n].event.(semantic := next[n].event.semantic))
         && (Notice(next[n].event) <==> Notice(rs[n].event)) && Urgency(next[n].event) == Urgency(rs[n].event)
  }

  lemma ArrivedGraph(rs: seq<Request>, next: seq<Request>, x: Request)
    requires Arrived(rs, next, x) && !Known(rs, x.event.seqNo)
    ensures forall y :: Known(rs, y) ==> Known(next, y)
    ensures forall y, z :: Known(rs, y) && Edge(next, y, z) ==> Edge(rs, y, z)
  {
    forall y | Known(rs, y) ensures Known(next, y) {
      var r :| r in rs && r.event.seqNo == y;
      var k :| 0 <= k < |rs| && rs[k] == r;
      assert next[k] in next;
    }
    forall y, z | Known(rs, y) && Edge(next, y, z) ensures Edge(rs, y, z) {
      var r :| r in next && r.event.seqNo == y && z in r.dependencies;
      var k :| 0 <= k < |next| && next[k] == r;
      assert k < |rs|;
      assert rs[k] in rs;
    }
  }

  lemma ArrivedSound(rs: seq<Request>, next: seq<Request>, x: Request)
    requires AllSound(rs) && Arrived(rs, next, x) && !Known(rs, x.event.seqNo)
    ensures AllSound(next)
  {
    ArrivedGraph(rs, next, x);
    forall r | r in next ensures Sound(next, r.event.seqNo) {
      var k :| 0 <= k < |next| && next[k] == r;
      if k < |rs| {
        assert rs[k] in rs;
        assert Sound(rs, rs[k].event.seqNo);
        var j: nat :| Grounded(rs, rs[k].event.seqNo, j);
        SoundTransfers(rs, next, rs[k].event.seqNo, j);
      } else {
        assert next[k] in next;
        NoEdges(rs, next, x);
        assert Grounded(next, x.event.seqNo, 1);
      }
    }
  }

  lemma NoEdges(rs: seq<Request>, next: seq<Request>, x: Request)
    requires Arrived(rs, next, x) && !Known(rs, x.event.seqNo)
    ensures forall d :: !Edge(next, x.event.seqNo, d)
  {
    forall k | 0 <= k < |rs| ensures next[k].event.seqNo != x.event.seqNo {
      assert rs[k] in rs;
    }
  }

  lemma {:induction false} ArrivedWorkers(rs: seq<Request>, next: seq<Request>)
    requires |next| == |rs|
    requires forall n :: 0 <= n < |rs| ==> (Working(next[n]) <==> Working(rs[n]))
    ensures Workers(next) == Workers(rs)
  {
    if rs != [] {
      ArrivedWorkers(rs[..|rs| - 1], next[..|rs| - 1]);
    }
  }

  lemma ArrivedPosts(w: World, w2: World, x: Request)
    requires PostsOk(w) && Arrived(w.s.requests, w2.s.requests, x) && w2.posts == w.posts && w2.flight == w.flight
    ensures PostsOk(w2)
  {
    var rs, next := w.s.requests, w2.s.requests;
    var known := next[..|rs|];
    var mid := w.(s := w.s.(requests := known));
    PostsFollow(w, mid);
    SamePosts(mid, w2);
  }

  lemma ArrivedApart(w: World, next: seq<Request>, x: Request)
    requires Inv(w) && Arrived(w.s.requests, next, x) && x.event.seqNo > w.s.after
    ensures AllApart(next) && ArrivalOrder(next) && !Known(w.s.requests, x.event.seqNo)
  {
    var rs := w.s.requests;
    forall r | r in rs ensures r.event.seqNo < x.event.seqNo {
      assert RecordOk(w, r);
    }
    forall i, j | 0 <= i < j < |next|
      ensures Apart(next[i], next[j])
      ensures Urgency(next[i].event) == Urgency(next[j].event) >= 2 ==> next[i].event.seqNo < next[j].event.seqNo
    {
      assert rs[i] in rs;
      if j < |rs| {
        StillApart(rs[i], rs[j], next[i], next[j]);
      } else {
        NewIsApart(next[i], x);
      }
    }
  }

  lemma StillApart(a: Request, b: Request, a2: Request, b2: Request)
    requires Apart(a, b)
    requires a2 == a.(event := a.event.(semantic := a2.event.semantic)) && b2 == b.(event := b.event.(semantic := b2.event.semantic))
    requires (Notice(a2.event) <==> Notice(a.event)) && (Notice(b2.event) <==> Notice(b.event))
    ensures Apart(a2, b2)
  {
  }

  lemma NewIsApart(a: Request, x: Request)
    requires a.event.seqNo < x.event.seqNo && x.claim.None? && x.approval.None?
    ensures Apart(a, x)
  {
  }

  lemma ClassifiedOk(w: World, w2: World, r: Request, r2: Request)
    requires RecordOk(w, r) && w2 == w.(s := w2.s) && w2.s.after >= w.s.after
    requires r2 == r.(event := r.event.(semantic := r2.event.semantic))
    ensures RecordOk(w2, r2)
  {
  }

  lemma OldOk(w: World, w2: World, rs: seq<Request>, k: nat, r2: Request)
    requires k < |rs| && (forall r :: r in rs ==> RecordOk(w, r)) && w2 == w.(s := w2.s) && w2.s.after >= w.s.after
    requires r2 == rs[k].(event := rs[k].event.(semantic := r2.event.semantic))
    ensures RecordOk(w2, r2)
  {
    assert rs[k] in rs;
    ClassifiedOk(w, w2, rs[k], r2);
  }

  lemma NewOk(w2: World, x: Request)
    requires ValidRecord(x) && x.claim.None? && x.approval.None? && x.reply.None?
    requires !x.status.ReplyPending? && !Awaiting(x.status) && !x.status.NeedsRecovery? && !x.status.Running?
    requires 0 < x.event.seqNo <= w2.s.after && x.event.mentioned == IsMention(w2.agent, x.event)
    ensures RecordOk(w2, x)
  {
  }

  lemma ArrivedRecords(w: World, w2: World, x: Request)
    requires (forall r :: r in w.s.requests ==> RecordOk(w, r)) && Arrived(w.s.requests, w2.s.requests, x)
    requires w2 == w.(s := w2.s) && w2.s.after == x.event.seqNo > w.s.after >= 0
    requires ValidRecord(x) && !x.status.ReplyPending? && !Awaiting(x.status) && !x.status.NeedsRecovery?
    requires x.event.mentioned == IsMention(w.agent, x.event)
    ensures forall r :: r in w2.s.requests ==> RecordOk(w2, r)
  {
    var rs, next := w.s.requests, w2.s.requests;
    NewOk(w2, x);
    forall r | r in next && r != x ensures RecordOk(w2, r) {
      var k :| 0 <= k < |next| && next[k] == r;
      OldOk(w, w2, rs, k, r);
    }
  }

  lemma ArrivedAlmost(w: World, w2: World, x: Request)
    requires Inv(w) && Arrived(w.s.requests, w2.s.requests, x)
    requires w2 == w.(s := w2.s) && w2.s.after == x.event.seqNo > w.s.after && w2.s.policy == w.s.policy
    requires ValidRecord(x) && !x.status.ReplyPending? && !Awaiting(x.status) && !x.status.NeedsRecovery?
    requires x.event.mentioned == IsMention(w.agent, x.event)
    ensures Almost(w2)
  {
    ArrivedRecords(w, w2, x);
    ArrivedApart(w, w2.s.requests, x);
    ArrivedSound(w.s.requests, w2.s.requests, x);
    ArrivedWorkers(w.s.requests, w2.s.requests[..|w.s.requests|]);
    ArrivedPosts(w, w2, x);
  }

  // A later cursor alone.
  lemma CursorAlmost(w: World, after: int)
    requires Inv(w) && after >= w.s.after
    ensures Almost(w.(s := w.s.(after := after)))
  {
    var w2 := w.(s := w.s.(after := after));
    forall r | r in w2.s.requests ensures RecordOk(w2, r) {
      assert RecordOk(w, r);
    }
    PostsFollow(w, w2);
  }

  function AfterArrival(cfg: Config, s: State, raw: Event, valid: bool): State {
    var e := Received(cfg, raw);
    var moved := s.(after := e.seqNo);
    if !Taken(cfg, s, raw, valid) then moved
    else if IsClassification(e) then
      moved.(requests := ClassifyAll(s.requests, e.semantic.value) + [NewRequest(e, Completed, CLASSIFICATION_NOTE)])
    else moved.(requests := s.requests + [NewRequest(e, Ready, "")])
  }

  lemma IngestShape(cfg: Config, s: State, raw: Event, valid: bool)
    ensures var v := Ingest(cfg, s, raw, valid);
            v == if raw.seqNo <= s.after then Unchanged else Save(AfterArrival(cfg, s, raw, valid))
  {
  }

  lemma ArrivalIs(cfg: Config, s: State, raw: Event, valid: bool) returns (x: Request)
    requires Taken(cfg, s, raw, valid)
    ensures Arrived(s.requests, AfterArrival(cfg, s, raw, valid).requests, x)
    ensures x.event == Received(cfg, raw) && ValidRecord(x) && (x.status.Ready? || x.status.Completed?)
  {
    var e := Received(cfg, raw);
    if IsClassification(e) {
      x := NewRequest(e, Completed, CLASSIFICATION_NOTE);
      forall n | 0 <= n < |s.requests|
        ensures var c := Classified(s.requests[n], e.semantic.value);
                && c == s.requests[n].(event := s.requests[n].event.(semantic := c.event.semantic))
                && (Notice(c.event) <==> Notice(s.requests[n].event))
                && Urgency(c.event) == Urgency(s.requests[n].event)
      {
        ClassifiedKeeps(s.requests[n], e.semantic.value);
      }
    } else {
      x := NewRequest(e, Ready, "");
      forall n | 0 <= n < |s.requests|
        ensures s.requests[n] == s.requests[n].(event := s.requests[n].event.(semantic := s.requests[n].event.semantic))
      {
      }
    }
  }

  lemma IngestGood(w: World, cfg: Config, raw: Event, valid: bool)
    requires Inv(w) && cfg.agent == w.agent
    ensures Good(w, Ingest(cfg, w.s, raw, valid))
  {
    IngestShape(cfg, w.s, raw, valid);
    if raw.seqNo > w.s.after {
      var s := AfterArrival(cfg, w.s, raw, valid);
      if Taken(cfg, w.s, raw, valid) {
        var x := ArrivalIs(cfg, w.s, raw, valid);
        ArrivedAlmost(w, w.(s := s), x);
      } else {
        CursorAlmost(w, raw.seqNo);
      }
      AlmostSaves(w, s);
    }
  }
}

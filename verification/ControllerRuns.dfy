// Runs of the commitment controller: operations in any order, failed writes, restarts, and
// reply posts that overlap with everything else. The invariant below holds throughout.
module ControllerRuns {
  import opened Text
  import opened Commitments
  import opened Scheduling
  import opened Dependencies
  import opened Operations

  // Operations as they reach the controller through its tools. A reply always carries a
  // claim there (cmd/tincan/inbox_mcp.go:138-143); other completions need not.
  datatype Op =
    | OpIngest(cfg: Config, event: Event, valid: bool)
    | OpClaim(cfg: Config, id: int, worker: string, token: string)
    | OpRelease(id: int, token: string)
    | OpAck(id: int, tokens: seq<string>)
    | OpReply(id: int, text: string, token: string)
    | OpUpdates(id: int, token: string, updates: seq<(int, string)>)
    | OpSuspend(id: int, token: string, report: Report, decisionId: string)
    | OpDecide(id: int, decisionId: string, action: Action, source: string, context: string, stopped: bool)
    | OpPolicy(policy: Policy)
    | OpPlan(id: int, dependencies: seq<int>, resources: seq<string>)
    | OpRevalidate(cfg: Config)
    | OpRestart
    | OpPost(id: int)
    | OpPosted
    | OpPostFailed

  datatype Post = Post(id: int, text: string)

  // `flight` is the post whose answer is awaited: the outbox lock admits one at a time.
  // `posts`, `tokens`, `decisions` and `peak` record what has happened so far: every post
  // sent, every claim token and decision ID handed out, and the largest worker limit.
  datatype World = World(
    agent: string, s: State, flight: Option<Post>,
    posts: seq<Post>, tokens: set<string>, decisions: set<string>, peak: int)

  ghost predicate Enabled(w: World, op: Op) {
    match op
    case OpIngest(cfg, _, _) => cfg.agent == w.agent
    case OpClaim(cfg, _, _, token) => cfg.agent == w.agent && token != "" && token !in w.tokens
    case OpReply(_, _, token) => token != ""
    case OpSuspend(_, token, report, decisionId) =>
      ReportFault(token, report).None? && !report.status.Completed? && decisionId != "" && decisionId !in w.decisions
    case OpRevalidate(cfg) => cfg.agent == w.agent
    case OpPost(id) => w.flight.None? && Outgoing(w.s, id).Some?
    case OpPosted | OpPostFailed => w.flight.Some?
    case _ => true
  }

  ghost function VerdictOf(w: World, op: Op): Verdict
    requires Enabled(w, op)
  {
    match op
    case OpIngest(cfg, e, valid) => Ingest(cfg, w.s, e, valid)
    case OpClaim(cfg, id, worker, token) => ClaimWork(cfg, w.s, id, worker, token)
    case OpRelease(id, token) => Release(w.s, id, token)
    case OpAck(id, tokens) => Ack(w.s, id, tokens)
    case OpReply(id, text, token) => Reply(w.s, id, text, [token])
    case OpUpdates(id, token, updates) => ContextUpdates(w.s, id, token, updates)
    case OpSuspend(id, token, report, decisionId) => Suspend(w.s, id, token, report, decisionId)
    case OpDecide(id, decisionId, action, source, context, stopped) =>
      Decide(w.s, id, decisionId, action, source, context, stopped)
    case OpPolicy(p) => SetPolicy(w.s, p)
    case OpPlan(id, dependencies, resources) => Plan(w.s, id, dependencies, resources)
    case OpRevalidate(cfg) => Revalidate(cfg, w.s)
    case OpRestart => Saved(Restart(w.agent, w.s))
    case OpPost(_) => Unchanged
    case OpPosted => Finish(w.s, w.flight.value.id)
    case OpPostFailed => DeliveryFailed(w.s, w.flight.value.id)
  }

  function Larger(a: int, b: int): int { if a > b then a else b }

  ghost function Next(w: World, op: Op, disk: bool): World
    requires Enabled(w, op)
  {
    var s := After(w.s, VerdictOf(w, op), disk);
    var sent := if op.OpPost? then Some(Post(op.id, Outgoing(w.s, op.id).value)) else None;
    World(
      w.agent, s,
      if op.OpPost? then sent else if op.OpPosted? || op.OpPostFailed? || op.OpRestart? then None else w.flight,
      if sent.Some? then w.posts + [sent.value] else w.posts,
      if op.OpClaim? then w.tokens + {op.token} else w.tokens,
      if op.OpSuspend? then w.decisions + {op.decisionId} else w.decisions,
      Larger(w.peak, Limit(s.policy)))
  }

  // ----- The invariant -----

  ghost predicate RecordOk(w: World, r: Request) {
    && ValidRecord(r)
    && 0 < r.event.seqNo <= w.s.after
    && r.event.mentioned == IsMention(w.agent, r.event)
    && (r.claim.Some? ==>
          r.claim.value.token in w.tokens && (r.status.Running? || r.status.NeedsRecovery? || r.status.ReplyPending?))
    && (r.status.NeedsRecovery? ==> r.claim.Some?)
    && (r.reply.Some? <==> r.status.ReplyPending?)
    && (Awaiting(r.status) ==> r.approval.value.source == "")
    && (r.approval.Some? ==> r.approval.value.id in w.decisions && r.approval.value.id != "")
  }

  // What may never hold of two records at once.
  ghost predicate Apart(a: Request, b: Request) {
    && a.event.seqNo != b.event.seqNo
    && (a.approval.Some? && b.approval.Some? ==> a.approval.value.id != b.approval.value.id)
    && (a.claim.Some? && b.claim.Some? ==>
          && a.claim.value.token != b.claim.value.token
          && (!Notice(a.event) && !Notice(b.event) ==> Exclusive(a, b)))
  }

  ghost predicate Exclusive(a: Request, b: Request) {
    && (forall k :: k in a.resources ==> k !in b.resources)
    && (a.event.collaboration.Some? && b.event.collaboration.Some? ==>
          a.event.collaboration.value.requestId != b.event.collaboration.value.requestId)
  }

  ghost predicate AllApart(rs: seq<Request>) {
    forall i, j :: 0 <= i < j < |rs| ==> Apart(rs[i], rs[j])
  }

  // Join requests and direct mentions are urgent; within each kind they keep arrival order.
  function Urgency(e: Event): int {
    if e.kind == "join_requested" then 3 else if e.mentioned then 2 else 0
  }

  ghost predicate ArrivalOrder(rs: seq<Request>) {
    forall i, j :: 0 <= i < j < |rs| && Urgency(rs[i].event) == Urgency(rs[j].event) >= 2 ==>
      rs[i].event.seqNo < rs[j].event.seqNo
  }

  function Workers(rs: seq<Request>): nat {
    if rs == [] then 0
    else Workers(rs[..|rs| - 1]) + if Working(rs[|rs| - 1]) then 1 else 0
  }

  predicate Working(r: Request) {
    r.status.Running? && !Notice(r.event)
  }

  ghost predicate PolicyOk(w: World) {
    && (w.s.policy.Some? ==> 0 <= w.s.policy.value.maxWorkers <= MOST_WORKERS)
    && Limit(w.s.policy) <= w.peak <= MOST_WORKERS
  }

  // A record whose reply is this text, still waiting to be delivered.
  ghost predicate Holds(rs: seq<Request>, p: Post) {
    exists r :: r in rs && r.event.seqNo == p.id && r.reply == Some(p.text)
  }

  ghost predicate Closed(rs: seq<Request>, id: int) {
    exists r :: r in rs && r.event.seqNo == id && Terminal(r.status)
  }

  ghost predicate PostsOk(w: World) {
    && (w.flight.Some? ==> Holds(w.s.requests, w.flight.value))
    && (forall p :: p in w.posts ==> Holds(w.s.requests, p) || Closed(w.s.requests, p.id))
    && (forall p, q :: p in w.posts && q in w.posts && p.id == q.id ==> p.text == q.text)
  }

  ghost predicate RecordsOk(w: World) {
    && (forall r :: r in w.s.requests ==> RecordOk(w, r))
    && AllApart(w.s.requests)
    && Ordered(w.s.requests) && ArrivalOrder(w.s.requests)
    && AllSound(w.s.requests)
  }

  ghost predicate Inv(w: World) {
    && w.s.after >= 0
    && RecordsOk(w)
    && PolicyOk(w)
    && Workers(w.s.requests) <= w.peak
    && PostsOk(w)
  }

  // An inbox that has just been created.
  function Fresh(agent: string): World {
    World(agent, State(0, 0, [], None), None, [], {}, {}, DEFAULT_WORKERS)
  }

  lemma FreshInv(agent: string)
    ensures Inv(Fresh(agent))
  {
  }

  lemma {:induction false} InvIsValid(w: World)
    requires Inv(w)
    ensures Valid(w.s) && UniqueIds(w.s.requests)
  {
    var rs := w.s.requests;
    forall n | 0 <= n < |rs| ensures 0 < rs[n].event.seqNo <= w.s.after && ValidRecord(rs[n]) {
      assert rs[n] in rs;
    }
    forall i, j | 0 <= i < j < |rs| ensures rs[i].event.seqNo != rs[j].event.seqNo {
      assert Apart(rs[i], rs[j]);
    }
  }

  // ----- Sorting keeps everything the invariant says about the records -----

  lemma ApartSymmetric(a: Request, b: Request)
    requires Apart(a, b)
    ensures Apart(b, a)
  {
  }

  lemma {:induction false} InsertWorkers(rs: seq<Request>, x: Request)
    ensures Workers(Insert(rs, x)) == Workers(rs) + if Working(x) then 1 else 0
  {
    if rs == [] {
      WorkersSnoc([], x);
    } else {
      var n := |rs| - 1;
      if Priority(rs[n]) >= Priority(x) {
        WorkersSnoc(rs, x);
      } else {
        InsertWorkers(rs[..n], x);
        WorkersSnoc(Insert(rs[..n], x), rs[n]);
      }
    }
  }

  lemma WorkersSnoc(front: seq<Request>, r: Request)
    ensures Workers(front + [r]) == Workers(front) + if Working(r) then 1 else 0
  {
    assert (front + [r])[..|front|] == front;
  }

  lemma ApartSnoc(rs: seq<Request>, x: Request)
    requires AllApart(rs) && forall r :: r in rs ==> Apart(r, x)
    ensures AllApart(rs + [x])
  {
    forall i | 0 <= i < |rs| ensures Apart(rs[i], x) {
      assert rs[i] in rs;
    }
  }

  lemma {:induction false} InsertApart(rs: seq<Request>, x: Request)
    requires AllApart(rs) && forall r :: r in rs ==> Apart(r, x)
    ensures AllApart(Insert(rs, x))
  {
    if rs == [] || Priority(rs[|rs| - 1]) >= Priority(x) {
      ApartSnoc(rs, x);
    } else {
      var n := |rs| - 1;
      assert rs[n] in rs;
      InsertApart(rs[..n], x);
      InsertBasics(rs[..n], x);
      var front := Insert(rs[..n], x);
      forall r | r in front ensures Apart(r, rs[n]) {
        if r == x {
          ApartSymmetric(rs[n], x);
        } else {
          var k :| 0 <= k < n && rs[k] == r;
        }
      }
      ApartSnoc(front, rs[n]);
    }
  }

  // x arrived after every record of its own urgency.
  ghost predicate Latest(rs: seq<Request>, x: Request) {
    forall r :: r in rs && Urgency(r.event) == Urgency(x.event) >= 2 ==> r.event.seqNo < x.event.seqNo
  }

  lemma ArrivalSnoc(rs: seq<Request>, x: Request)
    requires ArrivalOrder(rs) && Latest(rs, x)
    ensures ArrivalOrder(rs + [x])
  {
    forall i | 0 <= i < |rs| && Urgency(rs[i].event) == Urgency(x.event) >= 2
      ensures rs[i].event.seqNo < x.event.seqNo
    {
      assert rs[i] in rs;
    }
  }

  lemma {:induction false} InsertArrival(rs: seq<Request>, x: Request)
    requires Ordered(rs) && ArrivalOrder(rs) && Latest(rs, x)
    ensures ArrivalOrder(Insert(rs, x))
  {
    if rs == [] || Priority(rs[|rs| - 1]) >= Priority(x) {
      ArrivalSnoc(rs, x);
    } else {
      var n := |rs| - 1;
      InsertArrival(rs[..n], x);
      FrontEarlier(rs, x, n, Insert(rs[..n], x));
      ArrivalSnoc(Insert(rs[..n], x), rs[n]);
    }
  }

  lemma FrontEarlier(rs: seq<Request>, x: Request, n: nat, front: seq<Request>)
    requires ArrivalOrder(rs) && |rs| == n + 1 && Priority(rs[n]) < Priority(x) && front == Insert(rs[..n], x)
    ensures Latest(front, rs[n])
  {
    InsertBasics(rs[..n], x);
    forall r | r in front && Urgency(r.event) == Urgency(rs[n].event) >= 2
      ensures r.event.seqNo < rs[n].event.seqNo
    {
      if r != x {
        var k :| 0 <= k < n && rs[k] == r;
      }
    }
  }

  lemma LastFits(rs: seq<Request>, front: seq<Request>)
    requires AllApart(rs) && ArrivalOrder(rs) && rs != [] && forall r :: r in front <==> r in rs[..|rs| - 1]
    ensures Latest(front, rs[|rs| - 1]) && forall r :: r in front ==> Apart(r, rs[|rs| - 1])
  {
    var n := |rs| - 1;
    forall r | r in front
      ensures Apart(r, rs[n])
      ensures Urgency(r.event) == Urgency(rs[n].event) >= 2 ==> r.event.seqNo < rs[n].event.seqNo
    {
      var k :| 0 <= k < n && rs[k] == r;
      assert Apart(rs[k], rs[n]);
    }
  }

  lemma {:induction false} SortKeeps(rs: seq<Request>)
    requires AllApart(rs) && ArrivalOrder(rs)
    ensures AllApart(ByPriority(rs)) && ArrivalOrder(ByPriority(rs)) && Ordered(ByPriority(rs))
    ensures Workers(ByPriority(rs)) == Workers(rs)
    ensures forall r :: r in ByPriority(rs) <==> r in rs
  {
    SortMembers(rs);
    SortMeaning(rs);
    if rs != [] {
      var n := |rs| - 1;
      var sorted := ByPriority(rs[..n]);
      SortKeeps(rs[..n]);
      LastFits(rs, sorted);
      InsertApart(sorted, rs[n]);
      InsertArrival(sorted, rs[n]);
      InsertWorkers(sorted, rs[n]);
    }
  }

  lemma SameMembersSound(rs: seq<Request>, next: seq<Request>)
    requires AllSound(rs)
    requires forall r :: r in next <==> r in rs
    ensures AllSound(next)
  {
    forall r | r in next ensures Sound(next, r.event.seqNo) {
      assert Sound(rs, r.event.seqNo);
      var n: nat :| Grounded(rs, r.event.seqNo, n);
      SoundTransfers(rs, next, r.event.seqNo, n);
    }
  }

  // ----- Operations that touch records one by one -----

  ghost predicate SameApproval(r: Request, next: Request) {
    next.approval.Some? ==> r.approval.Some? && next.approval.value.id == r.approval.value.id
  }

  // A change that neither plans, nor starts work, nor re-opens anything.
  ghost predicate Quiet(r: Request, next: Request) {
    && next.event == r.event && next.dependencies == r.dependencies && next.resources == r.resources
    && (next.claim == r.claim || next.claim.None?)
    && (next.status.Running? ==> r.status.Running?)
    && (Terminal(r.status) ==> Terminal(next.status))
  }

  ghost predicate QuietAll(rs: seq<Request>, next: seq<Request>) {
    |next| == |rs| && forall n :: 0 <= n < |rs| ==> Quiet(rs[n], next[n])
  }

  // At most record m carries a new decision ID.
  ghost predicate ApprovalsKept(w: World, next: seq<Request>, m: nat)
    requires |next| == |w.s.requests|
  {
    forall n :: 0 <= n < |next| ==>
      || SameApproval(w.s.requests[n], next[n])
      || (n == m && next[n].approval.Some? && next[n].approval.value.id !in w.decisions)
  }

  // The history grew; the rest of the world is as described by s.
  ghost predicate Extends(w: World, w2: World) {
    && w2.agent == w.agent && w2.s.after == w.s.after
    && w.tokens <= w2.tokens && w.decisions <= w2.decisions
  }

  lemma QuietApart(w: World, next: seq<Request>, m: nat, i: nat, j: nat)
    requires RecordsOk(w) && QuietAll(w.s.requests, next) && ApprovalsKept(w, next, m)
    requires i < j < |next|
    ensures Apart(next[i], next[j])
  {
    var rs := w.s.requests;
    assert rs[i] in rs && rs[j] in rs;
    assert Apart(rs[i], rs[j]);
    assert Quiet(rs[i], next[i]) && Quiet(rs[j], next[j]);
    assert RecordOk(w, rs[i]) && RecordOk(w, rs[j]);
  }

  lemma {:induction false} QuietWorkers(rs: seq<Request>, next: seq<Request>)
    requires QuietAll(rs, next)
    ensures Workers(next) <= Workers(rs)
  {
    if rs != [] {
      var n := |rs| - 1;
      assert Quiet(rs[n], next[n]);
      QuietWorkers(rs[..n], next[..n]);
    }
  }

  // The same records with the same dependencies, in the same places.
  ghost predicate SamePlan(rs: seq<Request>, next: seq<Request>) {
    && |next| == |rs|
    && forall n :: 0 <= n < |rs| ==>
         next[n].event.seqNo == rs[n].event.seqNo && next[n].dependencies == rs[n].dependencies
  }

  lemma SamePlanSound(rs: seq<Request>, next: seq<Request>)
    requires AllSound(rs) && SamePlan(rs, next)
    ensures AllSound(next)
  {
    forall x | Known(rs, x) ensures Known(next, x) {
      var r :| r in rs && r.event.seqNo == x;
      var n :| 0 <= n < |rs| && rs[n] == r;
      assert next[n] in next;
    }
    forall x, y | Edge(next, x, y) ensures Edge(rs, x, y) {
      var r :| r in next && r.event.seqNo == x && y in r.dependencies;
      var n :| 0 <= n < |next| && next[n] == r;
      assert rs[n] in rs;
    }
    forall r | r in next ensures Sound(next, r.event.seqNo) {
      var n :| 0 <= n < |next| && next[n] == r;
      assert rs[n] in rs;
      assert Sound(rs, rs[n].event.seqNo);
      var k: nat :| Grounded(rs, rs[n].event.seqNo, k);
      SoundTransfers(rs, next, rs[n].event.seqNo, k);
    }
  }

  lemma QuietOrder(rs: seq<Request>, next: seq<Request>)
    requires Ordered(rs) && ArrivalOrder(rs) && QuietAll(rs, next)
    ensures Ordered(next) && ArrivalOrder(next)
  {
    forall i, j | 0 <= i < j < |next|
      ensures Priority(next[i]) >= Priority(next[j])
      ensures Urgency(next[i].event) == Urgency(next[j].event) >= 2 ==> next[i].event.seqNo < next[j].event.seqNo
    {
      assert Quiet(rs[i], next[i]) && Quiet(rs[j], next[j]);
      assert Priority(rs[i]) >= Priority(rs[j]);
    }
  }

  lemma QuietKeepsRecords(w: World, w2: World, m: nat)
    requires RecordsOk(w) && Extends(w, w2)
    requires QuietAll(w.s.requests, w2.s.requests) && ApprovalsKept(w, w2.s.requests, m)
    requires forall r :: r in w2.s.requests ==> RecordOk(w2, r)
    ensures RecordsOk(w2)
    ensures ByPriority(w2.s.requests) == w2.s.requests
    ensures Workers(w2.s.requests) <= Workers(w.s.requests)
  {
    var rs, next := w.s.requests, w2.s.requests;
    assert AllApart(next) by {
      forall i, j | 0 <= i < j < |next| ensures Apart(next[i], next[j]) {
        QuietApart(w, next, m, i, j);
      }
    }
    QuietOrder(rs, next);
    assert SamePlan(rs, next) by {
      forall n | 0 <= n < |rs| ensures Quiet(rs[n], next[n]) {
      }
    }
    SamePlanSound(rs, next);
    QuietWorkers(rs, next);
    SortedIsFixed(next);
  }

  // No reply in waiting is lost or altered, and nothing closed is re-opened.
  ghost predicate RepliesKept(rs: seq<Request>, next: seq<Request>) {
    && |next| == |rs|
    && forall n :: 0 <= n < |rs| ==>
         && next[n].event.seqNo == rs[n].event.seqNo
         && (rs[n].reply.Some? ==> next[n].reply == rs[n].reply)
         && (Terminal(rs[n].status) ==> Terminal(next[n].status))
  }

  lemma PostsFollow(w: World, w2: World)
    requires PostsOk(w) && RepliesKept(w.s.requests, w2.s.requests)
    requires w2.posts == w.posts && (w2.flight == w.flight || w2.flight.None?)
    ensures PostsOk(w2)
  {
    var rs, next := w.s.requests, w2.s.requests;
    forall p | Holds(rs, p) ensures Holds(next, p) {
      var r :| r in rs && r.event.seqNo == p.id && r.reply == Some(p.text);
      var n :| 0 <= n < |rs| && rs[n] == r;
      assert next[n] in next;
    }
    forall id | Closed(rs, id) ensures Closed(next, id) {
      var r :| r in rs && r.event.seqNo == id && Terminal(r.status);
      var n :| 0 <= n < |rs| && rs[n] == r;
      assert next[n] in next;
    }
  }

  // The worlds a save may lead to: s is stored, the histories may have grown.
  ghost predicate Follows(w: World, s: State, w2: World) {
    && w2.s == s && Extends(w, w2)
    && w2.posts == w.posts && (w2.flight == w.flight || w2.flight.None?)
    && w2.s.policy == w.s.policy && w2.peak == w.peak
  }

  lemma QuietSave(w: World, s: State, w2: World, m: nat)
    requires Inv(w) && Follows(w, s, w2)
    requires QuietAll(w.s.requests, s.requests) && ApprovalsKept(w, s.requests, m)
    requires RepliesKept(w.s.requests, s.requests)
    requires forall r :: r in s.requests ==> RecordOk(w2, r)
    ensures Save(s) == Saved(s)
    ensures Inv(w2)
  {
    QuietKeepsRecords(w, w2, m);
    PostsFollow(w, w2);
    InvIsValid(w2);
  }

  lemma OthersOk(w: World, w2: World, n: nat, r: Request)
    requires RecordsOk(w) && Extends(w, w2) && RecordOk(w2, r) && n < |w.s.requests|
    ensures forall x :: x in w.s.requests[n := r] ==> RecordOk(w2, x)
  {
    var rs := w.s.requests;
    forall x | x in rs[n := r] ensures RecordOk(w2, x) {
      var k :| 0 <= k < |rs| && rs[n := r][k] == x;
      if k != n {
        assert x == rs[k] && rs[k] in rs;
        assert RecordOk(w, x);
      }
    }
  }

  lemma UpdateIsQuiet(w: World, n: nat, r: Request)
    requires n < |w.s.requests| && Quiet(w.s.requests[n], r)
    requires SameApproval(w.s.requests[n], r) || (r.approval.Some? && r.approval.value.id !in w.decisions)
    requires w.s.requests[n].reply.Some? ==> r.reply == w.s.requests[n].reply
    ensures QuietAll(w.s.requests, w.s.requests[n := r]) && ApprovalsKept(w, w.s.requests[n := r], n)
    ensures RepliesKept(w.s.requests, w.s.requests[n := r])
  {
  }

  lemma UpdateSave(w: World, n: nat, r: Request, bump: int, w2: World)
    requires Inv(w) && n < |w.s.requests|
    requires Follows(w, w.s.(requests := w.s.requests[n := r], revision := w.s.revision + bump), w2)
    requires Quiet(w.s.requests[n], r) && RecordOk(w2, r)
    requires SameApproval(w.s.requests[n], r) || (r.approval.Some? && r.approval.value.id !in w.decisions)
    requires w.s.requests[n].reply.Some? ==> r.reply == w.s.requests[n].reply
    ensures Save(w2.s) == Saved(w2.s)
    ensures Inv(w2)
  {
    UpdateIsQuiet(w, n, r);
    OthersOk(w, w2, n, r);
    QuietSave(w, w2.s, w2, n);
  }
}

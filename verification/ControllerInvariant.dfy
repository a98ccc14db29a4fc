// The invariant over whole runs, and what every single step leaves alone.
module ControllerInvariant {
  import opened Text
  import opened Commitments
  import opened Scheduling
  import opened Dependencies
  import opened Operations
  import opened ControllerRuns
  import opened ControllerSteps
  import opened ControllerBatches

  // ----- The outbox -----

  lemma HeldReply(w: World, n: nat)
    requires RecordsOk(w) && n < |w.s.requests| && w.s.requests[n].reply.Some?
    ensures Holds(w.s.requests, Post(w.s.requests[n].event.seqNo, w.s.requests[n].reply.value))
  {
    assert w.s.requests[n] in w.s.requests;
  }

  lemma PostPosts(w: World, n: nat)
    requires Inv(w) && n < |w.s.requests| && w.s.requests[n].reply.Some?
    ensures var p := Post(w.s.requests[n].event.seqNo, w.s.requests[n].reply.value);
            PostsOk(w.(flight := Some(p), posts := w.posts + [p]))
  {
    var r := w.s.requests[n];
    var p := Post(r.event.seqNo, r.reply.value);
    HeldReply(w, n);
    forall q | q in w.posts && q.id == p.id ensures q.text == p.text {
      SameText(w, q, n);
    }
    PostAdded(w, p);
  }

  lemma PostAdded(w: World, p: Post)
    requires PostsOk(w) && Holds(w.s.requests, p) && forall q :: q in w.posts && q.id == p.id ==> q.text == p.text
    ensures PostsOk(w.(flight := Some(p), posts := w.posts + [p]))
  {
  }

  lemma SameRecordsOk(w: World, w2: World)
    requires RecordsOk(w) && Extends(w, w2) && w2.s.requests == w.s.requests
    ensures RecordsOk(w2)
  {
    forall r | r in w2.s.requests ensures RecordOk(w2, r) {
      assert RecordOk(w, r);
    }
  }

  lemma PostKeeps(w: World, id: int)
    requires Inv(w) && w.flight.None? && Outgoing(w.s, id).Some?
    ensures var p := Post(id, Outgoing(w.s, id).value);
            Inv(w.(flight := Some(p), posts := w.posts + [p]))
  {
    var p := Post(id, Outgoing(w.s, id).value);
    PostPosts(w, Position(w.s.requests, id));
    SameRecordsOk(w, w.(flight := Some(p), posts := w.posts + [p]));
  }

  // An earlier post for a record whose reply still waits carried that same reply.
  lemma SameText(w: World, q: Post, n: nat)
    requires Inv(w) && q in w.posts && n < |w.s.requests|
    requires w.s.requests[n].event.seqNo == q.id && w.s.requests[n].reply.Some?
    ensures q.text == w.s.requests[n].reply.value
  {
    InvIsValid(w);
    assert w.s.requests[n] in w.s.requests;
    assert !Terminal(w.s.requests[n].status);
    PostFate(w, q);
    OnlyFate(w.s.requests, q, n);
  }

  lemma PostFate(w: World, q: Post)
    requires PostsOk(w) && q in w.posts
    ensures Holds(w.s.requests, q) || Closed(w.s.requests, q.id)
  {
  }

  lemma OnlyFate(rs: seq<Request>, q: Post, n: nat)
    requires UniqueIds(rs) && n < |rs| && rs[n].event.seqNo == q.id && !Terminal(rs[n].status)
    requires Holds(rs, q) || Closed(rs, q.id)
    ensures rs[n].reply == Some(q.text)
  {
    var r :| r in rs && r.event.seqNo == q.id && (r.reply == Some(q.text) || Terminal(r.status));
    var k :| 0 <= k < |rs| && rs[k] == r;
    assert k == n;
  }

  lemma AcknowledgedOk(h: World, r: Request)
    requires RecordOk(h, r)
    ensures RecordOk(h, Acknowledged(r)) && Quiet(r, Acknowledged(r)) && SameApproval(r, Acknowledged(r))
    ensures Terminal(Acknowledged(r).status)
  {
  }

  // Delivery closes exactly the record whose reply was posted.
  lemma PostedPosts(w: World, w2: World, n: nat)
    requires PostsOk(w) && n < |w.s.requests|
    requires w2.s.requests == w.s.requests[n := Acknowledged(w.s.requests[n])]
    requires w2.posts == w.posts && w2.flight.None?
    requires UniqueIds(w.s.requests)
    ensures PostsOk(w2)
  {
    var rs, next := w.s.requests, w2.s.requests;
    assert next[n] in next && Terminal(next[n].status);
    forall p | Holds(rs, p) ensures Holds(next, p) || Closed(next, p.id) {
      var r :| r in rs && r.event.seqNo == p.id && r.reply == Some(p.text);
      var k :| 0 <= k < |rs| && rs[k] == r;
      assert next[k] in next;
    }
    forall id | Closed(rs, id) ensures Closed(next, id) {
      var r :| r in rs && r.event.seqNo == id && Terminal(r.status);
      var k :| 0 <= k < |rs| && rs[k] == r;
      assert next[k] in next;
    }
  }

  lemma PostedKeeps(w: World, n: nat)
    requires Inv(w) && w.flight.Some? && n < |w.s.requests|
    ensures var s := Put(w.s, n, Acknowledged(w.s.requests[n]), 1);
            Save(s) == Saved(s) && Inv(w.(s := s, flight := None))
  {
    var r := w.s.requests[n];
    var s := Put(w.s, n, Acknowledged(r), 1);
    var w2 := w.(s := s, flight := None);
    assert r in w.s.requests;
    AcknowledgedOk(w, r);
    ChangeRecordOk(w, s, Acknowledged(r));
    assert RecordOk(w2, Acknowledged(r));
    OthersOk(w, w2, n, Acknowledged(r));
    InvIsValid(w);
    PostedPosts(w, w2, n);
    QuietKeepsRecords(w, w2, n);
    InvIsValid(w2);
  }

  lemma FinishShape(s: State, id: int)
    ensures var v := Finish(s, id); var n := Position(s.requests, id);
            || v.Unchanged?
            || (v.Refused? && v.why != InvalidState)
            || (n < |s.requests| && v == Save(Put(s, n, Acknowledged(s.requests[n]), 1)))
  {
  }

  lemma PostedGood(w: World)
    requires Inv(w) && w.flight.Some?
    ensures Good(w.(flight := None), Finish(w.s, w.flight.value.id))
  {
    var n := Position(w.s.requests, w.flight.value.id);
    FinishShape(w.s, w.flight.value.id);
    if n < |w.s.requests| {
      PostedKeeps(w, n);
      var s := Put(w.s, n, Acknowledged(w.s.requests[n]), 1);
      assert w.(s := s, flight := None) == w.(flight := None).(s := s);
    }
  }

  // ----- One step -----

  // The histories after an operation other than a policy change or a post.
  ghost function HistoriesOf(w: World, op: Op): World {
    w.(flight := if op.OpPosted? || op.OpPostFailed? || op.OpRestart? then None else w.flight,
       tokens := if op.OpClaim? then w.tokens + {op.token} else w.tokens,
       decisions := if op.OpSuspend? then w.decisions + {op.decisionId} else w.decisions)
  }

  // Operations that concern one record.
  ghost predicate Single(op: Op) {
    op.OpRelease? || op.OpAck? || op.OpReply? || op.OpSuspend? || op.OpDecide? || op.OpPosted? || op.OpPostFailed?
  }

  lemma SingleGood(w: World, op: Op)
    requires Inv(w) && Enabled(w, op) && Single(op)
    ensures Good(HistoriesOf(w, op), VerdictOf(w, op))
  {
    var h := HistoriesOf(w, op);
    match op
    case OpRelease(id, token) => ReleaseGood(w, id, token);
    case OpAck(id, tokens) => AckGood(w, id, tokens);
    case OpReply(id, text, token) => ReplyGood(w, id, text, token);
    case OpSuspend(id, token, report, decisionId) => SuspendGood(w, h, id, token, report, decisionId);
    case OpDecide(id, decisionId, action, source, context, stopped) =>
      DecideGood(w, id, decisionId, action, source, context, stopped);
    case OpPosted => PostedGood(w);
    case OpPostFailed => FailureGood(w, h, w.flight.value.id);
  }

  lemma StepGood(w: World, op: Op)
    requires Inv(w) && Enabled(w, op) && !op.OpPolicy? && !op.OpPost?
    ensures Good(HistoriesOf(w, op), VerdictOf(w, op))
  {
    if Single(op) {
      SingleGood(w, op);
    } else {
      var h := HistoriesOf(w, op);
      match op
      case OpIngest(cfg, e, valid) => IngestGood(w, cfg, e, valid);
      case OpClaim(cfg, id, worker, token) => ClaimGood(w, h, cfg, id, worker, token);
      case OpUpdates(id, token, updates) => UpdatesGood(w, id, token, updates);
      case OpPlan(id, dependencies, resources) => PlanGood(w, id, dependencies, resources);
      case OpRevalidate(cfg) => RevalidateGood(w, cfg);
      case OpRestart => RestartGood(w, h);
    }
  }

  // A new state follows from a policy change only.
  lemma PolicyUntouched(w: World, op: Op)
    requires Enabled(w, op) && !op.OpPolicy?
    ensures var v := VerdictOf(w, op); v.Saved? ==> v.next.policy == w.s.policy
  {
  }

  lemma PolicyNext(w: World, op: Op, disk: bool, v: Verdict)
    requires op.OpPolicy? && v == VerdictOf(w, op) && Limit(w.s.policy) <= w.peak
    ensures Next(w, op, disk) ==
            if v.Saved? && disk then w.(s := v.next, peak := Larger(w.peak, Limit(v.next.policy))) else w
  {
  }

  lemma PolicyStep(w: World, op: Op, disk: bool)
    requires Inv(w) && op.OpPolicy?
    ensures Inv(Next(w, op, disk)) && VerdictOf(w, op) != Refused(InvalidState)
  {
    var v := SetPolicy(w.s, op.policy);
    PolicyNext(w, op, disk, v);
    var h := w.(peak := if v.Saved? then Larger(w.peak, Limit(v.next.policy)) else w.peak);
    PolicyGood(w, h, op.policy);
    PolicyEnds(w, h, disk, v);
  }

  lemma PolicyEnds(w: World, h: World, disk: bool, v: Verdict)
    requires Inv(w) && Good(h, v)
    ensures Inv(if v.Saved? && disk then h.(s := v.next) else w) && v != Refused(InvalidState)
  {
  }

  lemma OtherNext(w: World, op: Op, disk: bool)
    requires Inv(w) && Enabled(w, op) && !op.OpPolicy? && !op.OpPost?
    ensures Next(w, op, disk) == HistoriesOf(w, op).(s := After(w.s, VerdictOf(w, op), disk))
  {
    PolicyUntouched(w, op);
  }

  lemma OtherStep(w: World, disk: bool, h: World, v: Verdict)
    requires Inv(w) && Inv(h) && h.s == w.s && Good(h, v)
    ensures Inv(h.(s := After(w.s, v, disk))) && v != Refused(InvalidState)
  {
    assert h.(s := w.s) == h;
  }

  // Each operation keeps the invariant, whether or not its write succeeds, and none ever
  // produces a state that may not be stored.
  lemma StepKeeps(w: World, op: Op, disk: bool)
    requires Inv(w) && Enabled(w, op)
    ensures Inv(Next(w, op, disk))
    ensures VerdictOf(w, op) != Refused(InvalidState)
  {
    if op.OpPost? {
      PostKeeps(w, op.id);
    } else if op.OpPolicy? {
      PolicyStep(w, op, disk);
    } else {
      StepGood(w, op);
      IdleKeeps(w, HistoriesOf(w, op));
      OtherNext(w, op, disk);
      OtherStep(w, disk, HistoriesOf(w, op), VerdictOf(w, op));
    }
  }
}

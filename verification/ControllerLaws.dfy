// What one step may do to one record: who may move it past an approval, who may take its
// claim away, and what can happen to its reply.
module ControllerLaws {
  import opened Text
  import opened Commitments
  import opened Scheduling
  import opened Dependencies
  import opened Operations
  import opened ControllerRuns
  import opened ControllerSteps
  import opened ControllerBatches
  import opened ControllerInvariant

  // A user decision on exactly this question.
  predicate Decides(op: Op, id: int, decisionId: string) {
    && op.OpDecide? && op.id == id && op.decisionId == decisionId && !Blank(op.source)
    && (op.action.Approve? || op.action.Decline?)
  }

  ghost predicate GateLaw(op: Op, r: Request, r2: Request) {
    r.status.AwaitingApproval? && r.approval.Some? ==>
      || (r2.status.AwaitingApproval? && r2.approval.Some? && r2.approval.value.id == r.approval.value.id)
      || (Decides(op, r.event.seqNo, r.approval.value.id)
          && r2.status == if op.action.Approve? then Ready else ReplyPending)
  }

  // A claim ends safely: its holder gave it up, or the controller vouched that its worker stopped.
  predicate GivesUp(op: Op, id: int, token: string) {
    || (op.OpRelease? && op.id == id && op.token == token)
    || (op.OpSuspend? && op.id == id && op.token == token && !op.report.status.NeedsRecovery?)
    || (op.OpDecide? && op.id == id && op.action.Resume? && op.stopped && !Blank(op.source))
  }

  ghost predicate OwnerLaw(op: Op, r: Request, r2: Request) {
    && (r.claim.Some? && r2.claim != r.claim ==>
          && r2.claim.None?
          && (GivesUp(op, r.event.seqNo, r.claim.value.token) || Terminal(r2.status)))
    && (r.claim.None? && r2.claim.Some? ==>
          r.status.Ready? && op.OpClaim? && op.id == r.event.seqNo && op.token == r2.claim.value.token)
  }

  ghost predicate ReplyLaw(w: World, op: Op, r: Request, r2: Request) {
    r.reply.Some? ==>
      || (r2.reply == r.reply && r2.status.ReplyPending?)
      || (op.OpPosted? && w.flight.Some? && w.flight.value.id == r.event.seqNo
          && Terminal(r2.status) && r2.reply.None?)
  }

  // An answered question stays answered until the record carries a new question.
  ghost predicate AnswerLaw(w: World, r: Request, r2: Request) {
    r2.approval.Some? ==>
      || (r.approval.Some? && r2.approval.value.id == r.approval.value.id
          && (r.approval.value.source != "" ==> r2.approval.value.source == r.approval.value.source))
      || r2.approval.value.id !in w.decisions
  }

  // Attempts count the claims given out, and the continuation context only grows.
  ghost predicate WorkLaw(r: Request, r2: Request) {
    && r2.attempt == r.attempt + (if r.claim.None? && r2.claim.Some? then 1 else 0)
    && r.context <= r2.context
  }

  ghost predicate Lawful(w: World, op: Op, r: Request, r2: Request) {
    && r2.event.seqNo == r.event.seqNo && WorkLaw(r, r2)
    && GateLaw(op, r, r2) && OwnerLaw(op, r, r2) && ReplyLaw(w, op, r, r2) && AnswerLaw(w, r, r2)
    && (Terminal(r.status) ==> Terminal(r2.status))
  }

  // ----- Operations on one record -----

  // The saved verdict replaces record n by next, lawfully.
  ghost predicate Replaces(w: World, op: Op, v: Verdict, n: nat, next: Request) {
    && n < |w.s.requests| && Lawful(w, op, w.s.requests[n], next)
    && exists bump :: v == SaveRecord(w.s, n, next, bump)
  }

  lemma ReleaseReplaces(w: World, op: Op) returns (n: nat, next: Request)
    requires Enabled(w, op) && op.OpRelease? && Sane(w, op.id) && VerdictOf(w, op).Saved?
    ensures Replaces(w, op, VerdictOf(w, op), n, next)
  {
    n := Position(w.s.requests, op.id);
    next := w.s.requests[n].(claim := None, status := Ready);
    assert VerdictOf(w, op) == SaveRecord(w.s, n, next, 1);
  }

  lemma AckReplaces(w: World, op: Op) returns (n: nat, next: Request)
    requires Enabled(w, op) && op.OpAck? && Sane(w, op.id) && VerdictOf(w, op).Saved?
    ensures Replaces(w, op, VerdictOf(w, op), n, next)
  {
    n := Position(w.s.requests, op.id);
    next := Acknowledged(w.s.requests[n]);
    assert VerdictOf(w, op) == SaveRecord(w.s, n, next, 1);
  }

  lemma ReplyReplaces(w: World, op: Op) returns (n: nat, next: Request)
    requires Enabled(w, op) && op.OpReply? && Sane(w, op.id) && VerdictOf(w, op).Saved?
    ensures Replaces(w, op, VerdictOf(w, op), n, next)
  {
    n := Position(w.s.requests, op.id);
    next := w.s.requests[n].(reply := Some(op.text), status := ReplyPending);
    assert VerdictOf(w, op) == SaveRecord(w.s, n, next, 0);
  }

  lemma SuspendReplaces(w: World, op: Op) returns (n: nat, next: Request)
    requires Enabled(w, op) && op.OpSuspend? && Sane(w, op.id) && VerdictOf(w, op).Saved?
    ensures Replaces(w, op, VerdictOf(w, op), n, next)
  {
    n := Position(w.s.requests, op.id);
    next := Stopped(w.s.requests[n], op.token, op.report, op.decisionId);
    assert VerdictOf(w, op) == SaveRecord(w.s, n, next, 1);
  }

  lemma RuledLawful(w: World, op: Op, r: Request)
    requires op.OpDecide? && op.id == r.event.seqNo && RecordOk(w, r) && !Blank(op.source)
    ensures var out := Rule(r, op.decisionId, op.action, op.source, op.context, op.stopped);
            out.Ruled? ==> Lawful(w, op, r, out.next)
  {
    match op.action
    case Presented =>
    case Approve =>
    case Decline =>
    case Answer =>
    case Annotate =>
    case Resume =>
    case Cancel =>
    case OtherAction(_) =>
  }

  lemma DecideReplaces(w: World, op: Op) returns (n: nat, next: Request)
    requires Enabled(w, op) && op.OpDecide? && Sane(w, op.id) && VerdictOf(w, op).Saved?
    ensures Replaces(w, op, VerdictOf(w, op), n, next)
  {
    n := Position(w.s.requests, op.id);
    RuledLawful(w, op, w.s.requests[n]);
    next := Rule(w.s.requests[n], op.decisionId, op.action, op.source, op.context, op.stopped).next;
    assert VerdictOf(w, op) == SaveRecord(w.s, n, next, 1);
  }

  lemma PostedReplaces(w: World, op: Op) returns (n: nat, next: Request)
    requires Enabled(w, op) && op.OpPosted? && Sane(w, w.flight.value.id) && VerdictOf(w, op).Saved?
    requires var n := Position(w.s.requests, w.flight.value.id); n < |w.s.requests| ==> w.s.requests[n].reply.Some?
    ensures Replaces(w, op, VerdictOf(w, op), n, next)
  {
    n := Position(w.s.requests, w.flight.value.id);
    next := Acknowledged(w.s.requests[n]);
    assert VerdictOf(w, op) == SaveRecord(w.s, n, next, 1);
  }

  lemma FailedReplaces(w: World, op: Op) returns (n: nat, next: Request)
    requires Enabled(w, op) && op.OpPostFailed? && Sane(w, w.flight.value.id) && VerdictOf(w, op).Saved?
    ensures Replaces(w, op, VerdictOf(w, op), n, next)
  {
    n := Position(w.s.requests, w.flight.value.id);
    next := w.s.requests[n].(deliveryError := true);
    assert VerdictOf(w, op) == SaveRecord(w.s, n, next, 0);
  }

  lemma ClaimReplaces(w: World, op: Op) returns (n: nat, next: Request)
    requires Enabled(w, op) && op.OpClaim? && Sane(w, op.id) && VerdictOf(w, op).Saved?
    ensures Replaces(w, op, VerdictOf(w, op), n, next)
  {
    n := Position(w.s.requests, op.id);
    next := Started(w.s.requests[n], op.worker, op.token);
    ClaimShape(op.cfg, w.s, op.id, op.worker, op.token);
    StartedLawful(w, op, w.s.requests[n]);
    assert VerdictOf(w, op) == SaveRecord(w.s, n, next, 0);
  }

  lemma StartedLawful(w: World, op: Op, r: Request)
    requires op.OpClaim? && op.id == r.event.seqNo && RecordOk(w, r) && r.claim.None? && r.status.Ready?
    ensures Lawful(w, op, r, Started(r, op.worker, op.token))
  {
  }

  lemma PlanReplaces(w: World, op: Op) returns (n: nat, next: Request)
    requires Enabled(w, op) && op.OpPlan? && Sane(w, op.id) && VerdictOf(w, op).Saved?
    ensures Replaces(w, op, VerdictOf(w, op), n, next)
  {
    n := Position(w.s.requests, op.id);
    next := Planned(w.s.requests[n], op.dependencies, op.resources);
    assert VerdictOf(w, op) == SaveRecord(w.s, n, next, 1);
  }

  // ----- Every record has a lawful successor, and nothing else appears but new arrivals -----

  ghost predicate Untouched(r: Request) {
    r.claim.None? && r.approval.None? && r.reply.None?
  }

  ghost predicate HasSuccessor(w: World, op: Op, r: Request, next: seq<Request>) {
    exists r2 :: r2 in next && Lawful(w, op, r, r2)
  }

  ghost predicate Evolves(w: World, op: Op, next: seq<Request>) {
    && (forall r :: r in w.s.requests ==> HasSuccessor(w, op, r, next))
    && (forall r2 :: r2 in next ==> Known(w.s.requests, r2.event.seqNo) || Untouched(r2))
  }

  lemma SameIsLawful(w: World, op: Op, r: Request)
    requires RecordOk(w, r)
    ensures Lawful(w, op, r, r)
  {
  }

  lemma SaveMembers(s: State, v: Verdict)
    requires v == Save(s) && v.Saved?
    ensures forall r :: r in v.next.requests <==> r in s.requests
  {
    SortMembers(s.requests);
  }

  // Record k of the old state became record k of the saved one, before sorting.
  lemma PointwiseEvolves(w: World, op: Op, next: seq<Request>, stored: seq<Request>)
    requires |next| >= |w.s.requests|
    requires forall k :: 0 <= k < |w.s.requests| ==> Lawful(w, op, w.s.requests[k], next[k])
    requires forall k :: |w.s.requests| <= k < |next| ==> Untouched(next[k])
    requires forall r :: r in stored <==> r in next
    ensures Evolves(w, op, stored)
  {
    var rs := w.s.requests;
    forall r | r in rs ensures HasSuccessor(w, op, r, stored) {
      var k :| 0 <= k < |rs| && rs[k] == r;
      assert next[k] in next;
    }
    forall r2 | r2 in stored ensures Known(rs, r2.event.seqNo) || Untouched(r2) {
      var k :| 0 <= k < |next| && next[k] == r2;
      if k < |rs| {
        assert Lawful(w, op, rs[k], next[k]);
        assert rs[k] in rs;
      }
    }
  }

  lemma NothingEvolves(w: World, op: Op)
    requires Inv(w)
    ensures Evolves(w, op, w.s.requests)
  {
    forall k | 0 <= k < |w.s.requests| ensures Lawful(w, op, w.s.requests[k], w.s.requests[k]) {
      assert w.s.requests[k] in w.s.requests;
      SameIsLawful(w, op, w.s.requests[k]);
    }
    PointwiseEvolves(w, op, w.s.requests, w.s.requests);
  }

  lemma ReplaceEvolves(w: World, op: Op, v: Verdict, n: nat, next: Request)
    requires Inv(w) && v.Saved? && Replaces(w, op, v, n, next)
    ensures Evolves(w, op, v.next.requests)
  {
    var rs := w.s.requests;
    var bump :| v == SaveRecord(w.s, n, next, bump);
    assert v == Save(Put(w.s, n, next, bump));
    SaveMembers(Put(w.s, n, next, bump), v);
    forall k | 0 <= k < |rs| ensures Lawful(w, op, rs[k], rs[n := next][k]) {
      assert rs[k] in rs;
      if k != n { SameIsLawful(w, op, rs[k]); }
    }
    PointwiseEvolves(w, op, rs[n := next], v.next.requests);
  }

  lemma FlightHasReply(w: World)
    requires Inv(w) && w.flight.Some?
    ensures var n := Position(w.s.requests, w.flight.value.id);
            n < |w.s.requests| && w.s.requests[n].reply == Some(w.flight.value.text)
  {
    var rs := w.s.requests;
    var r :| r in rs && r.event.seqNo == w.flight.value.id && r.reply == Some(w.flight.value.text);
    var k :| 0 <= k < |rs| && rs[k] == r;
    InvIsValid(w);
    var n := Position(rs, w.flight.value.id);
    assert n <= k;
    assert n == k;
  }

  lemma SingleEvolves(w: World, op: Op)
    requires Inv(w) && Enabled(w, op) && VerdictOf(w, op).Saved?
    requires op.OpRelease? || op.OpAck? || op.OpReply? || op.OpSuspend? || op.OpDecide?
             || op.OpPosted? || op.OpPostFailed? || op.OpClaim? || op.OpPlan?
    ensures Evolves(w, op, VerdictOf(w, op).next.requests)
  {
    var n: nat, next;
    if op.OpPosted? {
      SaneRecord(w, w.flight.value.id);
      FlightHasReply(w);
      n, next := PostedReplaces(w, op);
    } else if op.OpPostFailed? {
      SaneRecord(w, w.flight.value.id);
      n, next := FailedReplaces(w, op);
    } else {
      SaneRecord(w, op.id);
      if op.OpRelease? { n, next := ReleaseReplaces(w, op); }
      else if op.OpAck? { n, next := AckReplaces(w, op); }
      else if op.OpReply? { n, next := ReplyReplaces(w, op); }
      else if op.OpSuspend? { n, next := SuspendReplaces(w, op); }
      else if op.OpDecide? { n, next := DecideReplaces(w, op); }
      else if op.OpClaim? { n, next := ClaimReplaces(w, op); }
      else { n, next := PlanReplaces(w, op); }
    }
    ReplaceEvolves(w, op, VerdictOf(w, op), n, next);
  }

  lemma QuietIsLawful(w: World, op: Op, r: Request, r2: Request)
    requires RecordOk(w, r)
    requires r2 == r.(event := r.event.(semantic := r2.event.semantic), status := r2.status,
                      context := r2.context, appliedUpdates := r2.appliedUpdates)
    requires r.context <= r2.context
    requires r2.status == r.status || (r.status.Running? && r2.status.NeedsRecovery?) || (r.status.Ready? && r2.status.Cancelled?)
    ensures Lawful(w, op, r, r2)
  {
  }

  lemma UpdatesEvolves(w: World, op: Op)
    requires Inv(w) && Enabled(w, op) && op.OpUpdates? && VerdictOf(w, op).Saved?
    ensures Evolves(w, op, VerdictOf(w, op).next.requests)
  {
    var rs := w.s.requests;
    var n := Position(rs, op.id);
    var v := ContextUpdates(w.s, op.id, op.token, op.updates);
    UpdatesShape(w.s, op.id, op.token, op.updates);
    ClarifyOnlyContext(rs, n, op.updates);
    var next := Clarify(rs, n, op.updates).value;
    SaveMembers(w.s.(requests := next), v);
    forall k | 0 <= k < |rs| ensures Lawful(w, op, rs[k], next[k]) {
      assert rs[k] in rs;
      assert OnlyContext(rs[k], next[k]);
      QuietIsLawful(w, op, rs[k], next[k]);
    }
    PointwiseEvolves(w, op, next, v.next.requests);
  }

  lemma RevalidatedLawful(w: World, op: Op, k: nat)
    requires Inv(w) && op.OpRevalidate? && k < |w.s.requests|
    ensures Lawful(w, op, w.s.requests[k], Revalidated(op.cfg, w.s.requests, w.s.requests[k]))
  {
    assert w.s.requests[k] in w.s.requests;
    QuietIsLawful(w, op, w.s.requests[k], Revalidated(op.cfg, w.s.requests, w.s.requests[k]));
  }

  lemma RevalidateEvolves(w: World, op: Op)
    requires Inv(w) && Enabled(w, op) && op.OpRevalidate? && VerdictOf(w, op).Saved?
    ensures Evolves(w, op, VerdictOf(w, op).next.requests)
  {
    var rs := w.s.requests;
    var next := RevalidateAll(op.cfg, rs);
    var v := Revalidate(op.cfg, w.s);
    SaveMembers(w.s.(requests := next), v);
    forall k | 0 <= k < |rs| ensures Lawful(w, op, rs[k], next[k]) {
      RevalidatedLawful(w, op, k);
    }
    PointwiseEvolves(w, op, next, v.next.requests);
  }

  lemma RestartEvolves(w: World, op: Op)
    requires Inv(w) && Enabled(w, op) && op.OpRestart?
    ensures Evolves(w, op, Restart(w.agent, w.s).requests)
  {
    var rs := w.s.requests;
    var next := RecoverAll(w.agent, rs);
    RestartGood(w, w.(flight := None));
    forall k | 0 <= k < |rs| ensures Lawful(w, op, rs[k], next[k]) {
      assert rs[k] in rs;
      assert RecordOk(w, rs[k]);
      assert rs[k].event.(mentioned := IsMention(w.agent, rs[k].event)) == rs[k].event;
      QuietIsLawful(w, op, rs[k], Recovered(w.agent, rs[k]));
    }
    PointwiseEvolves(w, op, next, next);
  }

  lemma IngestEvolves(w: World, op: Op)
    requires Inv(w) && Enabled(w, op) && op.OpIngest? && VerdictOf(w, op).Saved?
    ensures Evolves(w, op, VerdictOf(w, op).next.requests)
  {
    var rs := w.s.requests;
    var s := AfterArrival(op.cfg, w.s, op.event, op.valid);
    var v := Ingest(op.cfg, w.s, op.event, op.valid);
    IngestShape(op.cfg, w.s, op.event, op.valid);
    SaveMembers(s, v);
    if Taken(op.cfg, w.s, op.event, op.valid) {
      var x := ArrivalIs(op.cfg, w.s, op.event, op.valid);
      forall k | 0 <= k < |rs| ensures Lawful(w, op, rs[k], s.requests[k]) {
        assert rs[k] in rs;
        QuietIsLawful(w, op, rs[k], s.requests[k]);
      }
      PointwiseEvolves(w, op, s.requests, v.next.requests);
    } else {
      NothingEvolves(w, op);
      PointwiseSame(w, op, v.next.requests);
    }
  }

  lemma PointwiseSame(w: World, op: Op, stored: seq<Request>)
    requires Inv(w) && forall r :: r in stored <==> r in w.s.requests
    ensures Evolves(w, op, stored)
  {
    forall k | 0 <= k < |w.s.requests| ensures Lawful(w, op, w.s.requests[k], w.s.requests[k]) {
      assert w.s.requests[k] in w.s.requests;
      SameIsLawful(w, op, w.s.requests[k]);
    }
    PointwiseEvolves(w, op, w.s.requests, stored);
  }

  lemma PolicyEvolves(w: World, op: Op)
    requires Inv(w) && Enabled(w, op) && op.OpPolicy? && VerdictOf(w, op).Saved?
    ensures Evolves(w, op, VerdictOf(w, op).next.requests)
  {
    var v := SetPolicy(w.s, op.policy);
    assert VerdictOf(w, op) == v;
    var q := PolicyShape(w.s, op.policy);
    SavedSame(w, op, w.s.(policy := Some(q), revision := w.s.revision + 1), v);
  }

  lemma SavedSame(w: World, op: Op, s: State, v: Verdict)
    requires Inv(w) && v == Save(s) && v.Saved? && s.requests == w.s.requests
    ensures Evolves(w, op, v.next.requests)
  {
    SaveMembers(s, v);
    PointwiseSame(w, op, v.next.requests);
  }

  // What one step of any kind does to the records.
  lemma StepEvolves(w: World, op: Op, disk: bool)
    requires Inv(w) && Enabled(w, op)
    ensures Evolves(w, op, Next(w, op, disk).s.requests)
  {
    var v := VerdictOf(w, op);
    if !v.Saved? || !disk {
      NothingEvolves(w, op);
    } else if op.OpUpdates? {
      UpdatesEvolves(w, op);
    } else if op.OpRevalidate? {
      RevalidateEvolves(w, op);
    } else if op.OpRestart? {
      RestartEvolves(w, op);
    } else if op.OpIngest? {
      IngestEvolves(w, op);
    } else if op.OpPolicy? {
      PolicyEvolves(w, op);
    } else {
      SingleEvolves(w, op);
    }
  }
}

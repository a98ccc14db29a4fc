// Every controller operation keeps the invariant, whether or not its write succeeds.
module ControllerSteps {
  import opened Text
  import opened Commitments
  import opened Scheduling
  import opened Dependencies
  import opened Operations
  import opened ControllerRuns

  // The state is untouched; only the history may have grown.
  lemma IdleKeeps(w: World, w2: World)
    requires Inv(w)
    requires Extends(w, w2) && w2.s == w.s && w2.posts == w.posts && w2.peak == w.peak
    requires w2.flight == w.flight || w2.flight.None?
    ensures Inv(w2)
  {
    forall r | r in w2.s.requests ensures RecordOk(w2, r) {
      assert RecordOk(w, r);
    }
  }

  // The verdict may be carried out: it is not refused as invalid, and what it saves is fine.
  // h is the world with the histories as they are after the operation.
  ghost predicate Good(h: World, v: Verdict) {
    || v.Unchanged?
    || (v.Refused? && v.why != InvalidState)
    || (v.Saved? && Inv(h.(s := v.next)))
  }

  // ----- One record at a time -----

  // The record named by `id`, if there is one, is in order.
  ghost predicate Sane(w: World, id: int) {
    var n := Position(w.s.requests, id);
    n < |w.s.requests| ==> RecordOk(w, w.s.requests[n])
  }

  lemma SaneRecord(w: World, id: int)
    requires Inv(w)
    ensures Sane(w, id)
  {
    var n := Position(w.s.requests, id);
    if n < |w.s.requests| {
      assert w.s.requests[n] in w.s.requests;
    }
  }

  // What an operation may turn one record into. `used` are the decision IDs handed out before.
  ghost predicate Change(h: World, used: set<string>, r: Request, next: Request) {
    && Quiet(r, next) && RecordOk(h, next)
    && (SameApproval(r, next) || (next.approval.Some? && next.approval.value.id !in used))
    && (r.reply.Some? ==> next.reply == r.reply)
  }

  ghost predicate Grown(w: World, h: World) {
    && Extends(w, h) && h.s == w.s && h.posts == w.posts && h.peak == w.peak
    && (h.flight == w.flight || h.flight.None?)
  }

  function Put(s: State, n: nat, r: Request, bump: int): State
    requires n < |s.requests|
  {
    s.(requests := s.requests[n := r], revision := s.revision + bump)
  }

  lemma PutFollows(w: World, h: World, n: nat, r: Request, bump: int)
    requires Grown(w, h) && n < |w.s.requests|
    ensures Follows(w, Put(w.s, n, r, bump), h.(s := Put(w.s, n, r, bump)))
    ensures SaveRecord(w.s, n, r, bump) == Save(Put(w.s, n, r, bump))
  {
  }

  lemma ChangeRecordOk(h: World, s: State, r: Request)
    requires RecordOk(h, r) && s.after == h.s.after
    ensures RecordOk(h.(s := s), r)
  {
  }

  lemma ChangeIsGood(w: World, h: World, n: nat, r: Request, bump: int)
    requires Inv(w) && Grown(w, h) && n < |w.s.requests| && Change(h, w.decisions, w.s.requests[n], r)
    ensures Good(h, SaveRecord(w.s, n, r, bump))
  {
    PutFollows(w, h, n, r, bump);
    ChangeRecordOk(h, Put(w.s, n, r, bump), r);
    UpdateSave(w, n, r, bump, h.(s := Put(w.s, n, r, bump)));
  }

  // A verdict that replaces the record named by `id` with `next`, or replaces nothing.
  ghost predicate OneRecord(w: World, h: World, v: Verdict, id: int, next: Request, bump: int) {
    var n := Position(w.s.requests, id);
    || v.Unchanged?
    || (v.Refused? && v.why != InvalidState)
    || (n < |w.s.requests| && v == SaveRecord(w.s, n, next, bump) && Change(h, w.decisions, w.s.requests[n], next))
  }

  lemma OneRecordGood(w: World, h: World, v: Verdict, id: int, next: Request, bump: int)
    requires Inv(w) && Grown(w, h) && OneRecord(w, h, v, id, next, bump)
    ensures Good(h, v)
  {
    var n := Position(w.s.requests, id);
    if n < |w.s.requests| && Change(h, w.decisions, w.s.requests[n], next) {
      ChangeIsGood(w, h, n, next, bump);
    }
  }

  lemma ReleaseChange(h: World, r: Request)
    requires RecordOk(h, r)
    ensures r.claim.Some? && r.reply.None? ==> Change(h, h.decisions, r, r.(claim := None, status := Ready))
  {
  }

  lemma AckChange(h: World, r: Request)
    requires RecordOk(h, r)
    ensures r.reply.None? ==> Change(h, h.decisions, r, Acknowledged(r))
  {
  }

  lemma ReplyChange(h: World, r: Request, text: string, token: string)
    requires RecordOk(h, r) && token != ""
    ensures r.reply.None? && ClaimGuard(r, [token]).None? ==>
              Change(h, h.decisions, r, r.(reply := Some(text), status := ReplyPending))
  {
  }

  lemma SuspendChange(w: World, h: World, r: Request, token: string, o: Report, decisionId: string)
    requires RecordOk(w, r) && Grown(w, h) && decisionId in h.decisions
    requires ReportFault(token, o).None? && !o.status.Completed? && decisionId != "" && decisionId !in w.decisions
    ensures r.reply.None? && r.claim.Some? && r.claim.value.token == token ==>
              Change(h, w.decisions, r, Stopped(r, token, o, decisionId))
  {
    assert o.question == "" ==> Blank(o.question);
  }

  lemma FailureChange(w: World, h: World, r: Request)
    requires RecordOk(w, r) && Grown(w, h)
    ensures r.reply.Some? ==> Change(h, w.decisions, r, r.(deliveryError := true))
  {
  }

  lemma ReleaseShape(w: World, id: int, token: string) returns (next: Request)
    requires Sane(w, id)
    ensures OneRecord(w, w, Release(w.s, id, token), id, next, 1)
  {
    var n := Position(w.s.requests, id);
    if n < |w.s.requests| {
      ReleaseChange(w, w.s.requests[n]);
      next := w.s.requests[n].(claim := None, status := Ready);
    } else {
      next := *;
    }
  }

  lemma AckShape(w: World, id: int, tokens: seq<string>) returns (next: Request)
    requires Sane(w, id)
    ensures OneRecord(w, w, Ack(w.s, id, tokens), id, next, 1)
  {
    var n := Position(w.s.requests, id);
    if n < |w.s.requests| {
      AckChange(w, w.s.requests[n]);
      next := Acknowledged(w.s.requests[n]);
    } else {
      next := *;
    }
  }

  lemma ReplyShape(w: World, id: int, text: string, token: string) returns (next: Request)
    requires Sane(w, id) && token != ""
    ensures OneRecord(w, w, Reply(w.s, id, text, [token]), id, next, 0)
  {
    var n := Position(w.s.requests, id);
    if n < |w.s.requests| {
      ReplyChange(w, w.s.requests[n], text, token);
      next := w.s.requests[n].(reply := Some(text), status := ReplyPending);
    } else {
      next := *;
    }
  }

  lemma SuspendShape(w: World, h: World, id: int, token: string, o: Report, decisionId: string) returns (next: Request)
    requires Sane(w, id) && Grown(w, h) && decisionId in h.decisions
    requires ReportFault(token, o).None? && !o.status.Completed? && decisionId != "" && decisionId !in w.decisions
    ensures OneRecord(w, h, Suspend(w.s, id, token, o, decisionId), id, next, 1)
  {
    var n := Position(w.s.requests, id);
    if n < |w.s.requests| {
      SuspendChange(w, h, w.s.requests[n], token, o, decisionId);
      next := Stopped(w.s.requests[n], token, o, decisionId);
    } else {
      next := *;
    }
  }

  lemma RuleChange(h: World, r: Request, decisionId: string, action: Action, source: string, context: string, stopped: bool)
    requires RecordOk(h, r) && source != ""
    ensures var out := Rule(r, decisionId, action, source, context, stopped);
            && (out.Ruled? ==> Change(h, h.decisions, r, out.next))
            && (out.Rejected? ==> out.why != InvalidState)
  {
    match action
    case Presented =>
    case Approve =>
    case Decline =>
    case Answer =>
    case Annotate =>
    case Resume =>
    case Cancel =>
    case OtherAction(_) =>
  }

  lemma DecideShape(w: World, id: int, decisionId: string, action: Action, source: string, context: string, stopped: bool)
    returns (next: Request)
    requires Sane(w, id)
    ensures OneRecord(w, w, Decide(w.s, id, decisionId, action, source, context, stopped), id, next, 1)
  {
    var n := Position(w.s.requests, id);
    next := *;
    if n < |w.s.requests| && !Blank(source) {
      var r := w.s.requests[n];
      RuleChange(w, r, decisionId, action, source, context, stopped);
      var out := Rule(r, decisionId, action, source, context, stopped);
      next := if out.Ruled? then out.next else r;
    }
  }

  lemma FailureShape(w: World, h: World, id: int) returns (next: Request)
    requires Sane(w, id) && Grown(w, h)
    ensures OneRecord(w, h, DeliveryFailed(w.s, id), id, next, 0)
  {
    var n := Position(w.s.requests, id);
    if n < |w.s.requests| {
      FailureChange(w, h, w.s.requests[n]);
      next := w.s.requests[n].(deliveryError := true);
    } else {
      next := *;
    }
  }

  lemma ReleaseGood(w: World, id: int, token: string)
    requires Inv(w)
    ensures Good(w, Release(w.s, id, token))
  {
    SaneRecord(w, id);
    var next := ReleaseShape(w, id, token);
    OneRecordGood(w, w, Release(w.s, id, token), id, next, 1);
  }

  lemma AckGood(w: World, id: int, tokens: seq<string>)
    requires Inv(w)
    ensures Good(w, Ack(w.s, id, tokens))
  {
    SaneRecord(w, id);
    var next := AckShape(w, id, tokens);
    OneRecordGood(w, w, Ack(w.s, id, tokens), id, next, 1);
  }

  lemma ReplyGood(w: World, id: int, text: string, token: string)
    requires Inv(w) && token != ""
    ensures Good(w, Reply(w.s, id, text, [token]))
  {
    SaneRecord(w, id);
    var next := ReplyShape(w, id, text, token);
    OneRecordGood(w, w, Reply(w.s, id, text, [token]), id, next, 0);
  }

  lemma SuspendGood(w: World, h: World, id: int, token: string, o: Report, decisionId: string)
    requires Inv(w) && Grown(w, h) && decisionId in h.decisions
    requires ReportFault(token, o).None? && !o.status.Completed? && decisionId != "" && decisionId !in w.decisions
    ensures Good(h, Suspend(w.s, id, token, o, decisionId))
  {
    SaneRecord(w, id);
    var next := SuspendShape(w, h, id, token, o, decisionId);
    OneRecordGood(w, h, Suspend(w.s, id, token, o, decisionId), id, next, 1);
  }

  lemma DecideGood(w: World, id: int, decisionId: string, action: Action, source: string, context: string, stopped: bool)
    requires Inv(w)
    ensures Good(w, Decide(w.s, id, decisionId, action, source, context, stopped))
  {
    SaneRecord(w, id);
    var next := DecideShape(w, id, decisionId, action, source, context, stopped);
    OneRecordGood(w, w, Decide(w.s, id, decisionId, action, source, context, stopped), id, next, 1);
  }

  lemma FailureGood(w: World, h: World, id: int)
    requires Inv(w) && Grown(w, h)
    ensures Good(h, DeliveryFailed(w.s, id))
  {
    SaneRecord(w, id);
    var next := FailureShape(w, h, id);
    OneRecordGood(w, h, DeliveryFailed(w.s, id), id, next, 0);
  }
}

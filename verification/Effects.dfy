// What a saved operation leaves in the stored records: exactly when it is stored, what its
// record looks like afterwards, and that everything else is as before
// (cmd/tincan/inbox.go, inbox_claim.go, inbox_requests.go).
module Effects {
  import opened Text
  import opened Commitments
  import opened Scheduling
  import opened Dependencies
  import opened Operations
  import Storage

  // Record r has become r2, and apart from the order nothing else has changed.
  ghost predicate Becomes(s: State, next: State, r: Request, r2: Request) {
    && r in s.requests && r2 in next.requests && r2.event == r.event
    && (forall x: Request :: x.event.seqNo != r.event.seqNo ==> (x in next.requests <==> x in s.requests))
    && (forall x :: x in next.requests && x.event.seqNo == r.event.seqNo ==> x == r2)
    && |next.requests| == |s.requests| && next.after == s.after && next.policy == s.policy
  }

  lemma RecordAt(s: State, r: Request)
    requires Valid(s) && r in s.requests
    ensures var n := Position(s.requests, r.event.seqNo); n < |s.requests| && s.requests[n] == r
  {
    var k :| 0 <= k < |s.requests| && s.requests[k] == r;
    assert Position(s.requests, r.event.seqNo) == k;
  }

  lemma ReplacedValid(s: State, n: nat, r2: Request, bump: int)
    requires Valid(s) && n < |s.requests| && r2.event.seqNo == s.requests[n].event.seqNo && ValidRecord(r2)
    ensures Valid(s.(requests := s.requests[n := r2], revision := s.revision + bump))
  {
  }

  lemma ReplacedBecomes(s: State, n: nat, r2: Request, bump: int)
    requires Valid(s) && n < |s.requests| && r2.event == s.requests[n].event && SaveRecord(s, n, r2, bump).Saved?
    ensures Becomes(s, SaveRecord(s, n, r2, bump).next, s.requests[n], r2)
  {
    var put := s.requests[n := r2];
    SortMembers(put);
    PutMembers(s.requests, n, r2);
  }

  lemma PutMembers(rs: seq<Request>, n: nat, r2: Request)
    requires UniqueIds(rs) && n < |rs| && r2.event == rs[n].event
    ensures var put := rs[n := r2];
            && r2 in put
            && (forall x: Request :: x.event.seqNo != r2.event.seqNo ==> (x in put <==> x in rs))
            && (forall x :: x in put && x.event.seqNo == r2.event.seqNo ==> x == r2)
  {
    var put := rs[n := r2];
    assert put[n] == r2;
    forall x: Request | x.event.seqNo != r2.event.seqNo ensures x in put <==> x in rs {
      if x in rs {
        var k :| 0 <= k < |rs| && rs[k] == x;
        assert put[k] == x;
      }
    }
  }

  lemma Stored(t: State)
    requires Save(t).Saved?
    ensures var next := Save(t).next;
            && |next.requests| == |t.requests| && next.(requests := t.requests) == t
            && forall x :: x in next.requests <==> x in t.requests
  {
    SortMembers(t.requests);
  }

  // A valid replacement is always saved.
  lemma Replaced(s: State, r: Request, r2: Request, bump: int)
    requires Valid(s) && r in s.requests && r2.event == r.event && ValidRecord(r2)
    ensures var n := Position(s.requests, r.event.seqNo);
            && n < |s.requests| && s.requests[n] == r
            && SaveRecord(s, n, r2, bump).Saved?
            && Becomes(s, SaveRecord(s, n, r2, bump).next, r, r2)
            && SaveRecord(s, n, r2, bump).next.revision == s.revision + bump
  {
    RecordAt(s, r);
    var n := Position(s.requests, r.event.seqNo);
    ReplacedValid(s, n, r2, bump);
    ReplacedBecomes(s, n, r2, bump);
  }

  // An operation reports success exactly when nothing was left undone.
  lemma ReportedTruly(s: State, v: Verdict, disk: bool)
    ensures Failure(v, disk).None? <==> v.Unchanged? || (v.Saved? && disk)
    ensures After(s, v, disk) == if v.Saved? && Failure(v, disk).None? then v.next else s
  {
  }

  // ----- Decisions -----

  lemma Joined(a: string, heading: string, text: string)
    ensures Appended(a, heading, text) == a + ("\n" + heading + ": " + text)
  {
  }

  // What the user's text adds to the continuation context.
  function Addition(action: Action, source: string, context: string): string {
    match action
    case Approve | Decline | Answer => "\nUser decision: " + context
    case Annotate => "\nContext update (" + source + "): " + context
    case Resume | Cancel => "\nController recovery: " + context
    case _ => ""
  }

  // The record is in a state that this action applies to.
  predicate Decidable(r: Request, decisionId: string, action: Action, stopped: bool) {
    match action
    case Presented => r.approval.Some? && r.approval.value.id == decisionId && r.approval.value.delivery != "answered"
    case Approve | Decline =>
      r.approval.Some? && r.approval.value.id == decisionId && r.approval.value.source == ""
      && r.status in {AwaitingApproval, AwaitingInformation}
    case Answer =>
      r.approval.Some? && r.approval.value.id == decisionId && r.approval.value.source == "" && r.status.AwaitingInformation?
    case Annotate => r.status !in {Completed, Declined, Cancelled}
    case Resume | Cancel =>
      r.reply.None? && (r.claim.None? || stopped) && r.status !in {Completed, Declined, Cancelled, AwaitingApproval}
    case OtherAction(_) => false
  }

  // What each action makes of the record.
  ghost predicate Decided(r: Request, r2: Request, action: Action, source: string, context: string) {
    && r2.context == r.context + Addition(action, source, context)
    && r2 == r.(status := r2.status, claim := r2.claim, approval := r2.approval, reply := r2.reply,
                decision := r2.decision, context := r2.context)
    && match action
       case Presented =>
         && r.approval.Some? && r2.approval == Some(r.approval.value.(delivery := "presented"))
         && r2.status == r.status && r2.claim == r.claim && r2.reply == r.reply && r2.decision == r.decision
       case Approve | Answer | Decline =>
         && r.approval.Some? && r2.approval == Some(r.approval.value.(source := source, delivery := "answered"))
         && r2.claim == r.claim
         && r2.decision == (if action.Approve? then "approve" else if action.Answer? then "answer" else "decline")
         && (if action.Decline? then r2.status.ReplyPending? && r2.reply == Some("I cannot proceed with this request.")
             else r2.status.Ready? && r2.reply == r.reply)
       case Annotate =>
         r2.status == r.status && r2.claim == r.claim && r2.approval == r.approval && r2.reply == r.reply && r2.decision == r.decision
       case Resume | Cancel =>
         && (if action.Resume? then r2.status.Ready? else r2.status.Cancelled?) && r2.claim.None?
         && r2.approval == r.approval && r2.reply == r.reply && r2.decision == source
       case OtherAction(_) => false
  }

  lemma Additions(was: string, source: string, context: string)
    ensures Appended(was, "User decision", context) == was + ("\nUser decision: " + context)
    ensures Appended(was, "Context update (" + source + ")", context) == was + ("\nContext update (" + source + "): " + context)
    ensures Appended(was, "Controller recovery", context) == was + ("\nController recovery: " + context)
    ensures was + "" == was
  {
    assert "\nUser decision: " == "\n" + "User decision" + ": ";
    assert "\nController recovery: " == "\n" + "Controller recovery" + ": ";
    var heading := "Context update (" + source + ")";
    assert "\nContext update (" + source + "): " == "\n" + heading + ": ";
    Joined(was, "User decision", context);
    Joined(was, heading, context);
    Joined(was, "Controller recovery", context);
  }

  lemma RuleMeans(r: Request, decisionId: string, action: Action, source: string, context: string, stopped: bool)
    requires ValidRecord(r) && !Blank(source)
    ensures var out := Rule(r, decisionId, action, source, context, stopped);
            && (out.Ruled? <==> Decidable(r, decisionId, action, stopped))
            && (out.Ruled? ==> Decided(r, out.next, action, source, context) && ValidRecord(out.next))
  {
    Additions(r.context, source, context);
  }

  // A decision is stored exactly when it has a source, applies to the record and stays within
  // the limits; then the record is as decided and all others are as before.
  lemma DecideEffect(s: State, r: Request, decisionId: string, action: Action, source: string, context: string, stopped: bool)
    returns (r2: Request)
    requires Valid(s) && r in s.requests
    ensures var v := Decide(s, r.event.seqNo, decisionId, action, source, context, stopped);
            && (v.Saved? <==>
                  && ByteLen(source) <= 4096 && ByteLen(context) <= 65536 && !Blank(source)
                  && Decidable(r, decisionId, action, stopped)
                  && ByteLen(r.context + Addition(action, source, context)) <= 65536)
            && (v.Saved? ==> Becomes(s, v.next, r, r2) && v.next.revision == s.revision + 1
                             && Decided(r, r2, action, source, context))
  {
    r2 := r;
    RecordAt(s, r);
    if !Blank(source) {
      RuleMeans(r, decisionId, action, source, context, stopped);
      var out := Rule(r, decisionId, action, source, context, stopped);
      if out.Ruled? {
        r2 := out.next;
        RuledDecision(s, r, decisionId, action, source, context, stopped, r2);
      }
    }
  }

  lemma RuledDecision(s: State, r: Request, decisionId: string, action: Action, source: string, context: string, stopped: bool,
                      r2: Request)
    requires Valid(s) && r in s.requests && !Blank(source) && ValidRecord(r2) && r2.event == r.event
    requires Rule(r, decisionId, action, source, context, stopped) == Ruled(r2)
    ensures var v := Decide(s, r.event.seqNo, decisionId, action, source, context, stopped);
            && (v.Saved? <==> ByteLen(source) <= 4096 && ByteLen(context) <= 65536 && ByteLen(r2.context) <= 65536)
            && (v.Saved? ==> Becomes(s, v.next, r, r2) && v.next.revision == s.revision + 1)
  {
    Replaced(s, r, r2, 1);
  }

  // ----- Plans -----

  // A stored plan gives the record exactly these dependencies and resources.
  lemma PlanEffect(s: State, r: Request, dependencies: seq<int>, resources: seq<string>) returns (r2: Request)
    requires Valid(s) && r in s.requests
    ensures var v := Plan(s, r.event.seqNo, dependencies, resources);
            v.Saved? ==>
              && r.status.Ready? && |dependencies| <= 100 && |resources| <= 100
              && (forall key <- resources :: !Blank(key) && ByteLen(key) <= 4096)
              && r2 == r.(dependencies := r2.dependencies, resources := r2.resources)
              && r2.dependencies == dependencies && r2.resources == resources
              && Becomes(s, v.next, r, r2) && v.next.revision == s.revision + 1
  {
    r2 := r.(dependencies := dependencies, resources := resources);
    RecordAt(s, r);
    Replaced(s, r, r2, 1);
  }

  // So planned work that names a key of claimed work cannot be claimed, whoever asks.
  lemma PlannedLocks(cfg: Config, s: State, r: Request, dependencies: seq<int>, resources: seq<string>, a: Request, key: string,
                     worker: string, token: string)
    requires Valid(s) && r in s.requests && Plan(s, r.event.seqNo, dependencies, resources).Saved?
    requires a in s.requests && a.claim.Some? && a.event.seqNo != r.event.seqNo && key in a.resources && key in resources
    requires !Notice(r.event)
    ensures !ClaimWork(cfg, Plan(s, r.event.seqNo, dependencies, resources).next, r.event.seqNo, worker, token).Saved?
  {
    var next := Plan(s, r.event.seqNo, dependencies, resources).next;
    var r2 := PlanEffect(s, r, dependencies, resources);
    SavedValid(s, r, dependencies, resources);
    RecordAt(next, r2);
    LockedOut(cfg, next, Position(next.requests, r.event.seqNo), r2, a, key, worker, token);
  }

  lemma LockedOut(cfg: Config, s: State, n: nat, r: Request, a: Request, key: string, worker: string, token: string)
    requires n == Position(s.requests, r.event.seqNo) && n < |s.requests| && s.requests[n] == r && !Notice(r.event)
    requires a in s.requests && a.claim.Some? && key in a.resources && key in r.resources
    ensures !ClaimWork(cfg, s, r.event.seqNo, worker, token).Saved?
  {
    assert Conflict(a, r);
  }

  lemma SavedValid(s: State, r: Request, dependencies: seq<int>, resources: seq<string>)
    requires Valid(s) && r in s.requests && Plan(s, r.event.seqNo, dependencies, resources).Saved?
    ensures Valid(Plan(s, r.event.seqNo, dependencies, resources).next)
  {
    var n := Position(s.requests, r.event.seqNo);
    Storage.SortedValid(s.(requests := s.requests[n := Planned(s.requests[n], dependencies, resources)], revision := s.revision + 1));
  }

  // ----- Claims -----

  function AtWorkIn(rs: seq<Request>): set<Request> {
    set x | x in rs && x.status.Running?
  }

  lemma AtWorkSnoc(rs: seq<Request>, r: Request)
    ensures AtWorkIn(rs + [r]) == if r.status.Running? then AtWorkIn(rs) + {r} else AtWorkIn(rs)
  {
  }

  lemma LastIsNew(rs: seq<Request>)
    requires UniqueIds(rs) && rs != []
    ensures rs[|rs| - 1] !in rs[..|rs| - 1] && UniqueIds(rs[..|rs| - 1])
  {
  }

  lemma {:induction false} CountIsSize(rs: seq<Request>)
    requires UniqueIds(rs)
    ensures RunningCount(rs) == |AtWorkIn(rs)|
  {
    if rs != [] {
      var n := |rs| - 1;
      LastIsNew(rs);
      CountIsSize(rs[..n]);
      AtWorkSnoc(rs[..n], rs[n]);
      assert rs == rs[..n] + [rs[n]];
    }
  }

  // Work on r may start: it is ready, and unless it is an announcement there is a worker left,
  // what it depends on is completed, and no claimed work stands in its way.
  predicate MayStart(s: State, r: Request) {
    && r.status.Ready?
    && (Notice(r.event) ||
        (&& |AtWorkIn(s.requests)| < (if s.policy.Some? && s.policy.value.maxWorkers > 0 then s.policy.value.maxWorkers else 4)
         && (forall d <- r.dependencies :: exists x :: x in s.requests && x.event.seqNo == d && x.status.Completed?)
         && (forall a <- s.requests :: a.claim.Some? ==>
               && (forall key <- r.resources :: key !in a.resources)
               && (r.event.collaboration.Some? && a.event.collaboration.Some? ==>
                     r.event.collaboration.value.requestId != a.event.collaboration.value.requestId)
               && (r.event.semantic.Some? && a.event.semantic.Some? ==>
                     r.event.semantic.value.suggestionId != a.event.semantic.value.suggestionId))))
  }

  lemma DoneExactly(s: State, d: int)
    requires Valid(s)
    ensures Done(s.requests, d) <==> exists x :: x in s.requests && x.event.seqNo == d && x.status.Completed?
  {
    if x :| x in s.requests && x.event.seqNo == d && x.status.Completed? {
      RecordAt(s, x);
    }
  }

  lemma EligibleMeans(s: State, r: Request)
    requires Valid(s)
    ensures Eligible(s, r) <==> MayStart(s, r)
  {
    CountIsSize(s.requests);
    forall d ensures Done(s.requests, d) <==> exists x :: x in s.requests && x.event.seqNo == d && x.status.Completed? {
      DoneExactly(s, d);
    }
    forall a | a in s.requests
      ensures !Conflict(a, r) <==>
              && (forall key <- r.resources :: key !in a.resources)
              && (r.event.collaboration.Some? && a.event.collaboration.Some? ==>
                    r.event.collaboration.value.requestId != a.event.collaboration.value.requestId)
              && (r.event.semantic.Some? && a.event.semantic.Some? ==>
                    r.event.semantic.value.suggestionId != a.event.semantic.value.suggestionId)
    {
    }
  }

  // A new claim is stored exactly when the worker has a proper name, the event still concerns
  // this inbox, nobody holds the record and its work may start; it counts a further attempt.
  lemma ClaimEffect(cfg: Config, s: State, r: Request, worker: string, token: string) returns (r2: Request)
    requires Valid(s) && r in s.requests && token != ""
    ensures var v := ClaimWork(cfg, s, r.event.seqNo, worker, token);
            && (v.Saved? <==>
                  && !Blank(worker) && ByteLen(worker) <= 200 && (forall c <- worker :: c !in {'\0', '\r', '\n'})
                  && r.reply.None? && r.claim.None? && Accepts(cfg, s.requests, r.event) && MayStart(s, r))
            && (v.Saved? ==> Becomes(s, v.next, r, r2) && v.next.revision == s.revision
                             && r2 == r.(claim := Some(Claim(worker, token)), status := Running, attempt := r.attempt + 1))
  {
    r2 := r.(claim := Some(Claim(worker, token)), status := Running, attempt := r.attempt + 1);
    EligibleMeans(s, r);
    ClaimSaves(cfg, s, r, worker, token, r2);
  }

  lemma ClaimSaves(cfg: Config, s: State, r: Request, worker: string, token: string, r2: Request)
    requires Valid(s) && r in s.requests && token != ""
    requires r2 == r.(claim := Some(Claim(worker, token)), status := Running, attempt := r.attempt + 1)
    ensures var v := ClaimWork(cfg, s, r.event.seqNo, worker, token);
            && (v.Saved? <==> WorkerName(worker) && r.reply.None? && r.claim.None? && Accepts(cfg, s.requests, r.event)
                              && Eligible(s, r))
            && (v.Saved? ==> Becomes(s, v.next, r, r2) && v.next.revision == s.revision)
  {
    RecordAt(s, r);
    ClaimForm(cfg, s, Position(s.requests, r.event.seqNo), r, worker, token, r2);
    if WorkerName(worker) {
      assert worker != "";
      Replaced(s, r, r2, 0);
    }
  }

  lemma ClaimForm(cfg: Config, s: State, n: nat, r: Request, worker: string, token: string, r2: Request)
    requires n == Position(s.requests, r.event.seqNo) && n < |s.requests| && s.requests[n] == r
    requires r2 == r.(claim := Some(Claim(worker, token)), status := Running, attempt := r.attempt + 1)
    ensures var v := ClaimWork(cfg, s, r.event.seqNo, worker, token);
            if WorkerName(worker) && r.reply.None? && r.claim.None? && Accepts(cfg, s.requests, r.event) && Eligible(s, r)
            then v == SaveRecord(s, n, r2, 0) else !v.Saved?
  {
  }

  // Whoever is told a token holds the record with it once the claim is stored, and is working
  // on it; nobody else is told anything.
  lemma ToldHolds(cfg: Config, s: State, r: Request, worker: string, token: string)
    requires Valid(s) && r in s.requests && token != ""
    ensures var told := Acquired(cfg, s, r.event.seqNo, worker, token);
            var next := After(s, ClaimWork(cfg, s, r.event.seqNo, worker, token), true);
            && (told.Some? ==>
                  exists x :: x in next.requests && x.event.seqNo == r.event.seqNo && x.status.Running?
                              && x.claim == Some(Claim(worker, told.value)))
            && (told.Some? && r.claim.Some? ==> r.claim.value == Claim(worker, told.value) && next == s)
            && (told.Some? && r.claim.None? ==> told.value == token && next != s)
  {
    RecordAt(s, r);
    var r2 := ClaimEffect(cfg, s, r, worker, token);
    if Acquired(cfg, s, r.event.seqNo, worker, token).Some? {
      EligibleMeans(s, r);
    }
  }

  // Only the holder gives a record back, and not while a reply waits.
  lemma ReleaseEffect(s: State, r: Request, token: string) returns (r2: Request)
    requires Valid(s) && r in s.requests
    ensures var v := Release(s, r.event.seqNo, token);
            && (v.Saved? <==> r.claim.Some? && r.claim.value.token == token && r.reply.None?)
            && (v.Saved? ==> Becomes(s, v.next, r, r2) && v.next.revision == s.revision + 1
                             && r2 == r.(claim := None, status := Ready))
  {
    r2 := r.(claim := None, status := Ready);
    RecordAt(s, r);
    Replaced(s, r, r2, 1);
  }

  // ----- Completion and replies -----

  // The caller holds the claim, or there is none and none is named.
  predicate Entitled(r: Request, tokens: seq<string>) {
    && (if r.claim.Some? then tokens == [r.claim.value.token] else tokens == [] || tokens[0] == "")
    && r.status !in {AwaitingApproval, AwaitingInformation, NeedsRecovery}
  }

  // The end of a record: no claim and no reply is left, and a declined one ends declined.
  ghost predicate Ended(r: Request, r2: Request) {
    && r2 == r.(status := r2.status, claim := None, reply := None, deliveryError := false, lastClaim := r2.lastClaim)
    && (if r.decision == "decline" then r2.status.Declined? else r2.status.Completed?)
    && r2.lastClaim == (if r.claim.Some? then r.claim.value.token else r.lastClaim)
  }

  lemma FinishEffect(s: State, r: Request) returns (r2: Request)
    requires Valid(s) && r in s.requests
    ensures var v := Finish(s, r.event.seqNo);
            && (v.Saved? <==> r.status !in {Completed, Declined})
            && (v.Saved? ==> Becomes(s, v.next, r, r2) && v.next.revision == s.revision + 1 && Ended(r, r2))
  {
    r2 := Acknowledged(r);
    RecordAt(s, r);
    Replaced(s, r, r2, 1);
  }

  lemma AckEffect(s: State, r: Request, tokens: seq<string>) returns (r2: Request)
    requires Valid(s) && r in s.requests
    ensures var v := Ack(s, r.event.seqNo, tokens);
            && (v.Saved? <==> Entitled(r, tokens) && r.reply.None? && r.status !in {Completed, Declined})
            && (v.Saved? ==> Becomes(s, v.next, r, r2) && v.next.revision == s.revision + 1 && Ended(r, r2))
  {
    RecordAt(s, r);
    r2 := FinishEffect(s, r);
  }

  lemma ReplyEffect(s: State, r: Request, text: string, tokens: seq<string>) returns (r2: Request)
    requires Valid(s) && r in s.requests
    ensures var v := Reply(s, r.event.seqNo, text, tokens);
            && (v.Saved? <==>
                  && Entitled(r, tokens) && r.reply.None? && !r.status.Completed? && !Blank(text) && ByteLen(text) <= 65536
                  && !Notice(r.event)
                  && r.event.kind !in {"semantic_attention", "collaboration_attention", "join_requested"})
            && (v.Saved? ==> Becomes(s, v.next, r, r2) && v.next.revision == s.revision
                             && r2 == r.(reply := Some(text), status := ReplyPending))
  {
    r2 := r.(reply := Some(text), status := ReplyPending);
    RecordAt(s, r);
    Replaced(s, r, r2, 0);
    ReplyForm(s, Position(s.requests, r.event.seqNo), r, text, tokens);
  }

  lemma ReplyForm(s: State, n: nat, r: Request, text: string, tokens: seq<string>)
    requires n == Position(s.requests, r.event.seqNo) && n < |s.requests| && s.requests[n] == r
    ensures var v := Reply(s, r.event.seqNo, text, tokens);
            if Entitled(r, tokens) && r.reply.None? && !r.status.Completed? && !Blank(text) && ByteLen(text) <= 65536
               && !Notice(r.event) && r.event.kind !in {"semantic_attention", "collaboration_attention", "join_requested"}
            then v == SaveRecord(s, n, r.(reply := Some(text), status := ReplyPending), 0) else !v.Saved?
  {
  }

  lemma FailureEffect(s: State, r: Request) returns (r2: Request)
    requires Valid(s) && r in s.requests
    ensures var v := DeliveryFailed(s, r.event.seqNo);
            && (v.Saved? <==> r.reply.Some? && !r.deliveryError)
            && (v.Saved? ==> Becomes(s, v.next, r, r2) && v.next.revision == s.revision && r2 == r.(deliveryError := true))
  {
    r2 := r.(deliveryError := true);
    RecordAt(s, r);
    Replaced(s, r, r2, 0);
  }

  // ----- Reports -----

  ghost predicate Suspended(r: Request, r2: Request, token: string, o: Report, decisionId: string) {
    && r2 == r.(status := o.status, summary := o.summary, lastClaim := token,
                context := r2.context, approval := r2.approval, claim := r2.claim)
    && r2.context == r.context + (if o.context == "" then "" else "\nWorker checkpoint: " + o.context)
    && r2.approval == (if o.status in {AwaitingApproval, AwaitingInformation}
                       then Some(Approval(decisionId, o.question, o.permission, "pending", "")) else r.approval)
    && r2.claim == (if o.status.NeedsRecovery? then r.claim else None)
  }

  // A report that stops the work is stored exactly from the holder, unless it is a repetition,
  // a reply waits or the context would grow too long; uncertain work keeps its claim.
  lemma SuspendEffect(s: State, r: Request, token: string, o: Report, decisionId: string) returns (r2: Request)
    requires Valid(s) && r in s.requests && ReportFault(token, o).None? && !o.status.Completed? && decisionId != ""
    ensures var v := Suspend(s, r.event.seqNo, token, o, decisionId);
            && (v.Saved? <==>
                  && r.claim.Some? && r.claim.value.token == token && r.reply.None? && (r.lastClaim != token || r.status != o.status)
                  && ByteLen(r.context + (if o.context == "" then "" else "\nWorker checkpoint: " + o.context)) <= 65536)
            && (v.Saved? ==> Becomes(s, v.next, r, r2) && v.next.revision == s.revision + 1
                             && Suspended(r, r2, token, o, decisionId))
  {
    r2 := Stopped(r, token, o, decisionId);
    RecordAt(s, r);
    StoppedMeans(r, token, o, decisionId);
    assert Blank("");
    Replaced(s, r, r2, 1);
    SuspendForm(s, Position(s.requests, r.event.seqNo), r, token, o, decisionId);
  }

  lemma StoppedMeans(r: Request, token: string, o: Report, decisionId: string)
    ensures Suspended(r, Stopped(r, token, o, decisionId), token, o, decisionId)
  {
    assert "\nWorker checkpoint: " == "\n" + "Worker checkpoint" + ": ";
    Joined(r.context, "Worker checkpoint", o.context);
    assert r.context + "" == r.context;
  }

  lemma SuspendForm(s: State, n: nat, r: Request, token: string, o: Report, decisionId: string)
    requires n == Position(s.requests, r.event.seqNo) && n < |s.requests| && s.requests[n] == r
    requires ReportFault(token, o).None? && !o.status.Completed?
    ensures var v := Suspend(s, r.event.seqNo, token, o, decisionId);
            var r2 := Stopped(r, token, o, decisionId);
            if r.claim.Some? && r.claim.value.token == token && r.reply.None? && (r.lastClaim != token || r.status != o.status)
               && ByteLen(r2.context) <= 65536
            then v == SaveRecord(s, n, r2, 1) else !v.Saved?
  {
  }

  // Which reports are well-formed.
  lemma ReportAccepted(token: string, o: Report)
    ensures ReportFault(token, o).None? <==>
            && token != "" && o.status in {Completed, AwaitingApproval, AwaitingInformation, Failed, NeedsRecovery}
            && ByteLen(o.context) <= 65536 && ByteLen(o.summary) <= 4000 && ByteLen(o.question) <= 4000
            && ByteLen(o.permission) <= 4000
            && (o.status in {AwaitingApproval, AwaitingInformation} ==> !Blank(o.question))
  {
  }

  // ----- Policy, revalidation -----

  lemma PolicyEffect(s: State, p: Policy)
    requires Valid(s)
    ensures var v := SetPolicy(s, p);
            && (v.Saved? <==>
                  && 0 <= p.maxWorkers <= 32 && |p.resources| <= 100 && |p.boundaries| <= 100
                  && (forall f <- p.resources :: ByteLen(f) <= 4096) && (forall f <- p.boundaries :: ByteLen(f) <= 4096)
                  && !Blank(p.source) && !Blank(p.scope) && ByteLen(p.source) + ByteLen(p.scope) <= 16384)
            && (v.Saved? ==>
                  && v.next.policy == Some(p.(revision := if s.policy.Some? then s.policy.value.revision + 1 else 1))
                  && v.next.revision == s.revision + 1 && v.next.after == s.after
                  && forall x :: x in v.next.requests <==> x in s.requests)
  {
    SortMembers(s.requests);
    forall f ensures f in p.resources + p.boundaries <==> f in p.resources || f in p.boundaries {
    }
  }

  // Revalidation cancels exactly the ready records that are no longer accepted.
  lemma RevalidateEffect(cfg: Config, s: State, r: Request)
    requires Valid(s) && r in s.requests
    ensures var stored := After(s, Revalidate(cfg, s), true);
            && (if r.status.Ready? && !Accepts(cfg, s.requests, r.event) then r.(status := Cancelled) in stored.requests
                else r in stored.requests)
            && |stored.requests| == |s.requests| && stored.(requests := s.requests) == s
  {
    var out := RevalidateAll(cfg, s.requests);
    var k :| 0 <= k < |s.requests| && s.requests[k] == r;
    RevalidatedValid(cfg, s);
    Stored(s.(requests := out));
    assert out[k] in out;
  }

  // Nothing is stored when there is nothing to cancel.
  lemma RevalidateQuiet(cfg: Config, s: State)
    ensures Revalidate(cfg, s).Unchanged? <==> forall r <- s.requests :: r.status.Ready? ==> Accepts(cfg, s.requests, r.event)
  {
    var out := RevalidateAll(cfg, s.requests);
    if out == s.requests {
      forall r | r in s.requests && r.status.Ready? ensures Accepts(cfg, s.requests, r.event) {
        var k :| 0 <= k < |s.requests| && s.requests[k] == r;
        assert out[k] == r;
      }
    } else {
      var k :| 0 <= k < |out| && out[k] != s.requests[k];
      assert s.requests[k] in s.requests;
    }
  }

  lemma RevalidatedValid(cfg: Config, s: State)
    requires Valid(s)
    ensures Valid(s.(requests := RevalidateAll(cfg, s.requests)))
  {
    var out := RevalidateAll(cfg, s.requests);
    forall n | 0 <= n < |out| ensures ValidRecord(out[n]) && out[n].event == s.requests[n].event {
    }
  }

  // ----- Repetitions -----

  // When an operation succeeds without storing anything: because it was done before.
  lemma DecidedBefore(s: State, r: Request, decisionId: string, action: Action, source: string, context: string, stopped: bool)
    requires Valid(s) && r in s.requests
    ensures Decide(s, r.event.seqNo, decisionId, action, source, context, stopped).Unchanged? <==>
              && ByteLen(source) <= 4096 && ByteLen(context) <= 65536 && !Blank(source)
              && r.approval.Some? && r.approval.value.id == decisionId
              && match action
                 case Presented => r.approval.value.delivery == "answered"
                 case Approve | Decline | Answer =>
                   && r.approval.value.source == source != ""
                   && r.decision == (if action.Approve? then "approve" else if action.Decline? then "decline" else "answer")
                 case _ => false
  {
    RecordAt(s, r);
  }

  lemma AnsweredBefore(s: State, r: Request, text: string, tokens: seq<string>)
    requires Valid(s) && r in s.requests
    ensures Reply(s, r.event.seqNo, text, tokens).Unchanged? <==>
              r.status.Completed?
              || (Entitled(r, tokens) && r.reply.Some? && !Notice(r.event)
                  && r.event.kind !in {"semantic_attention", "collaboration_attention", "join_requested"})
    ensures Ack(s, r.event.seqNo, tokens).Unchanged? <==>
              Entitled(r, tokens) && r.reply.None? && r.status in {Completed, Declined}
    ensures Finish(s, r.event.seqNo).Unchanged? <==> r.status in {Completed, Declined}
  {
    RecordAt(s, r);
  }

  lemma ReportedBefore(s: State, r: Request, token: string, o: Report, decisionId: string, updates: seq<(int, string)>)
    requires Valid(s) && r in s.requests && ReportFault(token, o).None? && !o.status.Completed?
    ensures Suspend(s, r.event.seqNo, token, o, decisionId).Unchanged? <==> r.lastClaim == token && r.status == o.status
    ensures ContextUpdates(s, r.event.seqNo, token, updates).Unchanged? <==>
              |updates| <= 20 && (r.claim.None? || r.claim.value.token != token) && r.lastClaim == token
  {
    RecordAt(s, r);
  }

  // A claim that is not granted changes nothing; only a worker without a proper name is refused.
  lemma ClaimRefusals(cfg: Config, s: State, r: Request, worker: string, token: string)
    requires Valid(s) && r in s.requests && token != ""
    ensures ClaimWork(cfg, s, r.event.seqNo, worker, token).Refused? <==>
              Blank(worker) || ByteLen(worker) > 200 || exists c <- worker :: c in {'\0', '\r', '\n'}
  {
    RecordAt(s, r);
    ClaimForm(cfg, s, Position(s.requests, r.event.seqNo), r, worker, token,
              r.(claim := Some(Claim(worker, token)), status := Running, attempt := r.attempt + 1));
    if WorkerName(worker) {
      assert worker != "";
      Replaced(s, r, r.(claim := Some(Claim(worker, token)), status := Running, attempt := r.attempt + 1), 0);
    }
  }

  // What no operation finds: a record that is not there.
  lemma UnknownRecord(s: State, id: int, tokens: seq<string>, text: string)
    requires forall r :: r in s.requests ==> r.event.seqNo != id
    ensures Reply(s, id, text, tokens).Refused? && Ack(s, id, tokens).Refused? && Finish(s, id).Refused?
    ensures Outgoing(s, id).None? && DeliveryFailed(s, id).Unchanged?
  {
    forall k | 0 <= k < |s.requests| ensures s.requests[k].event.seqNo != id {
      assert s.requests[k] in s.requests;
    }
  }
}

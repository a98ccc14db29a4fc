// What each controller operation does to the stored state, one atomic save at a time
// (cmd/tincan/inbox.go, inbox_claim.go, inbox_requests.go).
module Operations {
  import opened Text
  import opened Commitments
  import opened Scheduling
  import opened Dependencies

  datatype Refusal =
    | UnknownRequest | ClaimRequired | ClaimInactive | Suspended | ReplyUndelivered | NoticeNeedsNoReply
    | BadText | BadOutcome | TooLarge | QuestionRequired | SourceRequired | UnknownDecision
    | AlreadyResolved | NotAwaiting | ApprovalNeeded | ExecutionNotStopped | UnknownAction
    | BadPolicy | NotReady | BadResource | BadDependencies | BadTarget | BadWorker | InvalidState
    | WriteFailed

  // Refused and Unchanged leave the state alone; Saved names the state to be written.
  datatype Verdict = Refused(why: Refusal) | Unchanged | Saved(next: State)

  // The state after an attempt to perform the verdict; `disk` says whether the write succeeds.
  function After(s: State, v: Verdict, disk: bool): State {
    if v.Saved? && disk then v.next else s
  }

  function Failure(v: Verdict, disk: bool): Option<Refusal> {
    if v.Refused? then Some(v.why) else if v.Saved? && !disk then Some(WriteFailed) else None
  }

  function Save(s: State): Verdict {
    if Valid(s) then Saved(s.(requests := ByPriority(s.requests))) else Refused(InvalidState)
  }

  function SaveRecord(s: State, n: nat, r: Request, bump: int): Verdict
    requires n < |s.requests|
  {
    Save(s.(requests := s.requests[n := r], revision := s.revision + bump))
  }

  // ----- Receipt -----

  // A classification enriches the messages it is about.
  function Classified(r: Request, sem: Semantic): Request {
    if r.event.messageId == sem.messageId && r.event.kind == "message"
    then r.(event := r.event.(semantic := Some(sem))) else r
  }

  function ClassifyAll(rs: seq<Request>, sem: Semantic): (out: seq<Request>)
    ensures |out| == |rs|
    ensures forall n :: 0 <= n < |rs| ==> out[n] == Classified(rs[n], sem)
  {
    seq(|rs|, n requires 0 <= n < |rs| => Classified(rs[n], sem))
  }

  const CLASSIFICATION_NOTE := "Classification attached to existing work; no separate action."

  function Received(cfg: Config, e: Event): Event {
    e.(mentioned := IsMention(cfg.agent, e))
  }

  predicate Taken(cfg: Config, s: State, e: Event, valid: bool) {
    valid && Accepts(cfg, s.requests, Received(cfg, e))
  }

  predicate IsClassification(e: Event) {
    e.semantic.Some? && e.semantic.value.kind == "attention"
  }

  function Ingest(cfg: Config, s: State, raw: Event, valid: bool): Verdict {
    if raw.seqNo <= s.after then Unchanged
    else
      var e := Received(cfg, raw);
      var moved := s.(after := e.seqNo);
      if !Taken(cfg, s, raw, valid) then Save(moved)
      else if IsClassification(e) then
        Save(moved.(requests := ClassifyAll(s.requests, e.semantic.value)
                                + [NewRequest(e, Completed, CLASSIFICATION_NOTE)]))
      else
        Save(moved.(requests := s.requests + [NewRequest(e, Ready, "")]))
  }

  // ----- Exclusive claims -----

  predicate WorkerName(w: string) {
    !Blank(w) && ByteLen(w) <= 200 && forall c <- w :: c !in {'\0', '\r', '\n'}
  }

  // Some(token) when the worker holds the claim after the call.
  function Acquired(cfg: Config, s: State, id: int, worker: string, token: string): Option<string> {
    var n := Position(s.requests, id);
    if !WorkerName(worker) || n == |s.requests| then None
    else
      var r := s.requests[n];
      if r.reply.Some? || !Accepts(cfg, s.requests, r.event) then None
      else if r.claim.Some? then
        if r.claim.value.workerId == worker && r.status.Running? then Some(r.claim.value.token) else None
      else if Eligible(s, r) then Some(token) else None
  }

  function ClaimWork(cfg: Config, s: State, id: int, worker: string, token: string): Verdict {
    if !WorkerName(worker) then Refused(BadWorker)
    else
      var n := Position(s.requests, id);
      if Acquired(cfg, s, id, worker, token).None? then Unchanged
      else
        var r := s.requests[n];
        if r.claim.Some? then Unchanged
        else SaveRecord(s, n, r.(claim := Some(Claim(worker, token)), status := Running, attempt := r.attempt + 1), 0)
  }

  function Release(s: State, id: int, token: string): Verdict {
    var n := Position(s.requests, id);
    if n == |s.requests| then Refused(ClaimRequired)
    else
      var r := s.requests[n];
      if r.claim.None? || r.claim.value.token != token then Refused(ClaimRequired)
      else if r.reply.Some? then Refused(ReplyUndelivered)
      else SaveRecord(s, n, r.(claim := None, status := Ready), 1)
  }

  // Whether the given claim tokens entitle the caller to finish this record.
  function ClaimGuard(r: Request, tokens: seq<string>): Option<Refusal> {
    if r.claim.Some? && (|tokens| != 1 || tokens[0] != r.claim.value.token) then Some(ClaimRequired)
    else if r.claim.None? && |tokens| > 0 && tokens[0] != "" then Some(ClaimInactive)
    else if Awaiting(r.status) || r.status.NeedsRecovery? then Some(Suspended)
    else None
  }

  // ----- Completion and replies -----

  function Acknowledged(r: Request): Request {
    r.(lastClaim := if r.claim.Some? then r.claim.value.token else r.lastClaim,
       status := if r.decision == "decline" then Declined else Completed,
       claim := None, reply := None, deliveryError := false)
  }

  function Finish(s: State, id: int): Verdict {
    var n := Position(s.requests, id);
    if n == |s.requests| then Refused(UnknownRequest)
    else
      var r := s.requests[n];
      if r.status.Completed? || r.status.Declined? then Unchanged
      else SaveRecord(s, n, Acknowledged(r), 1)
  }

  function Ack(s: State, id: int, tokens: seq<string>): Verdict {
    var n := Position(s.requests, id);
    if n == |s.requests| then Refused(UnknownRequest)
    else
      var r := s.requests[n];
      if ClaimGuard(r, tokens).Some? then Refused(ClaimGuard(r, tokens).value)
      else if r.reply.Some? then Refused(ReplyUndelivered)
      else Finish(s, id)
  }

  predicate NeverAnswered(e: Event) {
    Notice(e) || e.kind in {"semantic_attention", "collaboration_attention", "join_requested"}
  }

  // Saves the text to be posted. Delivery is a separate step.
  function Reply(s: State, id: int, text: string, tokens: seq<string>): Verdict {
    var n := Position(s.requests, id);
    if n == |s.requests| then Refused(UnknownRequest)
    else
      var r := s.requests[n];
      if r.status.Completed? then Unchanged
      else if ClaimGuard(r, tokens).Some? then Refused(ClaimGuard(r, tokens).value)
      else if NeverAnswered(r.event) then Refused(NoticeNeedsNoReply)
      else if r.reply.Some? then Unchanged
      else if Blank(text) || ByteLen(text) > 65536 then Refused(BadText)
      else SaveRecord(s, n, r.(reply := Some(text), status := ReplyPending), 0)
  }

  // What the outbox would post now for this record.
  function Outgoing(s: State, id: int): Option<string> {
    var n := Position(s.requests, id);
    if n == |s.requests| then None else s.requests[n].reply
  }

  function DeliveryFailed(s: State, id: int): Verdict {
    var n := Position(s.requests, id);
    if n == |s.requests| || s.requests[n].reply.None? || s.requests[n].deliveryError then Unchanged
    else SaveRecord(s, n, s.requests[n].(deliveryError := true), 0)
  }

  // ----- Structured outcomes -----

  datatype Report = Report(
    updates: seq<(int, string)>, status: Status, reply: Option<string>,
    summary: string, context: string, question: string, permission: string)

  function ReportFault(token: string, o: Report): Option<Refusal> {
    if token == "" then Some(ClaimRequired)
    else if !(o.status.Completed? || Awaiting(o.status) || o.status.Failed? || o.status.NeedsRecovery?) then Some(BadOutcome)
    else if ByteLen(o.context) > 65536 || ByteLen(o.summary) > 4000 || ByteLen(o.question) > 4000
            || ByteLen(o.permission) > 4000 then Some(TooLarge)
    else if Awaiting(o.status) && Blank(o.question) then Some(QuestionRequired)
    else None
  }

  // The record after a worker stopped with a report other than completion.
  function Stopped(r: Request, token: string, o: Report, decisionId: string): Request {
    r.(status := o.status, summary := o.summary,
       context := if o.context == "" then r.context else Appended(r.context, "Worker checkpoint", o.context),
       approval := if Awaiting(o.status)
                   then Some(Approval(decisionId, o.question, o.permission, "pending", ""))
                   else r.approval,
       lastClaim := token,
       claim := if o.status.NeedsRecovery? then r.claim else None)
  }

  function Suspend(s: State, id: int, token: string, o: Report, decisionId: string): Verdict
    requires ReportFault(token, o).None? && !o.status.Completed?
  {
    var n := Position(s.requests, id);
    if n == |s.requests| then Refused(UnknownRequest)
    else
      var r := s.requests[n];
      if r.lastClaim == token && r.status == o.status then Unchanged
      else if r.claim.None? || r.claim.value.token != token then Refused(ClaimRequired)
      else if r.reply.Some? then Refused(ReplyUndelivered)
      else
        var next := Stopped(r, token, o, decisionId);
        if ByteLen(next.context) > 65536 then Refused(TooLarge)
        else SaveRecord(s, n, next, 1)
  }

  // Clarifications for related records, each applied at most once per attempt.
  function Clarify(rs: seq<Request>, n: nat, updates: seq<(int, string)>): (out: Option<seq<Request>>)
    requires n < |rs|
    ensures out.Some? ==> |out.value| == |rs|
    decreases |updates|
  {
    if updates == [] then Some(rs)
    else
      var (target, text) := updates[0];
      var t := Position(rs, target);
      if t == |rs| || Terminal(rs[t].status) || rs[t].event.channelId != rs[n].event.channelId then None
      else if Blank(text) || ByteLen(text) > 4000 then None
      else if (rs[n].attempt, target) in rs[n].appliedUpdates then Clarify(rs, n, updates[1..])
      else
        var context := Appended(rs[t].context, "Peer clarification from " + rs[n].event.messageId, text);
        if ByteLen(context) > 65536 then None
        else Clarify(Clarified(rs, n, t, context, target), n, updates[1..])
  }

  function Clarified(rs: seq<Request>, n: nat, t: nat, context: string, target: int): (out: seq<Request>)
    requires n < |rs| && t < |rs|
    ensures |out| == |rs|
  {
    var told := rs[t := rs[t].(context := context)];
    told[n := told[n].(appliedUpdates := told[n].appliedUpdates + {(told[n].attempt, target)})]
  }

  function ContextUpdates(s: State, id: int, token: string, updates: seq<(int, string)>): Verdict {
    if |updates| > 20 then Refused(TooLarge)
    else
      var n := Position(s.requests, id);
      if n == |s.requests| then Refused(UnknownRequest)
      else
        var r := s.requests[n];
        if r.claim.None? || r.claim.value.token != token then
          if r.lastClaim == token && token != "" then Unchanged else Refused(ClaimRequired)
        else
          var out := Clarify(s.requests, n, updates);
          if out.None? then Refused(BadTarget) else Save(s.(requests := out.value))
  }

  // ----- Controller decisions -----

  const DECLINE_TEXT := "I cannot proceed with this request."

  datatype Action = Presented | Approve | Decline | Answer | Annotate | Resume | Cancel | OtherAction(name: string)

  function ActionName(a: Action): string {
    match a
    case Presented => "presented" case Approve => "approve" case Decline => "decline" case Answer => "answer"
    case Annotate => "annotate" case Resume => "resume" case Cancel => "cancel" case OtherAction(name) => name
  }

  // The decided record, None when the call is a harmless repetition.
  datatype Ruling = Rejected(why: Refusal) | Repeated | Ruled(next: Request)

  function Rule(r: Request, decisionId: string, action: Action, source: string, context: string, stopped: bool): Ruling {
    match action
    case Presented =>
      if r.approval.None? || r.approval.value.id != decisionId then Rejected(UnknownDecision)
      else if r.approval.value.delivery == "answered" then Repeated
      else Ruled(r.(approval := Some(r.approval.value.(delivery := "presented"))))
    case Approve | Decline | Answer =>
      if r.approval.None? || r.approval.value.id != decisionId then Rejected(UnknownDecision)
      else if r.approval.value.source != "" then
        if r.decision == ActionName(action) && r.approval.value.source == source then Repeated
        else Rejected(AlreadyResolved)
      else if !Awaiting(r.status) then Rejected(NotAwaiting)
      else if action.Answer? && !r.status.AwaitingInformation? then Rejected(ApprovalNeeded)
      else
        var answered := r.(approval := Some(r.approval.value.(source := source, delivery := "answered")),
                           decision := ActionName(action),
                           context := Appended(r.context, "User decision", context));
        if action.Decline? then Ruled(answered.(reply := Some(DECLINE_TEXT), status := ReplyPending))
        else Ruled(answered.(status := Ready))
    case Annotate =>
      if Terminal(r.status) then Rejected(AlreadyResolved)
      else Ruled(r.(context := Appended(r.context, "Context update (" + source + ")", context)))
    case Resume | Cancel =>
      if r.reply.Some? then Rejected(ReplyUndelivered)
      else if r.claim.Some? && !stopped then Rejected(ExecutionNotStopped)
      else if Terminal(r.status) then Rejected(AlreadyResolved)
      else if r.status.AwaitingApproval? then Rejected(ApprovalNeeded)
      else Ruled(r.(claim := None, status := if action.Cancel? then Cancelled else Ready,
                    context := Appended(r.context, "Controller recovery", context), decision := source))
    case OtherAction(_) => Rejected(UnknownAction)
  }

  function Decide(s: State, id: int, decisionId: string, action: Action, source: string, context: string, stopped: bool): Verdict {
    if ByteLen(source) > 4096 || ByteLen(context) > 65536 then Refused(TooLarge)
    else if Blank(source) then Refused(SourceRequired)
    else
      var n := Position(s.requests, id);
      if n == |s.requests| then Refused(UnknownRequest)
      else
        match Rule(s.requests[n], decisionId, action, source, context, stopped)
        case Rejected(why) => Refused(why)
        case Repeated => Unchanged
        case Ruled(next) =>
          if ByteLen(next.context) > 65536 then Refused(TooLarge) else SaveRecord(s, n, next, 1)
  }

  function SetPolicy(s: State, p: Policy): Verdict {
    if p.maxWorkers < 0 || p.maxWorkers > MOST_WORKERS || |p.resources| > 100 || |p.boundaries| > 100
       || (exists f <- p.resources + p.boundaries :: ByteLen(f) > 4096)
       || Blank(p.source) || Blank(p.scope) || ByteLen(p.source) + ByteLen(p.scope) > 16384
    then Refused(BadPolicy)
    else
      var revision := if s.policy.Some? then s.policy.value.revision + 1 else 1;
      Save(s.(policy := Some(p.(revision := revision)), revision := s.revision + 1))
  }

  // ----- Planning -----

  function Planned(r: Request, dependencies: seq<int>, resources: seq<string>): Request {
    r.(dependencies := dependencies, resources := resources)
  }

  ghost function Plan(s: State, id: int, dependencies: seq<int>, resources: seq<string>): Verdict {
    var n := Position(s.requests, id);
    if n == |s.requests| || !s.requests[n].status.Ready? then Refused(NotReady)
    else if |dependencies| > 100 || |resources| > 100 then Refused(TooLarge)
    else if exists key <- resources :: Blank(key) || ByteLen(key) > 4096 then Refused(BadResource)
    else
      var next := s.requests[n := Planned(s.requests[n], dependencies, resources)];
      if Sound(next, id) then Save(s.(requests := next, revision := s.revision + 1))
      else Refused(BadDependencies)
  }

  // ----- Revalidation -----

  function Revalidated(cfg: Config, rs: seq<Request>, r: Request): Request {
    if r.status.Ready? && !Accepts(cfg, rs, r.event) then r.(status := Cancelled) else r
  }

  function RevalidateAll(cfg: Config, rs: seq<Request>): (out: seq<Request>)
    ensures |out| == |rs|
    ensures forall n :: 0 <= n < |rs| ==> out[n] == Revalidated(cfg, rs, rs[n])
  {
    seq(|rs|, n requires 0 <= n < |rs| => Revalidated(cfg, rs, rs[n]))
  }

  function Revalidate(cfg: Config, s: State): Verdict {
    var out := RevalidateAll(cfg, s.requests);
    if out == s.requests then Unchanged else Save(s.(requests := out))
  }

  // ----- Restart -----

  function Recovered(agent: string, r: Request): Request {
    r.(event := r.event.(mentioned := IsMention(agent, r.event)),
       status := if r.status.Running? then NeedsRecovery else r.status)
  }

  function RecoverAll(agent: string, rs: seq<Request>): (out: seq<Request>)
    ensures |out| == |rs|
    ensures forall n :: 0 <= n < |rs| ==> out[n] == Recovered(agent, rs[n])
  {
    seq(|rs|, n requires 0 <= n < |rs| => Recovered(agent, rs[n]))
  }

  // A new process takes over the stored state. No live execution survives a restart. The
  // recovered records are saved, and so sorted again, only when there are any.
  function Restart(agent: string, s: State): State {
    var out := RecoverAll(agent, ByPriority(s.requests));
    s.(requests := if exists r <- s.requests :: r.status.Running? then ByPriority(out) else out)
  }
}

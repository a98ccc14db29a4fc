// The private work records of one inbox and the questions the controller asks about them
// (cmd/tincan/inbox_requests.go, inbox.go, inbox_claim.go).
module Commitments {
  import opened Text

  datatype Semantic = Semantic(
    messageId: string, classification: string, confidence: real,
    ownerAgentId: string, suggestionId: string, kind: string)

  datatype Collaboration = Collaboration(ownerAgentId: string, requestId: string, messageId: string)

  // A received event. `hello` says that its metadata is a connection announcement
  // (tincan_connection is "hello" and tincan_listener is true); `automated` says that its
  // metadata carries the tincan_listener key at all.
  datatype Event = Event(
    seqNo: int, kind: string, channelId: string, messageId: string, agentId: string,
    mentions: seq<string>, mentioned: bool, hello: bool, automated: bool,
    semantic: Option<Semantic>, collaboration: Option<Collaboration>, joinRequestId: Option<string>)

  datatype Claim = Claim(workerId: string, token: string)

  datatype Approval = Approval(id: string, question: string, permission: string, delivery: string, source: string)

  // Unrecognised is any other text found in a state file.
  datatype Status =
    | Ready | Running | AwaitingApproval | AwaitingInformation | Failed | NeedsRecovery
    | ReplyPending | Completed | Declined | Cancelled | Unrecognised

  datatype Request = Request(
    event: Event, status: Status, claim: Option<Claim>, deliveryError: bool, reply: Option<string>,
    summary: string, context: string, dependencies: seq<int>, resources: seq<string>,
    approval: Option<Approval>, attempt: int, lastClaim: string, decision: string,
    appliedUpdates: set<(int, int)>)

  datatype Policy = Policy(
    source: string, scope: string, resources: seq<string>, boundaries: seq<string>,
    revision: int, maxWorkers: int)

  // The version 2 state. The single-slot fields of version 1 exist only in Storage.File.
  datatype State = State(after: int, revision: int, requests: seq<Request>, policy: Option<Policy>)

  // What decides whether an event concerns this agent. It may change between operations,
  // except for the agent's own identity.
  datatype Config = Config(agent: string, allowed: seq<string>, workspacePeers: bool, reviewsJoins: bool)

  function NewRequest(e: Event, status: Status, summary: string): Request {
    Request(e, status, None, false, None, summary, "", [], [], None, 0, "", "", {})
  }

  predicate Terminal(st: Status) {
    st.Completed? || st.Declined? || st.Cancelled?
  }

  predicate Awaiting(st: Status) {
    st.AwaitingApproval? || st.AwaitingInformation?
  }

  // A connection announcement is presented to the user; it is not work.
  predicate Notice(e: Event) {
    e.kind == "message" && e.messageId != "" && e.hello
  }

  predicate IsMention(agent: string, e: Event) {
    e.kind == "message" && agent in e.mentions
  }

  function Priority(r: Request): int {
    if r.event.kind == "join_requested" then 3
    else if r.event.mentioned then 2
    else if r.event.semantic.Some? && r.event.semantic.value.confidence >= 0.8
            && r.event.semantic.value.classification in {"human_decision", "blocker", "changed_requirement", "agent_work"} then 1
    else 0
  }

  // The first record with this sequence number, or |rs|.
  function Position(rs: seq<Request>, id: int): (n: nat)
    ensures n <= |rs|
    ensures n < |rs| ==> rs[n].event.seqNo == id
    ensures forall k :: 0 <= k < n ==> rs[k].event.seqNo != id
  {
    if rs == [] then 0
    else if rs[0].event.seqNo == id then 0
    else 1 + Position(rs[1..], id)
  }

  predicate Known(rs: seq<Request>, id: int) {
    exists r :: r in rs && r.event.seqNo == id
  }

  predicate Done(rs: seq<Request>, id: int) {
    var n := Position(rs, id);
    n < |rs| && rs[n].status.Completed?
  }

  function RunningCount(rs: seq<Request>): nat {
    if rs == [] then 0
    else RunningCount(rs[..|rs| - 1]) + if rs[|rs| - 1].status.Running? then 1 else 0
  }

  const DEFAULT_WORKERS := 4
  const MOST_WORKERS := 32

  function Limit(p: Option<Policy>): int {
    if p.Some? && p.value.maxWorkers > 0 then p.value.maxWorkers else DEFAULT_WORKERS
  }

  // Two records that may not be worked on at the same time.
  predicate Conflict(a: Request, r: Request) {
    || (r.event.semantic.Some? && a.event.semantic.Some?
        && r.event.semantic.value.suggestionId == a.event.semantic.value.suggestionId)
    || (r.event.collaboration.Some? && a.event.collaboration.Some?
        && r.event.collaboration.value.requestId == a.event.collaboration.value.requestId)
    || exists k :: k in a.resources && k in r.resources
  }

  // Work may start on r now.
  predicate Eligible(s: State, r: Request) {
    && r.status.Ready?
    && (Notice(r.event) ||
        (&& RunningCount(s.requests) < Limit(s.policy)
         && (forall d <- r.dependencies :: Done(s.requests, d))
         && (forall a <- s.requests :: a.claim.Some? ==> !Conflict(a, r))))
  }

  predicate Accepts(cfg: Config, rs: seq<Request>, e: Event) {
    if e.kind == "semantic_attention" then
      e.semantic.Some? && e.semantic.value.ownerAgentId == cfg.agent && e.semantic.value.suggestionId != ""
    else if e.kind == "collaboration_attention" then
      e.collaboration.Some? && e.collaboration.value.ownerAgentId == cfg.agent && e.collaboration.value.requestId != ""
    else if e.kind == "join_requested" then
      cfg.reviewsJoins && e.joinRequestId.Some? && e.joinRequestId.value != ""
    else
      && e.kind == "message" && e.messageId != ""
      && (e.agentId != cfg.agent || Notice(e))
      && (cfg.workspacePeers || e.agentId == cfg.agent || e.agentId in cfg.allowed)
      && (forall r <- rs :: r.event.collaboration.Some? ==> r.event.collaboration.value.messageId != e.messageId)
      && (!e.automated || Notice(e))
  }

  // What a state must satisfy to be stored or loaded.
  predicate ValidRecord(r: Request) {
    && !r.status.Unrecognised?
    && (r.status.Running? ==> r.claim.Some?)
    && (Awaiting(r.status) ==>
          r.approval.Some? && r.approval.value.id != "" && r.approval.value.question != "" && r.claim.None?)
    && (r.claim.Some? ==> r.claim.value.workerId != "" && r.claim.value.token != "")
  }

  predicate Valid(s: State) {
    && s.after >= 0
    && (forall n :: 0 <= n < |s.requests| ==>
          0 < s.requests[n].event.seqNo <= s.after && ValidRecord(s.requests[n]))
    && (forall i, j :: 0 <= i < j < |s.requests| ==> s.requests[i].event.seqNo != s.requests[j].event.seqNo)
  }
}

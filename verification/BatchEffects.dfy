// What a saved operation makes of all records: clarifications for related work, and the
// receipt of an event (cmd/tincan/inbox_requests.go contextUpdates, ingest; inbox.go accepts).
module BatchEffects {
  import opened Text
  import opened Commitments
  import opened Scheduling
  import opened Dependencies
  import opened Operations
  import opened Effects
  import Ingestion

  // ----- Clarifications -----

  // The first text that these updates have for a record.
  function FirstFor(updates: seq<(int, string)>, id: int): Option<string> {
    if updates == [] then None else if updates[0].0 == id then Some(updates[0].1) else FirstFor(updates[1..], id)
  }

  // What they add to the record: once in each attempt of the source, and its first text only.
  function Clarification(source: Request, updates: seq<(int, string)>, id: int): string {
    if FirstFor(updates, id).None? || (source.attempt, id) in source.appliedUpdates then ""
    else "\nPeer clarification from " + source.event.messageId + ": " + FirstFor(updates, id).value
  }

  function NotesOf(attempt: int, updates: seq<(int, string)>): set<(int, int)> {
    set u | u in updates :: (attempt, u.0)
  }

  ghost predicate ClarifiedAs(source: Request, updates: seq<(int, string)>, x: Request, x2: Request) {
    && x2 == x.(context := x2.context, appliedUpdates := x2.appliedUpdates)
    && x2.context == x.context + Clarification(source, updates, x.event.seqNo)
    && x2.appliedUpdates == x.appliedUpdates + if x == source then NotesOf(source.attempt, updates) else {}
  }

  ghost predicate GoodTarget(rs: seq<Request>, source: Request, u: (int, string)) {
    && !Blank(u.1) && ByteLen(u.1) <= 4000
    && exists x :: x in rs && x.event.seqNo == u.0 && !Terminal(x.status) && x.event.channelId == source.event.channelId
  }

  lemma FirstStep(source: Request, mid: Request, updates: seq<(int, string)>, id: int)
    requires updates != [] && mid.event == source.event && mid.attempt == source.attempt
    requires mid.appliedUpdates == source.appliedUpdates + {(source.attempt, updates[0].0)}
    ensures Clarification(source, updates, id) ==
            if id == updates[0].0 && (source.attempt, id) !in source.appliedUpdates
            then "\nPeer clarification from " + source.event.messageId + ": " + updates[0].1
            else Clarification(mid, updates[1..], id)
    ensures id == updates[0].0 ==> Clarification(mid, updates[1..], id) == ""
  {
  }

  lemma NotesStep(attempt: int, updates: seq<(int, string)>)
    requires updates != []
    ensures NotesOf(attempt, updates) == {(attempt, updates[0].0)} + NotesOf(attempt, updates[1..])
  {
    assert updates == [updates[0]] + updates[1..];
  }

  lemma ClarificationText(was: string, from: string, text: string)
    ensures Appended(was, "Peer clarification from " + from, text) == was + ("\nPeer clarification from " + from + ": " + text)
  {
    var heading := "Peer clarification from " + from;
    assert "\nPeer clarification from " + from + ": " + text == "\n" + heading + ": " + text;
    Joined(was, heading, text);
  }

  lemma ClarifiedAt(rs: seq<Request>, n: nat, t: nat, context: string, target: int, k: nat)
    requires n < |rs| && t < |rs| && k < |rs|
    ensures var mid := Clarified(rs, n, t, context, target);
            && mid[k] == rs[k].(context := mid[k].context, appliedUpdates := mid[k].appliedUpdates)
            && mid[k].context == (if k == t then context else rs[k].context)
            && mid[k].appliedUpdates == rs[k].appliedUpdates + (if k == n then {(rs[n].attempt, target)} else {})
  {
  }

  lemma ClarifiedSame(rs: seq<Request>, n: nat, t: nat, context: string, target: int)
    requires UniqueIds(rs) && n < |rs| && t < |rs|
    ensures var mid := Clarified(rs, n, t, context, target);
            UniqueIds(mid) && forall k :: 0 <= k < |rs| ==> mid[k].event == rs[k].event && mid[k].status == rs[k].status
  {
    forall k | 0 <= k < |rs|
      ensures Clarified(rs, n, t, context, target)[k].event == rs[k].event
      ensures Clarified(rs, n, t, context, target)[k].status == rs[k].status
    {
      ClarifiedAt(rs, n, t, context, target, k);
    }
  }

  // A batch of clarifications that is accepted reaches unfinished records of the same channel
  // only; each is extended by exactly the first text meant for it, once in each attempt.
  lemma {:induction false} ClarifyMeans(rs: seq<Request>, n: nat, updates: seq<(int, string)>, k: nat)
    requires UniqueIds(rs) && n < |rs| && k < |rs| && Clarify(rs, n, updates).Some?
    ensures var out := Clarify(rs, n, updates).value;
            && |out| == |rs|
            && out[k] == rs[k].(context := out[k].context, appliedUpdates := out[k].appliedUpdates)
            && out[k].context == rs[k].context + Clarification(rs[n], updates, rs[k].event.seqNo)
            && out[k].appliedUpdates == rs[k].appliedUpdates + if k == n then NotesOf(rs[n].attempt, updates) else {}
    decreases |updates|
  {
    if updates == [] {
      assert rs[k].context + "" == rs[k].context;
      assert NotesOf(rs[n].attempt, updates) == {};
    } else {
      var (target, text) := updates[0];
      var t := Position(rs, target);
      NotesStep(rs[n].attempt, updates);
      if (rs[n].attempt, target) in rs[n].appliedUpdates {
        ClarifyMeans(rs, n, updates[1..], k);
      } else {
        var context := Appended(rs[t].context, "Peer clarification from " + rs[n].event.messageId, text);
        var mid := Clarified(rs, n, t, context, target);
        ClarifiedAt(rs, n, t, context, target, k);
        ClarifiedAt(rs, n, t, context, target, n);
        ClarifiedSame(rs, n, t, context, target);
        ClarifyMeans(mid, n, updates[1..], k);
        FirstStep(rs[n], mid[n], updates, rs[k].event.seqNo);
        ClarificationText(rs[t].context, rs[n].event.messageId, text);
        assert rs[k].event.seqNo == target <==> k == t;
        assert mid[k].context + "" == mid[k].context;
      }
    }
  }

  lemma SameTarget(rs: seq<Request>, mid: seq<Request>, n: nat, u: (int, string))
    requires n < |rs| == |mid| && GoodTarget(mid, mid[n], u)
    requires forall k :: 0 <= k < |rs| ==> mid[k].event == rs[k].event && mid[k].status == rs[k].status
    ensures GoodTarget(rs, rs[n], u)
  {
    var x :| x in mid && x.event.seqNo == u.0 && !Terminal(x.status) && x.event.channelId == mid[n].event.channelId;
    var k :| 0 <= k < |mid| && mid[k] == x;
    assert rs[k] in rs;
  }

  lemma {:induction false} ClarifyTargets(rs: seq<Request>, n: nat, updates: seq<(int, string)>, j: nat)
    requires UniqueIds(rs) && n < |rs| && Clarify(rs, n, updates).Some? && j < |updates|
    ensures GoodTarget(rs, rs[n], updates[j])
    decreases |updates|
  {
    var (target, text) := updates[0];
    var t := Position(rs, target);
    assert rs[t] in rs;
    if j > 0 {
      if (rs[n].attempt, target) in rs[n].appliedUpdates {
        ClarifyTargets(rs, n, updates[1..], j - 1);
      } else {
        var context := Appended(rs[t].context, "Peer clarification from " + rs[n].event.messageId, text);
        var mid := Clarified(rs, n, t, context, target);
        ClarifiedSame(rs, n, t, context, target);
        ClarifyTargets(mid, n, updates[1..], j - 1);
        SameTarget(rs, mid, n, updates[j]);
      }
    }
  }

  // Stored clarifications come from the holder of the source; every record is then as clarified.
  lemma UpdatesEffect(s: State, source: Request, token: string, updates: seq<(int, string)>, x: Request) returns (x2: Request)
    requires Valid(s) && source in s.requests && x in s.requests
    ensures var v := ContextUpdates(s, source.event.seqNo, token, updates);
            v.Saved? ==>
              && source.claim.Some? && source.claim.value.token == token && |updates| <= 20
              && (forall j :: 0 <= j < |updates| ==> GoodTarget(s.requests, source, updates[j]))
              && x2 in v.next.requests && ClarifiedAs(source, updates, x, x2)
              && |v.next.requests| == |s.requests| && v.next.(requests := s.requests) == s
  {
    x2 := x;
    RecordAt(s, source);
    RecordAt(s, x);
    var n, k := Position(s.requests, source.event.seqNo), Position(s.requests, x.event.seqNo);
    var out := Clarify(s.requests, n, updates);
    UpdatesForm(s, n, source, token, updates);
    if out.Some? && ContextUpdates(s, source.event.seqNo, token, updates).Saved? {
      forall j | 0 <= j < |updates| ensures GoodTarget(s.requests, source, updates[j]) {
        ClarifyTargets(s.requests, n, updates, j);
      }
      ClarifyMeans(s.requests, n, updates, k);
      x2 := out.value[k];
      Stored(s.(requests := out.value));
      assert x2 in out.value;
    }
  }

  lemma UpdatesForm(s: State, n: nat, source: Request, token: string, updates: seq<(int, string)>)
    requires n == Position(s.requests, source.event.seqNo) && n < |s.requests| && s.requests[n] == source
    ensures var v := ContextUpdates(s, source.event.seqNo, token, updates);
            v.Saved? ==>
              && source.claim.Some? && source.claim.value.token == token && |updates| <= 20
              && Clarify(s.requests, n, updates).Some?
              && v == Save(s.(requests := Clarify(s.requests, n, updates).value))
  {
  }

  // ----- Receipt -----

  // The events that concern this inbox: announcements and messages of those it listens to, the
  // attention and the join requests meant for it.
  predicate Concerns(cfg: Config, rs: seq<Request>, e: Event) {
    || (e.kind == "semantic_attention" && e.semantic.Some?
        && e.semantic.value.ownerAgentId == cfg.agent && e.semantic.value.suggestionId != "")
    || (e.kind == "collaboration_attention" && e.collaboration.Some?
        && e.collaboration.value.ownerAgentId == cfg.agent && e.collaboration.value.requestId != "")
    || (e.kind == "join_requested" && cfg.reviewsJoins && e.joinRequestId.Some? && e.joinRequestId.value != "")
    || (e.kind == "message" && e.messageId != "" && (e.hello || (e.agentId != cfg.agent && !e.automated))
        && (cfg.workspacePeers || e.agentId == cfg.agent || e.agentId in cfg.allowed)
        && !exists r :: r in rs && r.event.collaboration.Some? && r.event.collaboration.value.messageId == e.messageId)
  }

  lemma AcceptsMeans(cfg: Config, rs: seq<Request>, e: Event)
    ensures Accepts(cfg, rs, e) <==> Concerns(cfg, rs, e)
  {
  }

  // The record as it is when it has just arrived.
  ghost predicate Arrives(x: Request, e: Event, status: Status) {
    && x.event == e && x.status == status && x.claim.None? && x.reply.None? && x.approval.None? && !x.deliveryError
    && x.dependencies == [] && x.resources == [] && x.attempt == 0 && x.context == "" && x.lastClaim == "" && x.decision == ""
    && x.appliedUpdates == {}
  }

  // What a stored classification makes of a record: the messages it is about carry it.
  ghost predicate Enriched(x: Request, x2: Request, sem: Semantic) {
    x2 == x.(event := x.event.(semantic := if x.event.kind == "message" && x.event.messageId == sem.messageId
                                           then Some(sem) else x.event.semantic))
  }

  ghost predicate ReceivedAs(s: State, next: State, e: Event, concerns: bool, x: Request, x2: Request) {
    var classifies := e.semantic.Some? && e.semantic.value.kind == "attention";
    && next.after == e.seqNo && next.policy == s.policy && next.revision == s.revision
    && |next.requests| == |s.requests| + (if concerns then 1 else 0)
    && x2 in next.requests
    && (if concerns && classifies then Enriched(x, x2, e.semantic.value) else x2 == x)
    && (concerns ==> exists y :: y in next.requests && Arrives(y, e, if classifies then Completed else Ready))
  }

  // A new event always moves the cursor. It adds a ready record exactly when it is genuine,
  // concerns this inbox and is no classification, a completed one when it is; otherwise none.
  lemma IngestEffect(cfg: Config, s: State, raw: Event, valid: bool, x: Request) returns (x2: Request)
    requires Valid(s) && x in s.requests && raw.seqNo > s.after
    ensures var v := Ingest(cfg, s, raw, valid);
            var e := raw.(mentioned := raw.kind == "message" && cfg.agent in raw.mentions);
            v.Saved? && ReceivedAs(s, v.next, e, valid && Concerns(cfg, s.requests, e), x, x2)
  {
    var e := Received(cfg, raw);
    AcceptsMeans(cfg, s.requests, e);
    Ingestion.IngestAdvances(cfg, s, raw, valid);
    var k :| 0 <= k < |s.requests| && s.requests[k] == x;
    x2 := Added(cfg, s, raw, valid)[k];
    IngestForm(cfg, s, raw, valid);
    AddedAt(cfg, s, raw, valid, k);
    StoredReceipt(s, e, Taken(cfg, s, raw, valid), Added(cfg, s, raw, valid), k);
  }

  lemma StoredReceipt(s: State, e: Event, concerns: bool, added: seq<Request>, k: nat)
    requires k < |s.requests| && Save(s.(after := e.seqNo, requests := added)).Saved?
    requires |added| == |s.requests| + (if concerns then 1 else 0)
    requires concerns ==> Arrives(added[|s.requests|], e, if IsClassification(e) then Completed else Ready)
    requires if concerns && IsClassification(e) then Enriched(s.requests[k], added[k], e.semantic.value) else added[k] == s.requests[k]
    ensures ReceivedAs(s, Save(s.(after := e.seqNo, requests := added)).next, e, concerns, s.requests[k], added[k])
  {
    Stored(s.(after := e.seqNo, requests := added));
    assert added[k] in added;
    if concerns {
      assert added[|s.requests|] in added;
    }
  }

  lemma IngestForm(cfg: Config, s: State, raw: Event, valid: bool)
    requires raw.seqNo > s.after
    ensures Ingest(cfg, s, raw, valid) == Save(s.(after := raw.seqNo, requests := Added(cfg, s, raw, valid)))
  {
  }

  lemma AddedAt(cfg: Config, s: State, raw: Event, valid: bool, k: nat)
    requires k < |s.requests|
    ensures var e := Received(cfg, raw);
            var added := Added(cfg, s, raw, valid);
            if !Taken(cfg, s, raw, valid) then |added| == |s.requests| && added[k] == s.requests[k]
            else
              && |added| == |s.requests| + 1
              && Arrives(added[|s.requests|], e, if IsClassification(e) then Completed else Ready)
              && (if IsClassification(e) then Enriched(s.requests[k], added[k], e.semantic.value) else added[k] == s.requests[k])
  {
  }

  // The records after receipt, before they are sorted.
  function Added(cfg: Config, s: State, raw: Event, valid: bool): seq<Request> {
    var e := Received(cfg, raw);
    if !Taken(cfg, s, raw, valid) then s.requests
    else if IsClassification(e) then ClassifyAll(s.requests, e.semantic.value) + [NewRequest(e, Completed, CLASSIFICATION_NOTE)]
    else s.requests + [NewRequest(e, Ready, "")]
  }
}

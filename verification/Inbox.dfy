// The controller itself: methods that search, check and update the records step by step and
// commit each change with one save. Their contracts name the state they leave behind.
// `disk` says whether a write succeeds; fresh tokens and decision IDs are parameters.
module Inbox {
  import opened Text
  import opened Commitments
  import opened Scheduling
  import opened Dependencies
  import opened Operations
  import opened Storage

  method Find(rs: seq<Request>, id: int) returns (n: nat)
    ensures n == Position(rs, id)
  {
    n := 0;
    while n < |rs| && rs[n].event.seqNo != id
      invariant n <= |rs|
      invariant forall k :: 0 <= k < n ==> rs[k].event.seqNo != id
    {
      n := n + 1;
    }
    var p := Position(rs, id);
    assert p < |rs| ==> rs[p].event.seqNo == id;
  }

  lemma PlaceStep(rs: seq<Request>, x: Request, m: nat)
    requires 0 < m <= |rs| && Priority(rs[m - 1]) < Priority(x)
    ensures Insert(rs[..m], x) + rs[m..] == Insert(rs[..m - 1], x) + rs[m - 1..]
  {
    var front := rs[..m];
    assert front[|front| - 1] == rs[m - 1] && front[..|front| - 1] == rs[..m - 1];
    assert Insert(front, x) == Insert(rs[..m - 1], x) + [rs[m - 1]];
    assert [rs[m - 1]] + rs[m..] == rs[m - 1..];
  }

  // Where the stable sort puts x: behind the last record of at least its priority.
  method Place(rs: seq<Request>, x: Request) returns (m: nat)
    ensures m <= |rs| && Insert(rs, x) == rs[..m] + [x] + rs[m..]
  {
    m := |rs|;
    assert rs[..m] == rs && rs[m..] == [];
    while m > 0 && Priority(rs[m - 1]) < Priority(x)
      invariant m <= |rs|
      invariant Insert(rs, x) == Insert(rs[..m], x) + rs[m..]
    {
      PlaceStep(rs, x, m);
      m := m - 1;
    }
    assert Insert(rs[..m], x) == rs[..m] + [x];
  }

  method SortStable(rs: seq<Request>) returns (out: seq<Request>)
    ensures out == ByPriority(rs)
  {
    out := [];
    var k := 0;
    assert rs[..0] == [];
    while k < |rs|
      invariant k <= |rs|
      invariant out == ByPriority(rs[..k])
    {
      var m := Place(out, rs[k]);
      out := out[..m] + [rs[k]] + out[m..];
      assert rs[..k + 1][..k] == rs[..k];
      k := k + 1;
    }
    assert rs[..|rs|] == rs;
  }

  // The checks of a stored state, with the set of sequence numbers seen so far.
  method CheckState(s: State) returns (ok: bool)
    ensures ok == Valid(s)
  {
    if s.after < 0 {
      return false;
    }
    var seen: set<int> := {};
    var k := 0;
    while k < |s.requests|
      invariant k <= |s.requests|
      invariant forall x :: x in seen <==> exists j :: 0 <= j < k && s.requests[j].event.seqNo == x
      invariant forall j :: 0 <= j < k ==> 0 < s.requests[j].event.seqNo <= s.after && ValidRecord(s.requests[j])
      invariant forall i, j :: 0 <= i < j < k ==> s.requests[i].event.seqNo != s.requests[j].event.seqNo
    {
      var r := s.requests[k];
      if r.event.seqNo <= 0 || r.event.seqNo > s.after || r.event.seqNo in seen {
        return false;
      }
      if r.status.Unrecognised? || (r.status.Running? && r.claim.None?) {
        return false;
      }
      if Awaiting(r.status)
         && (r.approval.None? || r.approval.value.id == "" || r.approval.value.question == "" || r.claim.Some?) {
        return false;
      }
      if r.claim.Some? && (r.claim.value.workerId == "" || r.claim.value.token == "") {
        return false;
      }
      seen := seen + {r.event.seqNo};
      k := k + 1;
    }
    return true;
  }

  // Whether everything reachable from the record exists and depends on nothing cyclic.
  method CheckGraph(rs: seq<Request>, id: int) returns (ok: bool)
    requires UniqueIds(rs)
    ensures ok <==> Sound(rs, id)
  {
    var check := new Dependencies.Check(rs);
    ok := check.Visit(id);
  }

  // A classification is attached to every message record it is about.
  method Enrich(before: seq<Request>, sem: Semantic) returns (rs: seq<Request>)
    ensures rs == ClassifyAll(before, sem)
  {
    rs := before;
    var k := 0;
    while k < |rs|
      invariant k <= |rs| == |before|
      invariant forall j :: 0 <= j < |rs| ==> rs[j] == if j < k then Classified(before[j], sem) else before[j]
    {
      if rs[k].event.messageId == sem.messageId && rs[k].event.kind == "message" {
        rs := rs[k := rs[k].(event := rs[k].event.(semantic := Some(sem)))];
      }
      k := k + 1;
    }
    assert rs == ClassifyAll(before, sem);
  }

  method CheckName(worker: string) returns (ok: bool)
    ensures ok <==> WorkerName(worker)
  {
    if Blank(worker) || ByteLen(worker) > 200 {
      return false;
    }
    var k := 0;
    while k < |worker|
      invariant k <= |worker|
      invariant forall j :: 0 <= j < k ==> worker[j] !in {'\0', '\r', '\n'}
    {
      if worker[k] in {'\0', '\r', '\n'} {
        assert worker[k] in worker;
        return false;
      }
      k := k + 1;
    }
    return true;
  }

  method ResourcesNamed(resources: seq<string>) returns (ok: bool)
    ensures ok <==> !exists key <- resources :: Blank(key) || ByteLen(key) > 4096
  {
    var k := 0;
    while k < |resources|
      invariant k <= |resources|
      invariant forall j :: 0 <= j < k ==> !(Blank(resources[j]) || ByteLen(resources[j]) > 4096)
    {
      if Blank(resources[k]) || ByteLen(resources[k]) > 4096 {
        return false;
      }
      k := k + 1;
    }
    return true;
  }

  // Applies the clarifications in turn; None as soon as one of them is not allowed.
  method ApplyUpdates(before: seq<Request>, n: nat, updates: seq<(int, string)>) returns (out: Option<seq<Request>>)
    requires n < |before|
    ensures out == Clarify(before, n, updates)
  {
    var rs := before;
    var k := 0;
    while k < |updates|
      invariant k <= |updates| && |rs| == |before|
      invariant Clarify(before, n, updates) == Clarify(rs, n, updates[k..])
    {
      var (target, text) := updates[k];
      assert updates[k..][1..] == updates[k + 1..];
      var t := Find(rs, target);
      if t == |rs| || Terminal(rs[t].status) || rs[t].event.channelId != rs[n].event.channelId {
        return None;
      }
      if Blank(text) || ByteLen(text) > 4000 {
        return None;
      }
      if (rs[n].attempt, target) !in rs[n].appliedUpdates {
        var context := Appended(rs[t].context, "Peer clarification from " + rs[n].event.messageId, text);
        if ByteLen(context) > 65536 {
          return None;
        }
        rs := rs[t := rs[t].(context := context)];
        rs := rs[n := rs[n].(appliedUpdates := rs[n].appliedUpdates + {(rs[n].attempt, target)})];
      }
      k := k + 1;
    }
    return Some(rs);
  }

  // Reading a file of either version.
  method Load(f: File) returns (out: Option<State>)
    ensures out == Migrate(f)
  {
    if f.version > 2 || f.after < 0 {
      return None;
    }
    var s := State(f.after, f.revision, f.requests, f.policy);
    if f.version < 2 {
      if (f.claim.Some? || f.reply.Some?) && f.pending.None? {
        return None;
      }
      if f.pending.Some? {
        if f.pending.value.seqNo <= f.after {
          return None;
        }
        var status := Ready;
        if f.claim.Some? {
          status := Running;
        }
        if f.reply.Some? {
          status := ReplyPending;
        }
        var r := NewRequest(f.pending.value, status, "").(claim := f.claim, reply := f.reply);
        s := s.(requests := s.requests + [r], after := f.pending.value.seqNo);
      }
    }
    var ok := CheckState(s);
    if !ok {
      return None;
    }
    var sorted := SortStable(s.requests);
    return Some(s.(requests := sorted));
  }

  // No execution survives a restart: running work must be recovered.
  method Recover(agent: string, before: seq<Request>) returns (rs: seq<Request>, recovered: bool)
    ensures rs == RecoverAll(agent, before)
    ensures recovered <==> exists r <- before :: r.status.Running?
  {
    rs, recovered := before, false;
    var k := 0;
    while k < |rs|
      invariant k <= |rs| == |before|
      invariant forall j :: 0 <= j < |rs| ==> rs[j] == if j < k then Recovered(agent, before[j]) else before[j]
      invariant recovered <==> exists j :: 0 <= j < k && before[j].status.Running?
    {
      var r := rs[k];
      r := r.(event := r.event.(mentioned := r.event.kind == "message" && agent in r.event.mentions));
      if r.status.Running? {
        r := r.(status := NeedsRecovery);
        recovered := true;
      }
      rs := rs[k := r];
      k := k + 1;
    }
    assert rs == RecoverAll(agent, before);
  }

  // What a new process makes of the loaded records, and that they can be saved.
  lemma ReopenedAs(agent: string, f: File, rs: seq<Request>)
    requires Migrate(f).Some?
    requires rs == RecoverAll(agent, Migrate(f).value.requests)
    ensures var s := Migrate(f).value;
            var busy := exists r <- s.requests :: r.status.Running?;
            && Reopened(agent, f) == Some(s.(requests := if busy then ByPriority(rs) else rs))
            && Valid(s.(requests := rs))
  {
    var s := Migrate(f).value;
    MigrationMeaning(f);
    SortedIsFixed(s.requests);
    RecoveredValid(agent, s);
  }

  lemma ClaimAs(cfg: Config, s: State, n: nat, worker: string, token: string, start: bool, held: Option<string>)
    requires WorkerName(worker) && n < |s.requests| && n == Position(s.requests, s.requests[n].event.seqNo)
    requires var r := s.requests[n];
             var open := r.reply.None? && Accepts(cfg, s.requests, r.event);
             && (start <==> open && r.claim.None? && Eligible(s, r))
             && (held == if open && r.claim.Some? && r.claim.value.workerId == worker && r.status.Running?
                         then Some(r.claim.value.token) else None)
    ensures var r := s.requests[n];
            var id := r.event.seqNo;
            && Acquired(cfg, s, id, worker, token) == (if start then Some(token) else held)
            && ClaimWork(cfg, s, id, worker, token) ==
               if start then SaveRecord(s, n, r.(claim := Some(Commitments.Claim(worker, token)), status := Running,
                                                 attempt := r.attempt + 1), 0)
               else Unchanged
  {
  }

  lemma UpdateKeepsIds(rs: seq<Request>, n: nat, r: Request)
    requires UniqueIds(rs) && n < |rs| && r.event.seqNo == rs[n].event.seqNo
    ensures UniqueIds(rs[n := r])
  {
  }

  class Controller {
    var cfg: Config
    var state: State

    // The stored state is always one that could be loaded again.
    ghost predicate Stored()
      reads this
    {
      Valid(state) && Ordered(state.requests)
    }

    constructor (cfg: Config, s: State)
      ensures this.cfg == cfg && state == s
    {
      this.cfg := cfg;
      state := s;
    }

    // Takes over a stored file: None when it is refused, or when recovered work cannot be saved.
    static method Open(cfg: Config, f: File, disk: bool) returns (c: Option<Controller>)
      ensures Migrate(f).None? ==> c.None?
      ensures c.Some? ==> fresh(c.value) && c.value.cfg == cfg && Some(c.value.state) == Reopened(cfg.agent, f)
      ensures c.None? && Migrate(f).Some? ==> !disk && exists r <- Migrate(f).value.requests :: r.status.Running?
    {
      var stored := Load(f);
      if stored.None? {
        return None;
      }
      var rs, recovered := Recover(cfg.agent, stored.value.requests);
      ReopenedAs(cfg.agent, f, rs);
      var inbox := new Controller(cfg, stored.value.(requests := rs));
      if recovered {
        var err := inbox.Save(inbox.state, disk);
        if err.Some? {
          return None;
        }
      }
      return Some(inbox);
    }

    method Save(s: State, disk: bool) returns (err: Option<Refusal>)
      modifies this`state
      ensures state == After(old(state), Operations.Save(s), disk)
      ensures err == Failure(Operations.Save(s), disk)
    {
      var ok := CheckState(s);
      if !ok {
        return Some(InvalidState);
      }
      if !disk {
        return Some(WriteFailed);
      }
      var sorted := SortStable(s.requests);
      state := s.(requests := sorted);
      return None;
    }

    // Commits a change of one record, which is what the verdict v asks for.
    method SaveOne(n: nat, r: Request, bump: int, disk: bool, ghost v: Verdict) returns (err: Option<Refusal>)
      requires n < |state.requests| && v == SaveRecord(state, n, r, bump)
      modifies this`state
      ensures state == After(old(state), v, disk) && err == Failure(v, disk)
    {
      err := Save(state.(requests := state.requests[n := r], revision := state.revision + bump), disk);
    }

    method CountRunning() returns (running: nat)
      ensures running == RunningCount(state.requests)
    {
      running := 0;
      var k := 0;
      assert state.requests[..0] == [];
      while k < |state.requests|
        invariant k <= |state.requests|
        invariant running == RunningCount(state.requests[..k])
      {
        assert state.requests[..k + 1][..k] == state.requests[..k];
        if state.requests[k].status.Running? {
          running := running + 1;
        }
        k := k + 1;
      }
      assert state.requests[..|state.requests|] == state.requests;
    }

    method SharesResource(a: Request, r: Request) returns (shared: bool)
      ensures shared <==> exists key :: key in a.resources && key in r.resources
    {
      var i := 0;
      while i < |a.resources|
        invariant i <= |a.resources|
        invariant forall m :: 0 <= m < i ==> a.resources[m] !in r.resources
      {
        var j := 0;
        while j < |r.resources|
          invariant j <= |r.resources|
          invariant forall m :: 0 <= m < j ==> a.resources[i] != r.resources[m]
        {
          if a.resources[i] == r.resources[j] {
            assert a.resources[i] in a.resources && a.resources[i] in r.resources;
            return true;
          }
          j := j + 1;
        }
        i := i + 1;
      }
      return false;
    }

    method DependenciesDone(r: Request) returns (done: bool)
      ensures done <==> forall d <- r.dependencies :: Done(state.requests, d)
    {
      var k := 0;
      while k < |r.dependencies|
        invariant k <= |r.dependencies|
        invariant forall j :: 0 <= j < k ==> Done(state.requests, r.dependencies[j])
      {
        var n := Find(state.requests, r.dependencies[k]);
        if n == |state.requests| || !state.requests[n].status.Completed? {
          assert !Done(state.requests, r.dependencies[k]);
          return false;
        }
        k := k + 1;
      }
      return true;
    }

    method IsEligible(r: Request) returns (yes: bool)
      ensures yes == Eligible(state, r)
    {
      if !r.status.Ready? {
        return false;
      }
      if Notice(r.event) {
        return true;
      }
      var running := CountRunning();
      if running >= Limit(state.policy) {
        return false;
      }
      var done := DependenciesDone(r);
      if !done {
        return false;
      }
      var k := 0;
      while k < |state.requests|
        invariant k <= |state.requests|
        invariant forall j :: 0 <= j < k ==> state.requests[j].claim.Some? ==> !Conflict(state.requests[j], r)
      {
        var a := state.requests[k];
        if a.claim.Some? {
          var shared := SharesResource(a, r);
          if shared || Conflict(a.(resources := []), r.(resources := [])) {
            assert Conflict(a, r) && a in state.requests;
            return false;
          }
          assert !Conflict(a, r);
        }
        k := k + 1;
      }
      return true;
    }

    // The record to work on next, if any.
    method NextRunnable() returns (n: nat)
      ensures n == Runnable(state)
    {
      n := 0;
      while n < |state.requests|
        invariant n <= |state.requests|
        invariant Runnable(state) == FirstEligible(state, n)
      {
        var yes := IsEligible(state.requests[n]);
        if yes {
          return n;
        }
        n := n + 1;
      }
    }

    method Ingest(raw: Event, valid: bool, disk: bool) returns (accepted: bool, err: Option<Refusal>)
      modifies this`state
      ensures state == After(old(state), Operations.Ingest(cfg, old(state), raw, valid), disk)
      ensures err == Failure(Operations.Ingest(cfg, old(state), raw, valid), disk)
      ensures accepted <==> raw.seqNo > old(state).after && Taken(cfg, old(state), raw, valid)
                            && !IsClassification(Received(cfg, raw))
    {
      if raw.seqNo <= state.after {
        return false, None;
      }
      var e := raw.(mentioned := raw.kind == "message" && cfg.agent in raw.mentions);
      accepted := valid && Accepts(cfg, state.requests, e);
      var s := state.(after := e.seqNo);
      if accepted && IsClassification(e) {
        var rs := Enrich(s.requests, e.semantic.value);
        s := s.(requests := rs + [NewRequest(e, Completed, CLASSIFICATION_NOTE)]);
        err := Save(s, disk);
        return false, err;
      }
      if accepted {
        s := s.(requests := s.requests + [NewRequest(e, Ready, "")]);
      }
      err := Save(s, disk);
    }

    // Whether a new claim may be given, or which one the worker already holds.
    method Holder(n: nat, worker: string) returns (start: bool, held: Option<string>)
      requires n < |state.requests|
      ensures var r := state.requests[n];
              var open := r.reply.None? && Accepts(cfg, state.requests, r.event);
              && (start <==> open && r.claim.None? && Eligible(state, r))
              && (held == if open && r.claim.Some? && r.claim.value.workerId == worker && r.status.Running?
                          then Some(r.claim.value.token) else None)
    {
      var r := state.requests[n];
      if r.reply.Some? || !Accepts(cfg, state.requests, r.event) {
        return false, None;
      }
      if r.claim.Some? {
        if r.claim.value.workerId != worker || !r.status.Running? {
          return false, None;
        }
        return false, Some(r.claim.value.token);
      }
      start := IsEligible(r);
      held := None;
    }

    // Some(token) is the claim now held by the worker.
    method Claim(id: int, worker: string, newToken: string, disk: bool) returns (held: Option<string>, err: Option<Refusal>)
      modifies this`state
      ensures state == After(old(state), ClaimWork(cfg, old(state), id, worker, newToken), disk)
      ensures err == Failure(ClaimWork(cfg, old(state), id, worker, newToken), disk)
      ensures held == if err.Some? then None else Acquired(cfg, old(state), id, worker, newToken)
    {
      var named := CheckName(worker);
      if !named {
        return None, Some(BadWorker);
      }
      var n := Find(state.requests, id);
      if n == |state.requests| {
        return None, None;
      }
      var start;
      start, held := Holder(n, worker);
      ClaimAs(cfg, state, n, worker, newToken, start, held);
      if !start {
        return held, None;
      }
      var r := state.requests[n];
      r := r.(claim := Some(Commitments.Claim(worker, newToken)), status := Running, attempt := r.attempt + 1);
      ghost var v := ClaimWork(cfg, state, id, worker, newToken);
      assert v == SaveRecord(state, n, r, 0);
      err := SaveOne(n, r, 0, disk, v);
      held := if err.Some? then None else Some(newToken);
    }

    method Release(id: int, token: string, disk: bool) returns (err: Option<Refusal>)
      modifies this`state
      ensures state == After(old(state), Operations.Release(old(state), id, token), disk)
      ensures err == Failure(Operations.Release(old(state), id, token), disk)
    {
      var n := Find(state.requests, id);
      if n == |state.requests| || state.requests[n].claim.None? || state.requests[n].claim.value.token != token {
        return Some(ClaimRequired);
      }
      var r := state.requests[n];
      if r.reply.Some? {
        return Some(ReplyUndelivered);
      }
      r := r.(claim := None, status := Ready);
      err := SaveOne(n, r, 1, disk, Operations.Release(state, id, token));
    }

    method Finish(id: int, disk: bool) returns (err: Option<Refusal>)
      modifies this`state
      ensures state == After(old(state), Operations.Finish(old(state), id), disk)
      ensures err == Failure(Operations.Finish(old(state), id), disk)
    {
      var n := Find(state.requests, id);
      if n == |state.requests| {
        return Some(UnknownRequest);
      }
      var r := state.requests[n];
      if r.status.Completed? || r.status.Declined? {
        return None;
      }
      if r.claim.Some? {
        r := r.(lastClaim := r.claim.value.token);
      }
      r := r.(status := Completed, claim := None, reply := None, deliveryError := false);
      if r.decision == "decline" {
        r := r.(status := Declined);
      }
      err := SaveOne(n, r, 1, disk, Operations.Finish(state, id));
    }

    method Ack(id: int, tokens: seq<string>, disk: bool) returns (err: Option<Refusal>)
      modifies this`state
      ensures state == After(old(state), Operations.Ack(old(state), id, tokens), disk)
      ensures err == Failure(Operations.Ack(old(state), id, tokens), disk)
    {
      var n := Find(state.requests, id);
      if n < |state.requests| {
        var guard := ClaimGuard(state.requests[n], tokens);
        if guard.Some? {
          return guard;
        }
        if state.requests[n].reply.Some? {
          return Some(ReplyUndelivered);
        }
      }
      err := Finish(id, disk);
    }

    method Reply(id: int, text: string, tokens: seq<string>, disk: bool) returns (err: Option<Refusal>)
      modifies this`state
      ensures state == After(old(state), Operations.Reply(old(state), id, text, tokens), disk)
      ensures err == Failure(Operations.Reply(old(state), id, text, tokens), disk)
    {
      var n := Find(state.requests, id);
      if n == |state.requests| {
        return Some(UnknownRequest);
      }
      var r := state.requests[n];
      if r.status.Completed? {
        return None;
      }
      var guard := ClaimGuard(r, tokens);
      if guard.Some? {
        return guard;
      }
      if NeverAnswered(r.event) {
        return Some(NoticeNeedsNoReply);
      }
      if r.reply.None? {
        if Blank(text) || ByteLen(text) > 65536 {
          return Some(BadText);
        }
        r := r.(reply := Some(text), status := ReplyPending);
        err := SaveOne(n, r, 0, disk, Operations.Reply(state, id, text, tokens));
      } else {
        err := None;
      }
    }

    // The two ends of a delivery; everything else may happen in between.
    method BeginDelivery(id: int) returns (text: Option<string>)
      ensures text == Outgoing(state, id)
    {
      var n := Find(state.requests, id);
      text := if n == |state.requests| then None else state.requests[n].reply;
    }

    method EndDelivery(id: int, delivered: bool, disk: bool) returns (err: Option<Refusal>)
      modifies this`state
      ensures var v := if delivered then Operations.Finish(old(state), id) else DeliveryFailed(old(state), id);
              state == After(old(state), v, disk) && err == Failure(v, disk)
    {
      if delivered {
        err := Finish(id, disk);
      } else {
        var n := Find(state.requests, id);
        if n < |state.requests| && state.requests[n].reply.Some? && !state.requests[n].deliveryError {
          var r := state.requests[n].(deliveryError := true);
          err := SaveOne(n, r, 0, disk, DeliveryFailed(state, id));
        } else {
          err := None;
        }
      }
    }

    method Suspend(id: int, token: string, o: Report, decisionId: string, disk: bool) returns (err: Option<Refusal>)
      requires ReportFault(token, o).None? && !o.status.Completed?
      modifies this`state
      ensures state == After(old(state), Operations.Suspend(old(state), id, token, o, decisionId), disk)
      ensures err == Failure(Operations.Suspend(old(state), id, token, o, decisionId), disk)
    {
      var n := Find(state.requests, id);
      if n == |state.requests| {
        return Some(UnknownRequest);
      }
      var r := state.requests[n];
      if r.lastClaim == token && r.status == o.status {
        return None;
      }
      if r.claim.None? || r.claim.value.token != token {
        return Some(ClaimRequired);
      }
      if r.reply.Some? {
        return Some(ReplyUndelivered);
      }
      r := r.(status := o.status, summary := o.summary);
      if o.context != "" {
        r := r.(context := Appended(r.context, "Worker checkpoint", o.context));
      }
      if ByteLen(r.context) > 65536 {
        return Some(TooLarge);
      }
      if Awaiting(o.status) {
        r := r.(approval := Some(Approval(decisionId, o.question, o.permission, "pending", "")));
      }
      r := r.(lastClaim := token);
      if !o.status.NeedsRecovery? {
        r := r.(claim := None);
      }
      err := SaveOne(n, r, 1, disk, Operations.Suspend(state, id, token, o, decisionId));
    }

    // A worker's report: first its clarifications, then its completion, reply or suspension.
    // Each part is committed on its own; a refused part ends the call.
    method Outcome(id: int, token: string, o: Report, decisionId: string, disk: bool) returns (err: Option<Refusal>)
      modifies this`state
      ensures ReportFault(token, o).Some? ==> state == old(state) && err == ReportFault(token, o)
      ensures ReportFault(token, o).None? ==>
                var first := if o.updates == [] then Unchanged else Operations.ContextUpdates(old(state), id, token, o.updates);
                var mid := After(old(state), first, disk);
                if Failure(first, disk).Some? then state == mid && err == Failure(first, disk)
                else
                  var second := if !o.status.Completed? then Operations.Suspend(mid, id, token, o, decisionId)
                                else if o.reply.Some? then Operations.Reply(mid, id, o.reply.value, [token])
                                else Operations.Ack(mid, id, [token]);
                  state == After(mid, second, disk) && err == Failure(second, disk)
    {
      if ReportFault(token, o).Some? {
        return ReportFault(token, o);
      }
      if o.updates != [] {
        err := ContextUpdates(id, token, o.updates, disk);
        if err.Some? {
          return;
        }
      }
      if o.status.Completed? {
        if o.reply.Some? {
          err := Reply(id, o.reply.value, [token], disk);
        } else {
          err := Ack(id, [token], disk);
        }
      } else {
        err := Suspend(id, token, o, decisionId, disk);
      }
    }

    method ContextUpdates(id: int, token: string, updates: seq<(int, string)>, disk: bool) returns (err: Option<Refusal>)
      modifies this`state
      ensures state == After(old(state), Operations.ContextUpdates(old(state), id, token, updates), disk)
      ensures err == Failure(Operations.ContextUpdates(old(state), id, token, updates), disk)
    {
      if |updates| > 20 {
        return Some(TooLarge);
      }
      var rs := state.requests;
      var n := Find(rs, id);
      if n == |rs| {
        return Some(UnknownRequest);
      }
      if rs[n].claim.None? || rs[n].claim.value.token != token {
        if rs[n].lastClaim == token && token != "" {
          return None;
        }
        return Some(ClaimRequired);
      }
      var out := ApplyUpdates(rs, n, updates);
      if out.None? {
        return Some(BadTarget);
      }
      err := Save(state.(requests := out.value), disk);
    }

    method Decide(id: int, decisionId: string, action: Action, source: string, context: string, stopped: bool, disk: bool)
      returns (err: Option<Refusal>)
      modifies this`state
      ensures state == After(old(state), Operations.Decide(old(state), id, decisionId, action, source, context, stopped), disk)
      ensures err == Failure(Operations.Decide(old(state), id, decisionId, action, source, context, stopped), disk)
    {
      if ByteLen(source) > 4096 || ByteLen(context) > 65536 {
        return Some(TooLarge);
      }
      if Blank(source) {
        return Some(SourceRequired);
      }
      var n := Find(state.requests, id);
      if n == |state.requests| {
        return Some(UnknownRequest);
      }
      match Rule(state.requests[n], decisionId, action, source, context, stopped)
      case Rejected(why) =>
        err := Some(why);
      case Repeated =>
        err := None;
      case Ruled(r) =>
        if ByteLen(r.context) > 65536 {
          return Some(TooLarge);
        }
        err := SaveOne(n, r, 1, disk, Operations.Decide(state, id, decisionId, action, source, context, stopped));
    }

    method SetPolicy(p: Policy, disk: bool) returns (err: Option<Refusal>)
      modifies this`state
      ensures state == After(old(state), Operations.SetPolicy(old(state), p), disk)
      ensures err == Failure(Operations.SetPolicy(old(state), p), disk)
    {
      if p.maxWorkers < 0 || p.maxWorkers > MOST_WORKERS || |p.resources| > 100 || |p.boundaries| > 100 {
        return Some(BadPolicy);
      }
      var fields := p.resources + p.boundaries;
      var k := 0;
      while k < |fields|
        invariant k <= |fields|
        invariant forall j :: 0 <= j < k ==> ByteLen(fields[j]) <= 4096
      {
        if ByteLen(fields[k]) > 4096 {
          return Some(BadPolicy);
        }
        k := k + 1;
      }
      if Blank(p.source) || Blank(p.scope) || ByteLen(p.source) + ByteLen(p.scope) > 16384 {
        return Some(BadPolicy);
      }
      var revision := 1;
      if state.policy.Some? {
        revision := state.policy.value.revision + 1;
      }
      err := Save(state.(policy := Some(p.(revision := revision)), revision := state.revision + 1), disk);
    }

    method Plan(id: int, dependencies: seq<int>, resources: seq<string>, disk: bool) returns (err: Option<Refusal>)
      requires Stored()
      modifies this`state
      ensures state == After(old(state), Operations.Plan(old(state), id, dependencies, resources), disk)
      ensures err == Failure(Operations.Plan(old(state), id, dependencies, resources), disk)
    {
      var n := Find(state.requests, id);
      if n == |state.requests| || !state.requests[n].status.Ready? {
        return Some(NotReady);
      }
      if |dependencies| > 100 || |resources| > 100 {
        return Some(TooLarge);
      }
      var named := ResourcesNamed(resources);
      if !named {
        return Some(BadResource);
      }
      var r := state.requests[n].(dependencies := dependencies, resources := resources);
      var next := state.requests[n := r];
      UpdateKeepsIds(state.requests, n, r);
      var ok := CheckGraph(next, id);
      if !ok {
        return Some(BadDependencies);
      }
      err := SaveOne(n, r, 1, disk, Operations.Plan(state, id, dependencies, resources));
    }

    method Revalidate(disk: bool) returns (err: Option<Refusal>)
      modifies this`state
      ensures state == After(old(state), Operations.Revalidate(cfg, old(state)), disk)
      ensures err == Failure(Operations.Revalidate(cfg, old(state)), disk)
    {
      var rs := state.requests;
      var changed := false;
      var k := 0;
      while k < |rs|
        invariant k <= |rs| == |state.requests| && state == old(state)
        invariant forall j :: 0 <= j < |rs| ==>
          rs[j] == if j < k then Revalidated(cfg, state.requests, state.requests[j]) else state.requests[j]
        invariant changed <==> exists j :: 0 <= j < k && rs[j] != state.requests[j]
      {
        if rs[k].status.Ready? && !Accepts(cfg, state.requests, rs[k].event) {
          rs := rs[k := rs[k].(status := Cancelled)];
          changed := true;
        }
        k := k + 1;
      }
      assert rs == RevalidateAll(cfg, state.requests);
      if changed {
        err := Save(state.(requests := rs), disk);
      } else {
        err := None;
      }
    }
  }
}

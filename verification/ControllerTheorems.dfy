// What holds of every run of the commitment controller.
module ControllerTheorems {
  import opened Text
  import opened Commitments
  import opened Scheduling
  import opened Dependencies
  import opened Operations
  import opened ControllerRuns
  import opened ControllerSteps
  import opened ControllerInvariant
  import opened ControllerLaws

  // ops[k] leads from worlds[k] to worlds[k + 1]; disks[k] says whether its write succeeded.
  datatype Run = Run(worlds: seq<World>, ops: seq<Op>, disks: seq<bool>)

  ghost predicate IsRun(run: Run) {
    && |run.worlds| == |run.ops| + 1 == |run.disks| + 1
    && Inv(run.worlds[0])
    && forall k :: 0 <= k < |run.ops| ==> StepOf(run, k)
  }

  ghost predicate StepOf(run: Run, k: nat)
    requires k < |run.ops| && |run.worlds| == |run.ops| + 1 == |run.disks| + 1
  {
    Enabled(run.worlds[k], run.ops[k]) && run.worlds[k + 1] == Next(run.worlds[k], run.ops[k], run.disks[k])
  }

  lemma {:induction false} RunInv(run: Run, k: nat)
    requires IsRun(run) && k < |run.worlds|
    ensures Inv(run.worlds[k])
  {
    if k > 0 {
      RunInv(run, k - 1);
      assert StepOf(run, k - 1);
      StepKeeps(run.worlds[k - 1], run.ops[k - 1], run.disks[k - 1]);
    }
  }

  // The record with this sequence number.
  function At(w: World, id: int): Option<Request> {
    var n := Position(w.s.requests, id);
    if n < |w.s.requests| then Some(w.s.requests[n]) else None
  }

  lemma AtIs(w: World, r: Request)
    requires UniqueIds(w.s.requests) && r in w.s.requests
    ensures At(w, r.event.seqNo) == Some(r)
  {
    var k :| 0 <= k < |w.s.requests| && w.s.requests[k] == r;
    assert Position(w.s.requests, r.event.seqNo) == k;
  }

  lemma AtOk(w: World, id: int)
    requires Inv(w) && At(w, id).Some?
    ensures RecordOk(w, At(w, id).value) && At(w, id).value in w.s.requests && At(w, id).value.event.seqNo == id
  {
    SaneRecord(w, id);
  }

  lemma SuccessorAt(w: World, op: Op, w2: World, id: int)
    requires UniqueIds(w2.s.requests) && Evolves(w, op, w2.s.requests) && At(w, id).Some?
    ensures At(w2, id).Some? && Lawful(w, op, At(w, id).value, At(w2, id).value)
  {
    var r := At(w, id).value;
    assert HasSuccessor(w, op, r, w2.s.requests);
    var r2 :| r2 in w2.s.requests && Lawful(w, op, r, r2);
    AtIs(w2, r2);
  }

  lemma StepFacts(run: Run, k: nat)
    requires IsRun(run) && k < |run.ops|
    ensures Evolves(run.worlds[k], run.ops[k], run.worlds[k + 1].s.requests)
  {
    RunInv(run, k);
    assert StepOf(run, k);
    StepEvolves(run.worlds[k], run.ops[k], run.disks[k]);
  }

  lemma FailedWrite(run: Run, k: nat)
    requires IsRun(run) && k < |run.ops|
    ensures !run.disks[k] ==> run.worlds[k + 1].s == run.worlds[k].s
  {
    assert StepOf(run, k);
  }

  lemma RunUnique(run: Run, k: nat)
    requires IsRun(run) && k < |run.worlds|
    ensures UniqueIds(run.worlds[k].s.requests)
  {
    RunInv(run, k);
    InvIsValid(run.worlds[k]);
  }

  lemma StepLaw(run: Run, k: nat, id: int)
    requires IsRun(run) && k < |run.ops| && At(run.worlds[k], id).Some?
    ensures At(run.worlds[k + 1], id).Some?
    ensures Lawful(run.worlds[k], run.ops[k], At(run.worlds[k], id).value, At(run.worlds[k + 1], id).value)
  {
    RunUnique(run, k + 1);
    StepFacts(run, k);
    SuccessorAt(run.worlds[k], run.ops[k], run.worlds[k + 1], id);
  }

  lemma RunAt(run: Run, k: nat, r: Request)
    requires IsRun(run) && k < |run.worlds| && r in run.worlds[k].s.requests
    ensures At(run.worlds[k], r.event.seqNo) == Some(r)
  {
    RunUnique(run, k);
    AtIs(run.worlds[k], r);
  }

  lemma RunRecord(run: Run, k: nat, id: int)
    requires IsRun(run) && k < |run.worlds| && At(run.worlds[k], id).Some?
    ensures RecordOk(run.worlds[k], At(run.worlds[k], id).value)
    ensures At(run.worlds[k], id).value in run.worlds[k].s.requests
    ensures At(run.worlds[k], id).value.event.seqNo == id
  {
    RunInv(run, k);
    AtOk(run.worlds[k], id);
  }

  // One step of a run, seen from one record.
  lemma StepAt(run: Run, k: nat, id: int)
    requires IsRun(run) && k < |run.ops| && At(run.worlds[k], id).Some?
    ensures At(run.worlds[k + 1], id).Some?
    ensures Lawful(run.worlds[k], run.ops[k], At(run.worlds[k], id).value, At(run.worlds[k + 1], id).value)
    ensures !run.disks[k] ==> At(run.worlds[k + 1], id) == At(run.worlds[k], id)
    ensures RecordOk(run.worlds[k], At(run.worlds[k], id).value)
    ensures At(run.worlds[k], id).value.event.seqNo == id
  {
    StepLaw(run, k, id);
    FailedWrite(run, k);
    RunRecord(run, k, id);
  }

  // Records are never removed.
  lemma {:induction false} RecordsStay(run: Run, id: int, i: nat, j: nat)
    requires IsRun(run) && i <= j < |run.worlds| && At(run.worlds[i], id).Some?
    ensures At(run.worlds[j], id).Some?
    decreases j
  {
    if i < j {
      RecordsStay(run, id, i, j - 1);
      StepAt(run, j - 1, id);
    }
  }

  // What is completed, declined or cancelled stays so.
  lemma {:induction false} ClosedStays(run: Run, id: int, i: nat, j: nat)
    requires IsRun(run) && i <= j < |run.worlds|
    requires At(run.worlds[i], id).Some? && Terminal(At(run.worlds[i], id).value.status)
    ensures At(run.worlds[j], id).Some? && Terminal(At(run.worlds[j], id).value.status)
    decreases j
  {
    if i < j {
      ClosedStays(run, id, i, j - 1);
      ClosedAt(run, j - 1, id);
    }
  }

  lemma ClosedAt(run: Run, k: nat, id: int)
    requires IsRun(run) && k < |run.ops| && At(run.worlds[k], id).Some? && Terminal(At(run.worlds[k], id).value.status)
    ensures At(run.worlds[k + 1], id).Some? && Terminal(At(run.worlds[k + 1], id).value.status)
  {
    StepAt(run, k, id);
  }

  // ----- Approval gate -----

  ghost predicate Asks(w: World, id: int, question: string) {
    && At(w, id).Some? && At(w, id).value.status.AwaitingApproval?
    && At(w, id).value.approval.Some? && At(w, id).value.approval.value.id == question
  }

  // A record that awaits approval keeps awaiting that approval until the user approves or
  // declines exactly that question, naming a source.
  lemma {:induction false} ApprovalGate(run: Run, id: int, question: string, i: nat, j: nat)
    requires IsRun(run) && i <= j < |run.worlds| && Asks(run.worlds[i], id, question)
    ensures || Asks(run.worlds[j], id, question)
            || exists k :: i <= k < j && Asks(run.worlds[k], id, question)
                 && Decides(run.ops[k], id, question) && run.disks[k]
    decreases j
  {
    if i < j {
      ApprovalGate(run, id, question, i, j - 1);
      if Asks(run.worlds[j - 1], id, question) {
        StepAt(run, j - 1, id);
        if !Asks(run.worlds[j], id, question) {
          assert Decides(run.ops[j - 1], id, question);
        }
      }
    }
  }

  predicate WithinLimits(r: Request, op: Op)
    requires op.OpDecide?
  {
    && ByteLen(op.source) <= 4096 && ByteLen(op.context) <= 65536
    && ByteLen(Appended(r.context, "User decision", op.context)) <= 65536
  }

  lemma DecisionVerdict(s: State, op: Op, id: int, r: Request)
    requires op.OpDecide? && op.id == id && !Blank(op.source)
    requires var n := Position(s.requests, id); n < |s.requests| && s.requests[n] == r
    requires r.status.AwaitingApproval? && r.approval.Some? && r.approval.value.source == ""
    requires Decides(op, id, r.approval.value.id)
    ensures var v := Decide(s, op.id, op.decisionId, op.action, op.source, op.context, op.stopped);
            var next := Rule(r, op.decisionId, op.action, op.source, op.context, op.stopped);
            && next.Ruled? && !next.next.status.AwaitingApproval?
            && next.next.event == r.event
            && (if WithinLimits(r, op) then v == Save(Put(s, Position(s.requests, id), next.next, 1)) else v.Refused?)
  {
  }

  lemma DecisionTakes(w: World, op: Op, id: int, w2: World)
    requires op.OpDecide? && UniqueIds(w2.s.requests)
    requires At(w, id).Some? && At(w, id).value.status.AwaitingApproval?
    requires At(w, id).value.approval.Some? && At(w, id).value.approval.value.source == ""
    requires Decides(op, id, At(w, id).value.approval.value.id) && WithinLimits(At(w, id).value, op)
    requires Decide(w.s, op.id, op.decisionId, op.action, op.source, op.context, op.stopped) == Saved(w2.s)
    ensures At(w2, id).Some? && !At(w2, id).value.status.AwaitingApproval?
  {
    var n := Position(w.s.requests, id);
    var r := w.s.requests[n];
    DecisionVerdict(w.s, op, id, r);
    var next := Rule(r, op.decisionId, op.action, op.source, op.context, op.stopped).next;
    SaveMembers(Put(w.s, n, next, 1), Saved(w2.s));
    assert next == w.s.requests[n := next][n];
    AtIs(w2, next);
  }

  lemma DecideGoes(w: World, op: Op, disk: bool)
    requires Inv(w) && op.OpDecide?
    ensures UniqueIds(Next(w, op, disk).s.requests)
    ensures var v := Decide(w.s, op.id, op.decisionId, op.action, op.source, op.context, op.stopped);
            && v != Refused(InvalidState)
            && Next(w, op, disk).s == After(w.s, v, disk)
  {
    StepKeeps(w, op, disk);
    InvIsValid(Next(w, op, disk));
  }

  // The gate opens exactly then: the decision must also fit the size limits and reach the disk.
  lemma GateOpensExactly(w: World, op: Op, disk: bool, id: int)
    requires Inv(w) && Enabled(w, op)
    requires At(w, id).Some? && At(w, id).value.status.AwaitingApproval?
    ensures At(Next(w, op, disk), id).Some?
    ensures !At(Next(w, op, disk), id).value.status.AwaitingApproval? <==>
              disk && Decides(op, id, At(w, id).value.approval.value.id) && WithinLimits(At(w, id).value, op)
  {
    var w2 := Next(w, op, disk);
    var run := Run([w, w2], [op], [disk]);
    assert IsRun(run);
    var r := At(w, id).value;
    StepAt(run, 0, id);
    if Decides(op, id, r.approval.value.id) {
      DecideGoes(w, op, disk);
      DecisionVerdict(w.s, op, id, r);
      if WithinLimits(r, op) && disk {
        DecisionTakes(w, op, id, w2);
      }
    }
  }

  // ----- One answer per question -----

  // Nobody can answer this question any more.
  ghost predicate Spent(w: World, question: string) {
    && question in w.decisions
    && forall r :: r in w.s.requests && r.approval.Some? && r.approval.value.id == question ==>
         r.approval.value.source != ""
  }

  lemma DecisionsGrow(run: Run, k: nat)
    requires IsRun(run) && k < |run.ops|
    ensures run.worlds[k].decisions <= run.worlds[k + 1].decisions
    ensures run.worlds[k].tokens <= run.worlds[k + 1].tokens
  {
    assert StepOf(run, k);
  }

  lemma SpentStep(run: Run, k: nat, question: string)
    requires IsRun(run) && k < |run.ops| && Spent(run.worlds[k], question)
    ensures Spent(run.worlds[k + 1], question)
  {
    var w, w2 := run.worlds[k], run.worlds[k + 1];
    DecisionsGrow(run, k);
    forall r2 | r2 in w2.s.requests && r2.approval.Some? && r2.approval.value.id == question
      ensures r2.approval.value.source != ""
    {
      var r := Before(run, k, r2);
    }
  }

  // The record that a stored record with a claim, a question or a reply developed from.
  lemma Before(run: Run, k: nat, r2: Request) returns (r: Request)
    requires IsRun(run) && k < |run.ops| && r2 in run.worlds[k + 1].s.requests && !Untouched(r2)
    ensures r in run.worlds[k].s.requests && Lawful(run.worlds[k], run.ops[k], r, r2)
  {
    StepFacts(run, k);
    r :| r in run.worlds[k].s.requests && r.event.seqNo == r2.event.seqNo;
    RunAt(run, k, r);
    RunAt(run, k + 1, r2);
    StepLaw(run, k, r.event.seqNo);
  }

  // At step k the question of record `id` receives its answer.
  ghost predicate Answers(run: Run, k: nat, id: int, question: string)
    requires IsRun(run) && k < |run.ops|
  {
    var before, after := At(run.worlds[k], id), At(run.worlds[k + 1], id);
    && before.Some? && before.value.approval.Some? && before.value.approval.value.id == question
    && before.value.approval.value.source == ""
    && after.Some? && after.value.approval.Some? && after.value.approval.value.id == question
    && after.value.approval.value.source != ""
  }

  lemma AnsweredIsSpent(run: Run, k: nat, id: int, question: string)
    requires IsRun(run) && k < |run.ops| && Answers(run, k, id, question)
    ensures Spent(run.worlds[k + 1], question)
  {
    var w2 := run.worlds[k + 1];
    RunRecord(run, k, id);
    DecisionsGrow(run, k);
    RunRecord(run, k + 1, id);
    var a := At(w2, id).value;
    forall r | r in w2.s.requests && r.approval.Some? && r.approval.value.id == question
      ensures r.approval.value.source != ""
    {
      SameQuestion(run, k + 1, a, r);
    }
  }

  lemma SameQuestion(run: Run, k: nat, a: Request, b: Request)
    requires IsRun(run) && k < |run.worlds| && a in run.worlds[k].s.requests && b in run.worlds[k].s.requests
    requires a.approval.Some? && b.approval.Some? && a.approval.value.id == b.approval.value.id
    ensures a == b
  {
    RunInv(run, k);
    var rs := run.worlds[k].s.requests;
    var i :| 0 <= i < |rs| && rs[i] == a;
    var j :| 0 <= j < |rs| && rs[j] == b;
    assert AllApart(rs);
  }

  lemma {:induction false} SpentStays(run: Run, question: string, i: nat, j: nat)
    requires IsRun(run) && i <= j < |run.worlds| && Spent(run.worlds[i], question)
    ensures Spent(run.worlds[j], question)
    decreases j
  {
    if i < j {
      SpentStays(run, question, i, j - 1);
      SpentStep(run, j - 1, question);
    }
  }

  // A decision ID is answered at most once in a whole run, on whatever record.
  lemma NotAgain(run: Run, question: string, i: nat, a: int, j: nat, b: int)
    requires IsRun(run) && i < j < |run.ops| && Answers(run, i, a, question)
    ensures !Answers(run, j, b, question)
  {
    AnsweredIsSpent(run, i, a, question);
    SpentStays(run, question, i + 1, j);
    if Answers(run, j, b, question) {
      RunRecord(run, j, b);
      assert false;
    }
  }

  lemma AnsweredOnce(run: Run, question: string, i: nat, a: int, j: nat, b: int)
    requires IsRun(run) && i < |run.ops| && j < |run.ops|
    requires Answers(run, i, a, question) && Answers(run, j, b, question)
    ensures i == j && a == b
  {
    if i < j {
      NotAgain(run, question, i, a, j, b);
    } else if j < i {
      NotAgain(run, question, j, b, i, a);
    } else {
      RunRecord(run, i, a);
      RunRecord(run, i, b);
      SameQuestion(run, i, At(run.worlds[i], a).value, At(run.worlds[i], b).value);
    }
  }

  // ----- Ownership -----

  ghost predicate Owns(w: World, id: int, token: string) {
    At(w, id).Some? && At(w, id).value.claim.Some? && At(w, id).value.claim.value.token == token
  }

  lemma OwnedIsOpen(run: Run, k: nat, id: int, token: string)
    requires IsRun(run) && k < |run.worlds| && Owns(run.worlds[k], id, token)
    ensures !Terminal(At(run.worlds[k], id).value.status)
  {
    RunRecord(run, k, id);
  }

  // Between two different owners of one record the first one gave it up, or the controller
  // declared its execution stopped. Neither a restart nor a failed delivery passes ownership on.
  lemma {:induction false} OwnershipTransfer(run: Run, id: int, first: string, second: string, i: nat, j: nat)
    requires IsRun(run) && i <= j < |run.worlds| && first != second
    requires Owns(run.worlds[i], id, first) && Owns(run.worlds[j], id, second)
    ensures exists k :: i <= k < j && Owns(run.worlds[k], id, first) && GivesUp(run.ops[k], id, first) && run.disks[k]
    decreases j - i
  {
    StepAt(run, i, id);
    if Owns(run.worlds[i + 1], id, first) {
      OwnershipTransfer(run, id, first, second, i + 1, j);
    } else if Terminal(At(run.worlds[i + 1], id).value.status) {
      ClosedStays(run, id, i + 1, j);
      OwnedIsOpen(run, j, id, second);
      assert false;
    } else {
      assert GivesUp(run.ops[i], id, first);
    }
  }

  // What is known about the work is never lost: the continuation context only grows, and a
  // record that has been claimed anew counts a further attempt.
  lemma {:induction false} WorkRecorded(run: Run, id: int, i: nat, j: nat)
    requires IsRun(run) && i <= j < |run.worlds| && At(run.worlds[i], id).Some?
    ensures At(run.worlds[j], id).Some?
    ensures var a, b := At(run.worlds[i], id).value, At(run.worlds[j], id).value;
            && a.context <= b.context && a.attempt <= b.attempt
            && (a.attempt == b.attempt ==> b.claim == a.claim || b.claim.None?)
    decreases j
  {
    if i < j {
      WorkRecorded(run, id, i, j - 1);
      WorkAt(run, j - 1, id);
    }
  }

  lemma WorkAt(run: Run, k: nat, id: int)
    requires IsRun(run) && k < |run.ops| && At(run.worlds[k], id).Some?
    ensures At(run.worlds[k + 1], id).Some?
    ensures var r, r2 := At(run.worlds[k], id).value, At(run.worlds[k + 1], id).value;
            && r.context <= r2.context && r.attempt <= r2.attempt
            && (r2.attempt == r.attempt ==> r2.claim == r.claim || r2.claim.None?)
  {
    StepAt(run, k, id);
    WorkStep(run.worlds[k], run.ops[k], At(run.worlds[k], id).value, At(run.worlds[k + 1], id).value);
  }

  lemma WorkStep(w: World, op: Op, r: Request, r2: Request)
    requires Lawful(w, op, r, r2)
    ensures r.context <= r2.context && r.attempt <= r2.attempt
    ensures r2.attempt == r.attempt ==> r2.claim == r.claim || r2.claim.None?
  {
  }

  // A token that was handed out and is held by no record.
  ghost predicate Retired(w: World, token: string) {
    && token in w.tokens
    && forall r :: r in w.s.requests && r.claim.Some? ==> r.claim.value.token != token
  }

  lemma RetiredStep(run: Run, k: nat, token: string)
    requires IsRun(run) && k < |run.ops| && Retired(run.worlds[k], token)
    ensures Retired(run.worlds[k + 1], token)
  {
    DecisionsGrow(run, k);
    forall r2 | r2 in run.worlds[k + 1].s.requests && r2.claim.Some? ensures r2.claim.value.token != token {
      var r := Before(run, k, r2);
      assert StepOf(run, k);
    }
  }

  lemma {:induction false} RetiredForever(run: Run, token: string, i: nat, j: nat)
    requires IsRun(run) && i <= j < |run.worlds| && Retired(run.worlds[i], token)
    ensures Retired(run.worlds[j], token)
    decreases j
  {
    if i < j {
      RetiredForever(run, token, i, j - 1);
      RetiredStep(run, j - 1, token);
    }
  }

  // The operation presents this token as its authority.
  predicate Presents(op: Op, token: string) {
    match op
    case OpRelease(_, t) => t == token
    case OpAck(_, tokens) => tokens == [token]
    case OpReply(_, _, t) => t == token
    case OpUpdates(_, t, _) => t == token
    case OpSuspend(_, t, _, _) => t == token
    case _ => false
  }

  lemma InertVerdict(w: World, op: Op, token: string)
    requires Enabled(w, op) && token != "" && Presents(op, token)
    requires var n := Position(w.s.requests, op.id);
             n < |w.s.requests| && w.s.requests[n].claim.Some? ==> w.s.requests[n].claim.value.token != token
    ensures !VerdictOf(w, op).Saved?
  {
    match op
    case OpRelease(_, _) =>
    case OpAck(_, _) =>
    case OpReply(_, _, _) =>
    case OpUpdates(_, _, _) =>
    case OpSuspend(_, _, _, _) =>
  }

  // Whoever comes back with a retired token changes nothing: at best the call is recognised
  // as the repetition of one that already succeeded.
  lemma RetiredTokenInert(w: World, op: Op, disk: bool, token: string)
    requires Enabled(w, op) && token != "" && Presents(op, token)
    requires forall r :: r in w.s.requests && r.claim.Some? ==> r.claim.value.token != token
    ensures Next(w, op, disk).s == w.s
  {
    var n := Position(w.s.requests, op.id);
    if n < |w.s.requests| {
      assert w.s.requests[n] in w.s.requests;
    }
    InertVerdict(w, op, token);
  }

  // ----- Replies -----

  // A reply in waiting stays, word for word, until it has been delivered.
  lemma {:induction false} ReplyWaits(run: Run, id: int, text: string, i: nat, j: nat)
    requires IsRun(run) && i <= j < |run.worlds|
    requires At(run.worlds[i], id).Some? && At(run.worlds[i], id).value.reply == Some(text)
    ensures || (At(run.worlds[j], id).Some? && At(run.worlds[j], id).value.reply == Some(text)
                && At(run.worlds[j], id).value.status.ReplyPending?)
            || exists k :: i <= k < j && run.ops[k].OpPosted? && run.worlds[k].flight == Some(Post(id, text)) && run.disks[k]
    decreases j
  {
    if i == j {
      RunRecord(run, i, id);
    } else {
      ReplyWaits(run, id, text, i, j - 1);
      if At(run.worlds[j - 1], id).Some? && At(run.worlds[j - 1], id).value.reply == Some(text) {
        StepAt(run, j - 1, id);
        if At(run.worlds[j], id).value.reply != Some(text) {
          RunInv(run, j - 1);
          FlightHasReply(run.worlds[j - 1]);
          assert run.worlds[j - 1].flight == Some(Post(id, text));
        }
      }
    }
  }

  // While a post is under way, its record keeps exactly the text that was posted.
  lemma InFlightFrozen(run: Run, k: nat)
    requires IsRun(run) && k < |run.worlds| && run.worlds[k].flight.Some?
    ensures var p := run.worlds[k].flight.value; var r := At(run.worlds[k], p.id);
            r.Some? && r.value.reply == Some(p.text) && r.value.status.ReplyPending?
  {
    RunInv(run, k);
    FlightHasReply(run.worlds[k]);
    RunRecord(run, k, run.worlds[k].flight.value.id);
  }

  lemma {:induction false} PostsAccumulate(run: Run, i: nat, j: nat)
    requires IsRun(run) && i <= j < |run.worlds|
    ensures run.worlds[i].posts <= run.worlds[j].posts
    decreases j
  {
    if i < j {
      PostsAccumulate(run, i, j - 1);
      assert StepOf(run, j - 1);
    }
  }

  lemma PostIsRecorded(run: Run, k: nat)
    requires IsRun(run) && k < |run.ops| && run.ops[k].OpPost?
    ensures Outgoing(run.worlds[k].s, run.ops[k].id).Some?
    ensures Post(run.ops[k].id, Outgoing(run.worlds[k].s, run.ops[k].id).value) in run.worlds[k + 1].posts
  {
    assert StepOf(run, k);
    var p := Post(run.ops[k].id, Outgoing(run.worlds[k].s, run.ops[k].id).value);
    assert run.worlds[k + 1].posts == run.worlds[k].posts + [p];
  }

  // All posts for one record, in a whole run, carry the same text.
  lemma OneTextPerRecord(run: Run, i: nat, j: nat)
    requires IsRun(run) && i <= j < |run.ops|
    requires run.ops[i].OpPost? && run.ops[j].OpPost? && run.ops[i].id == run.ops[j].id
    ensures Outgoing(run.worlds[i].s, run.ops[i].id) == Outgoing(run.worlds[j].s, run.ops[j].id)
    ensures Outgoing(run.worlds[i].s, run.ops[i].id).Some?
  {
    PostIsRecorded(run, i);
    PostIsRecorded(run, j);
    PostsAccumulate(run, i + 1, j + 1);
    RunInv(run, j + 1);
  }

  // ----- Locks and workers -----

  // Two records with claims never share a resource or a collaboration request, whatever
  // their states; connection notices are not work and are exempt.
  lemma LocksExclude(run: Run, k: nat, a: int, b: int)
    requires IsRun(run) && k < |run.worlds| && a != b
    requires At(run.worlds[k], a).Some? && At(run.worlds[k], a).value.claim.Some? && !Notice(At(run.worlds[k], a).value.event)
    requires At(run.worlds[k], b).Some? && At(run.worlds[k], b).value.claim.Some? && !Notice(At(run.worlds[k], b).value.event)
    ensures Exclusive(At(run.worlds[k], a).value, At(run.worlds[k], b).value)
    ensures At(run.worlds[k], a).value.claim.value.token != At(run.worlds[k], b).value.claim.value.token
  {
    RunInv(run, k);
    var rs := run.worlds[k].s.requests;
    var i, j := Position(rs, a), Position(rs, b);
    if i < j { assert Apart(rs[i], rs[j]); } else { assert Apart(rs[j], rs[i]); }
  }

  // Running work never exceeds the largest limit that has been in force.
  lemma {:induction false} WorkerBound(run: Run, k: nat) returns (m: nat)
    requires IsRun(run) && k < |run.worlds| && run.worlds[0].peak == Limit(run.worlds[0].s.policy)
    ensures m <= k && run.worlds[k].peak == Limit(run.worlds[m].s.policy)
    ensures Workers(run.worlds[k].s.requests) <= Limit(run.worlds[m].s.policy) <= MOST_WORKERS
  {
    RunInv(run, k);
    if k == 0 {
      m := 0;
    } else {
      m := WorkerBound(run, k - 1);
      assert StepOf(run, k - 1);
      if run.worlds[k].peak != run.worlds[k - 1].peak {
        m := k;
      }
    }
  }

  // ----- Dependencies and order -----

  // No chain of dependencies ever leaves the known records or returns to one of them.
  lemma DependenciesStayAcyclic(run: Run, k: nat, w: seq<int>)
    requires IsRun(run) && k < |run.worlds|
    requires Walk(run.worlds[k].s.requests, w) && Known(run.worlds[k].s.requests, w[0])
    ensures Clean(run.worlds[k].s.requests, w)
  {
    RunInv(run, k);
    SoundMeansAcyclic(run.worlds[k].s.requests, w[0]);
    var r :| r in run.worlds[k].s.requests && r.event.seqNo == w[0];
    assert Sound(run.worlds[k].s.requests, r.event.seqNo);
  }

  // The records stay sorted by priority, and join requests and direct mentions stay in the
  // order in which they arrived.
  lemma OrderHolds(run: Run, k: nat, i: nat, j: nat)
    requires IsRun(run) && k < |run.worlds| && i < j < |run.worlds[k].s.requests|
    ensures var a, b := run.worlds[k].s.requests[i], run.worlds[k].s.requests[j];
            && Priority(a) >= Priority(b)
            && (Priority(a) == Priority(b) >= 2 ==> a.event.seqNo < b.event.seqNo)
  {
    RunInv(run, k);
    var a, b := run.worlds[k].s.requests[i], run.worlds[k].s.requests[j];
    assert Priority(a) >= 2 ==> Urgency(a.event) == Priority(a);
    assert Priority(b) >= 2 ==> Urgency(b.event) == Priority(b);
  }

  predicate IsJoin(r: Request) {
    r.event.kind == "join_requested"
  }

  predicate IsDirect(agent: string, r: Request) {
    r.event.kind == "message" && agent in r.event.mentions
  }

  // A classification that calls for attention, with enough confidence.
  predicate IsPressing(r: Request) {
    && r.event.semantic.Some? && r.event.semantic.value.confidence >= 0.8
    && r.event.semantic.value.classification in {"human_decision", "blocker", "changed_requirement", "agent_work"}
  }

  // Join requests come before everything else, then messages that mention the agent, then what
  // is classified as pressing.
  lemma UrgentFirst(run: Run, k: nat, i: nat, j: nat)
    requires IsRun(run) && k < |run.worlds| && i < j < |run.worlds[k].s.requests|
    ensures var a, b := run.worlds[k].s.requests[i], run.worlds[k].s.requests[j];
            var agent := run.worlds[k].agent;
            && (IsJoin(b) ==> IsJoin(a))
            && (IsDirect(agent, b) ==> IsJoin(a) || IsDirect(agent, a))
            && (IsPressing(b) ==> IsJoin(a) || IsDirect(agent, a) || IsPressing(a))
  {
    RunInv(run, k);
    var rs := run.worlds[k].s.requests;
    assert rs[i] in rs && rs[j] in rs;
    assert Priority(rs[i]) >= Priority(rs[j]);
    assert RecordOk(run.worlds[k], rs[i]) && RecordOk(run.worlds[k], rs[j]);
  }

  // ----- Beneath the tool surface -----

  lemma ReopenedValid(s: State, n: nat, text: string)
    requires Valid(s) && n < |s.requests| && s.requests[n].claim.None?
    ensures Valid(Put(s, n, s.requests[n].(reply := Some(text), status := ReplyPending), 0))
  {
  }

  // Called without a claim, below the tools, a reply can re-open what was closed: exactly
  // when the record was declined or cancelled, can be answered at all, and the text is acceptable.
  lemma UnclaimedReplyReopens(w: World, id: int, text: string)
    requires Inv(w) && At(w, id).Some? && Terminal(At(w, id).value.status)
    ensures Reply(w.s, id, text, []).Saved? <==>
              && !At(w, id).value.status.Completed? && !NeverAnswered(At(w, id).value.event)
              && !Blank(text) && ByteLen(text) <= 65536
  {
    AtOk(w, id);
    InvIsValid(w);
    ReopenedValid(w.s, Position(w.s.requests, id), text);
  }
}

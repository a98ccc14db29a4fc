// An inbox from its creation on: what the run theorems say when nothing came before, and
// receipt interleaved with everything else.
module Lifetimes {
  import opened Text
  import opened Commitments
  import opened Scheduling
  import opened Dependencies
  import opened Operations
  import opened ControllerRuns
  import opened ControllerSteps
  import opened ControllerInvariant
  import opened ControllerTheorems
  import opened Storage

  // A run that begins with a new inbox.
  ghost predicate IsLifetime(run: Run, agent: string) {
    && |run.worlds| == |run.ops| + 1 == |run.disks| + 1
    && run.worlds[0] == Fresh(agent)
    && forall k :: 0 <= k < |run.ops| ==> StepOf(run, k)
  }

  lemma LifetimeIsRun(run: Run, agent: string)
    requires IsLifetime(run, agent)
    ensures IsRun(run)
  {
    FreshInv(agent);
  }

  // At any point of its life the stored file can be taken over by a new process, with every
  // record, the cursor and the policy; and running work is within a limit that was once in
  // force.
  lemma AlwaysRecoverable(run: Run, agent: string, k: nat) returns (m: nat)
    requires IsLifetime(run, agent) && k < |run.worlds|
    ensures var w := run.worlds[k];
            && Reopened(w.agent, Written(w.s)).Some?
            && var s := Reopened(w.agent, Written(w.s)).value;
               && s.after == w.s.after && s.policy == w.s.policy && |s.requests| == |w.s.requests|
               && forall n :: 0 <= n < |s.requests| ==>
                    s.requests[n].(status := w.s.requests[n].status) == w.s.requests[n] && !s.requests[n].status.Running?
    ensures m <= k && Workers(run.worlds[k].s.requests) <= Limit(run.worlds[m].s.policy) <= MOST_WORKERS
  {
    LifetimeIsRun(run, agent);
    RunInv(run, k);
    CrashRecovery(run.worlds[k]);
    m := WorkerBound(run, k);
  }

  // ----- Receipt among other operations -----

  lemma CursorMoves(w: World, op: Op)
    requires Enabled(w, op)
    ensures var v := VerdictOf(w, op);
            v.Saved? ==> v.next.after == if op.OpIngest? then op.event.seqNo else w.s.after
    ensures op.OpIngest? ==> (VerdictOf(w, op).Unchanged? <==> op.event.seqNo <= w.s.after)
  {
  }

  lemma CursorStep(run: Run, k: nat)
    requires IsRun(run) && k < |run.ops|
    ensures run.worlds[k].s.after <= run.worlds[k + 1].s.after
    ensures run.ops[k].OpIngest? && run.disks[k] ==> run.worlds[k + 1].s.after >= run.ops[k].event.seqNo
  {
    assert StepOf(run, k);
    CursorMoves(run.worlds[k], run.ops[k]);
    if run.ops[k].OpIngest? {
      RunInv(run, k);
      StepKeeps(run.worlds[k], run.ops[k], run.disks[k]);
      IngestNeverRefuses(run.worlds[k], run.ops[k]);
    }
  }

  lemma {:induction false} CursorGrows(run: Run, i: nat, j: nat)
    requires IsRun(run) && i <= j < |run.worlds|
    ensures run.worlds[i].s.after <= run.worlds[j].s.after
    decreases j
  {
    if i < j {
      CursorGrows(run, i, j - 1);
      CursorStep(run, j - 1);
    }
  }

  // Whatever happens between two deliveries of an event, claims, decisions and restarts
  // included: once one was stored, the other changes nothing.
  lemma TakenOnce(run: Run, i: nat, j: nat)
    requires IsRun(run) && i < j < |run.ops| && run.ops[i].OpIngest? && run.ops[j].OpIngest?
    requires run.ops[j].event.seqNo <= run.ops[i].event.seqNo && run.disks[i]
    ensures run.worlds[j + 1].s == run.worlds[j].s
  {
    CursorStep(run, i);
    CursorGrows(run, i + 1, j);
    assert StepOf(run, j);
    CursorMoves(run.worlds[j], run.ops[j]);
  }

  lemma IngestNeverRefuses(w: World, op: Op)
    requires Enabled(w, op) && op.OpIngest? && VerdictOf(w, op) != Refused(InvalidState)
    ensures !VerdictOf(w, op).Refused?
  {
  }

  // ----- A reply beneath the tools -----

  // A message from a peer arrives; then the peer is taken off the list of those listened to.
  const EVENT := Event(1, "message", "c", "m", "peer", [], false, false, false, None, None, None)
  const WIDE := Config("me", ["peer"], false, false)
  const NARROW := Config("me", [], false, false)
  const WAITING := NewRequest(EVENT, Ready, "")
  const DROPPED := NewRequest(EVENT, Cancelled, "")

  function Holding(rs: seq<Request>): World {
    World("me", State(1, 0, rs, None), None, [], {}, {}, DEFAULT_WORKERS)
  }

  function Reopening(): Run {
    Run([Fresh("me"), Holding([WAITING]), Holding([DROPPED])], [OpIngest(WIDE, EVENT, true), OpRevalidate(NARROW)], [true, true])
  }

  lemma OneRecord(r: Request)
    ensures ByPriority([r]) == [r] && ByPriority([]) == []
  {
    assert [r][..0] == [];
  }

  lemma Arrives()
    ensures Ingest(WIDE, Fresh("me").s, EVENT, true) == Saved(State(1, 0, [WAITING], None))
  {
    OneRecord(WAITING);
    assert [] + [WAITING] == [WAITING];
  }

  lemma IsDropped()
    ensures Revalidate(NARROW, State(1, 0, [WAITING], None)) == Saved(State(1, 0, [DROPPED], None))
  {
    OneRecord(DROPPED);
    assert RevalidateAll(NARROW, [WAITING]) == [DROPPED];
  }

  lemma IsReopened()
    ensures Reply(State(1, 0, [DROPPED], None), 1, "late", [])
            == Saved(State(1, 0, [DROPPED.(reply := Some("late"), status := ReplyPending)], None))
  {
    var answered := DROPPED.(reply := Some("late"), status := ReplyPending);
    OneRecord(answered);
    ShortText("late");
    assert !IsSpace('l') && 'l' in "late";
    assert [DROPPED][0 := answered] == [answered];
  }

  // The record is cancelled, and a reply without a claim opens it again.
  lemma ReopenExample()
    ensures IsLifetime(Reopening(), "me")
    ensures At(Reopening().worlds[2], 1) == Some(DROPPED) && Terminal(DROPPED.status)
    ensures Reply(Reopening().worlds[2].s, 1, "late", [])
            == Saved(State(1, 0, [DROPPED.(reply := Some("late"), status := ReplyPending)], None))
  {
    ReopeningLives();
    assert Reopening().worlds[2] == Holding([DROPPED]);
    IsReopened();
  }

  ghost predicate Leads(w: World, op: Op, next: World) {
    Enabled(w, op) && Next(w, op, true) == next
  }

  lemma TwoSteps(run: Run, agent: string, first: Op, mid: World, second: Op, end: World)
    requires run == Run([Fresh(agent), mid, end], [first, second], [true, true])
    requires Leads(Fresh(agent), first, mid) && Leads(mid, second, end)
    ensures IsLifetime(run, agent)
  {
  }

  lemma ReopeningLives()
    ensures IsLifetime(Reopening(), "me")
  {
    ReceiptStep();
    RevalidateStep();
    TwoSteps(Reopening(), "me", OpIngest(WIDE, EVENT, true), Holding([WAITING]), OpRevalidate(NARROW), Holding([DROPPED]));
  }

  lemma ReceiptStep()
    ensures Leads(Fresh("me"), OpIngest(WIDE, EVENT, true), Holding([WAITING]))
  {
    Arrives();
  }

  lemma RevalidateStep()
    ensures Leads(Holding([WAITING]), OpRevalidate(NARROW), Holding([DROPPED]))
  {
    IsDropped();
  }

  lemma {:induction false} ShortText(s: string)
    ensures ByteLen(s) <= 4 * |s|
    decreases |s|
  {
    if s != [] {
      ShortText(s[..|s| - 1]);
    }
  }
}

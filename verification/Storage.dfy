// The state file: reading old and new formats, writing the new one, and taking over after a
// crash (cmd/tincan/inbox_requests.go migrate, inbox.go openInboxIdentity and save).
module Storage {
  import opened Text
  import opened Commitments
  import opened Scheduling
  import opened Dependencies
  import opened Operations
  import opened ControllerRuns
  import opened ControllerSteps
  import opened ControllerBatches

  // A file as stored. Version 1 kept at most one event in `pending`, with its claim and reply.
  datatype File = File(
    version: int, after: int, revision: int, requests: seq<Request>, policy: Option<Policy>,
    pending: Option<Event>, reply: Option<string>, claim: Option<Claim>)

  const FORMAT_GUARD := Claim("controller-v2-required", "format-guard-not-a-claim")

  function Written(s: State): File {
    File(2, s.after, s.revision, s.requests, s.policy, None, None, Some(FORMAT_GUARD))
  }

  // What a version 1 program accepts.
  predicate LegacyReadable(f: File) {
    f.claim.Some? || f.reply.Some? ==> f.pending.Some?
  }

  function LegacyRecord(f: File): Request
    requires f.pending.Some?
  {
    var status := if f.reply.Some? then ReplyPending else if f.claim.Some? then Running else Ready;
    NewRequest(f.pending.value, status, "").(claim := f.claim, reply := f.reply)
  }

  function Migrate(f: File): Option<State> {
    if f.version > 2 || f.after < 0 then None
    else if f.version < 2 && (!LegacyReadable(f) || (f.pending.Some? && f.pending.value.seqNo <= f.after)) then None
    else
      var s := if f.version < 2 && f.pending.Some?
               then State(f.pending.value.seqNo, f.revision, f.requests + [LegacyRecord(f)], f.policy)
               else State(f.after, f.revision, f.requests, f.policy);
      if Valid(s) then Some(s.(requests := ByPriority(s.requests))) else None
  }

  // What a new process holds after opening the file.
  function Reopened(agent: string, f: File): Option<State> {
    var s := Migrate(f);
    if s.None? then None else Some(Restart(agent, s.value))
  }

  lemma SortedValid(s: State)
    requires Valid(s)
    ensures Valid(s.(requests := ByPriority(s.requests)))
  {
    var rs, sorted := s.requests, ByPriority(s.requests);
    SortMembers(rs);
    SortUnique(rs);
    forall n | 0 <= n < |sorted| ensures 0 < sorted[n].event.seqNo <= s.after && ValidRecord(sorted[n]) {
      assert sorted[n] in sorted;
      var k :| 0 <= k < |rs| && rs[k] == sorted[n];
    }
  }

  lemma UniqueSnoc(front: seq<Request>, r: Request)
    requires UniqueIds(front) && forall i :: 0 <= i < |front| ==> front[i].event.seqNo != r.event.seqNo
    ensures UniqueIds(front + [r])
  {
  }

  lemma FrontApart(rs: seq<Request>, x: Request, n: nat, front: seq<Request>)
    requires UniqueIds(rs) && |rs| == n + 1 && rs[n].event.seqNo != x.event.seqNo && front == Insert(rs[..n], x)
    ensures forall i :: 0 <= i < |front| ==> front[i].event.seqNo != rs[n].event.seqNo
  {
    InsertBasics(rs[..n], x);
    forall i | 0 <= i < |front| ensures front[i].event.seqNo != rs[n].event.seqNo {
      assert front[i] in front;
      if front[i] != x {
        var k :| 0 <= k < n && rs[k] == front[i];
      }
    }
  }

  lemma {:induction false} InsertUnique(rs: seq<Request>, x: Request)
    requires UniqueIds(rs) && forall r :: r in rs ==> r.event.seqNo != x.event.seqNo
    ensures UniqueIds(Insert(rs, x))
  {
    if rs != [] {
      var n := |rs| - 1;
      assert rs[n] in rs;
      if Priority(rs[n]) < Priority(x) {
        InsertUnique(rs[..n], x);
        var front := Insert(rs[..n], x);
        FrontApart(rs, x, n, front);
        UniqueSnoc(front, rs[n]);
      }
    }
  }

  lemma {:induction false} SortUnique(rs: seq<Request>)
    requires UniqueIds(rs)
    ensures UniqueIds(ByPriority(rs))
  {
    if rs != [] {
      var n := |rs| - 1;
      SortUnique(rs[..n]);
      SortMembers(rs[..n]);
      forall r | r in ByPriority(rs[..n]) ensures r.event.seqNo != rs[n].event.seqNo {
        var k :| 0 <= k < n && rs[k] == r;
      }
      InsertUnique(ByPriority(rs[..n]), rs[n]);
    }
  }

  // A file of the current format is only re-sorted; reading what was read changes nothing;
  // and no version 1 program will accept what is written.
  lemma MigrationMeaning(f: File)
    requires Migrate(f).Some?
    ensures var s := Migrate(f).value;
            && f.version <= 2 && f.after >= 0 && Valid(s) && Ordered(s.requests)
            && Migrate(Written(s)) == Some(s)
            && !LegacyReadable(Written(s))
            && (f.version == 2 ==>
                  s.after == f.after && s.policy == f.policy && multiset(s.requests) == multiset(f.requests))
            && (f.version < 2 && f.pending.Some? ==> s.after == f.pending.value.seqNo > f.after)
  {
    var t := if f.version < 2 && f.pending.Some?
             then State(f.pending.value.seqNo, f.revision, f.requests + [LegacyRecord(f)], f.policy)
             else State(f.after, f.revision, f.requests, f.policy);
    SortedValid(t);
    SortMeaning(t.requests);
    SortIdempotent(t.requests);
  }

  // A record that may be in a file.
  predicate Proper(r: Request) {
    && r.status in {Ready, Running, AwaitingApproval, AwaitingInformation, Failed, NeedsRecovery, ReplyPending,
                    Completed, Declined, Cancelled}
    && (r.status.Running? ==> r.claim.Some?)
    && (r.status in {AwaitingApproval, AwaitingInformation} ==>
          r.claim.None? && r.approval.Some? && r.approval.value.id != "" && r.approval.value.question != "")
    && (r.claim.Some? ==> r.claim.value.workerId != "" && r.claim.value.token != "")
  }

  // Which files of the current format are read.
  lemma ReadableFiles(f: File)
    requires f.version == 2
    ensures Migrate(f).Some? <==>
            && f.after >= 0
            && (forall r <- f.requests :: 0 < r.event.seqNo <= f.after && Proper(r))
            && (forall i, j :: 0 <= i < j < |f.requests| ==> f.requests[i].event.seqNo != f.requests[j].event.seqNo)
  {
    forall n | 0 <= n < |f.requests| ensures ValidRecord(f.requests[n]) <==> Proper(f.requests[n]) {
    }
  }

  // Reopening what a run stored restores its cursor, policy and records; exactly the running
  // ones change, into work to be recovered that is still claimed by the same worker.
  lemma CrashRecovery(w: World)
    requires Inv(w)
    ensures Reopened(w.agent, Written(w.s)).Some?
    ensures var s := Reopened(w.agent, Written(w.s)).value;
            && s.after == w.s.after && s.policy == w.s.policy && |s.requests| == |w.s.requests|
            && forall n :: 0 <= n < |s.requests| ==>
                 s.requests[n] == w.s.requests[n].(status := if w.s.requests[n].status.Running? then NeedsRecovery
                                                             else w.s.requests[n].status)
  {
    InvIsValid(w);
    SortedIsFixed(w.s.requests);
    assert Migrate(Written(w.s)) == Some(w.s);
    RestartGood(w, w);
    forall n | 0 <= n < |w.s.requests|
      ensures Recovered(w.agent, w.s.requests[n]) ==
              w.s.requests[n].(status := if w.s.requests[n].status.Running? then NeedsRecovery
                                         else w.s.requests[n].status)
    {
      assert w.s.requests[n] in w.s.requests;
      assert w.s.requests[n].event.(mentioned := IsMention(w.agent, w.s.requests[n].event)) == w.s.requests[n].event;
    }
  }

  // Recovery may change priorities, so recovered records are sorted again; records that are not
  // running only have their mention looked up for the agent.
  lemma RestartMeaning(agent: string, s: State, r: Request)
    requires Valid(s) && r in s.requests
    ensures var next := Restart(agent, s);
            && next.(requests := s.requests) == s && |next.requests| == |s.requests|
            && ((exists x <- s.requests :: x.status.Running?) ==> Ordered(next.requests))
            && r.(event := r.event.(mentioned := r.event.kind == "message" && agent in r.event.mentions),
                  status := if r.status.Running? then NeedsRecovery else r.status) in next.requests
  {
    var sorted := ByPriority(s.requests);
    var out := RecoverAll(agent, sorted);
    SortMembers(s.requests);
    SortMembers(out);
    SortMeaning(out);
    var k :| 0 <= k < |sorted| && sorted[k] == r;
    assert out[k] in out;
  }

  lemma RecoveredValid(agent: string, s: State)
    requires Valid(s)
    ensures Valid(s.(requests := RecoverAll(agent, s.requests)))
  {
  }

  // A version 1 file holds at most one record.
  lemma LegacyShape(agent: string, f: File)
    requires f.version < 2 && f.requests == [] && f.policy.None? && Migrate(f).Some?
    ensures Migrate(f).value.after >= 0 && Migrate(f).value.policy.None?
    ensures f.pending.None? ==> Restart(agent, Migrate(f).value).requests == []
    ensures f.pending.Some? ==>
              && Migrate(f).value.after == f.pending.value.seqNo && ValidRecord(LegacyRecord(f))
              && 0 < f.pending.value.seqNo
              && Restart(agent, Migrate(f).value).requests == [Recovered(agent, LegacyRecord(f))]
  {
    if f.pending.None? {
      assert Migrate(f).value.requests == [];
      assert RecoverAll(agent, []) == [];
    } else {
      var r := LegacyRecord(f);
      assert f.requests + [r] == [r];
      Single(r);
      Single(Recovered(agent, r));
      assert Migrate(f).value.requests == [r];
      assert RecoverAll(agent, [r]) == [Recovered(agent, r)];
      assert Valid(State(f.pending.value.seqNo, f.revision, [r], f.policy));
      assert [r][0] == r;
    }
  }

  // Its one event becomes one record, with the file's claim and reply and the status they mean.
  lemma LegacyMeaning(f: File)
    requires f.version < 2 && f.requests == []
    ensures Migrate(f).Some? <==>
            && f.after >= 0 && (f.claim.Some? || f.reply.Some? ==> f.pending.Some?)
            && (f.pending.Some? ==> f.pending.value.seqNo > f.after)
            && (f.claim.Some? ==> f.claim.value.workerId != "" && f.claim.value.token != "")
    ensures Migrate(f).Some? ==>
              var s := Migrate(f).value;
              && s.policy == f.policy && s.revision == f.revision
              && (f.pending.None? ==> s.requests == [] && s.after == f.after)
              && (f.pending.Some? ==>
                    && |s.requests| == 1 && s.after == f.pending.value.seqNo
                    && s.requests[0] == Request(f.pending.value, s.requests[0].status, f.claim, false, f.reply, "", "", [], [],
                                                None, 0, "", "", {})
                    && s.requests[0].status == (if f.reply.Some? then ReplyPending else if f.claim.Some? then Running else Ready))
  {
    if f.pending.Some? {
      assert f.requests + [LegacyRecord(f)] == [LegacyRecord(f)];
      OneRecord(State(f.pending.value.seqNo, f.revision, [LegacyRecord(f)], f.policy), LegacyRecord(f));
    }
  }

  lemma OneRecord(s: State, r: Request)
    requires s.requests == [r]
    ensures Valid(s) <==> s.after >= 0 && 0 < r.event.seqNo <= s.after && ValidRecord(r)
    ensures ByPriority(s.requests) == [r]
  {
    Single(r);
    assert s.requests[0] == r;
  }

  // A version 1 file becomes a state from which runs keep the invariant.
  lemma LegacyStarts(agent: string, f: File)
    requires f.version < 2 && f.requests == [] && f.policy.None? && Migrate(f).Some?
    ensures Inv(World(agent, Restart(agent, Migrate(f).value), None, [],
                      if f.claim.Some? then {f.claim.value.token} else {}, {}, DEFAULT_WORKERS))
  {
    LegacyShape(agent, f);
    var w := World(agent, Restart(agent, Migrate(f).value), None, [],
                   if f.claim.Some? then {f.claim.value.token} else {}, {}, DEFAULT_WORKERS);
    if f.pending.Some? {
      LegacyInv(w, Recovered(agent, LegacyRecord(f)));
    }
  }

  lemma Single(r: Request)
    ensures ByPriority([r]) == [r]
  {
    assert [r][..0] == [];
  }

  lemma LegacyInv(w: World, r: Request)
    requires w.s.requests == [r] && RecordOk(w, r) && r.dependencies == [] && !r.status.Running?
    requires w.s.after >= 0 && w.s.policy.None? && w.flight.None? && w.posts == [] && w.peak == DEFAULT_WORKERS
    ensures Inv(w)
  {
    forall d ensures !Edge(w.s.requests, r.event.seqNo, d) {
    }
    assert r in w.s.requests;
    assert Grounded(w.s.requests, r.event.seqNo, 1);
    assert [r][..0] == [];
    assert Workers([r]) == Workers([]) + 0;
  }
}

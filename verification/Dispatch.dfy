// The dispatcher that starts one background worker per notice (sdk/python/tincan.py
// dispatch_mentions). Coroutines interleave only where they await, so every step below is one
// stretch between two awaits.
module Dispatch {
  import opened Text

  // A connection and the number of an event on it.
  datatype Key = Key(connection: string, id: int)

  // Where a task stands: waiting for capacity, asking for the claim, holding it, running a
  // worker, or cleaning up.
  datatype Phase = Queued | Claiming | Claimed | Running | Closing

  datatype Task = Task(key: Key, phase: Phase, claimed: bool)

  // `events` are the notices not yet taken up; `free` counts the capacity left.
  datatype State = State(
    limit: nat, free: nat, events: seq<Key>, active: set<Key>, dirty: set<Key>,
    tasks: map<nat, Task>, made: nat, spawned: seq<(nat, Key)>)

  datatype Step =
    | Arrive(key: Key)
    | TakeUp
    | Acquire(task: nat)
    | ClaimAnswered(task: nat, acquired: bool)
    | Spawn(task: nat)
    | Finish(task: nat)
    | Leave(task: nat)

  predicate Holding(p: Phase) {
    p.Claiming? || p.Claimed? || p.Running?
  }

  predicate Enabled(s: State, step: Step) {
    match step
    case Arrive(_) => true
    case TakeUp => s.events != []
    case Acquire(t) => t in s.tasks && s.tasks[t].phase.Queued? && s.free > 0
    case ClaimAnswered(t, _) => t in s.tasks && s.tasks[t].phase.Claiming?
    case Spawn(t) => t in s.tasks && s.tasks[t].phase.Claimed?
    // A task may end, by completion or by an error, at any await inside its capacity.
    case Finish(t) => t in s.tasks && Holding(s.tasks[t].phase)
    case Leave(t) => t in s.tasks && s.tasks[t].phase.Closing?
  }

  function Next(s: State, step: Step): State
    requires Enabled(s, step)
  {
    match step
    case Arrive(key) => s.(events := s.events + [key])
    case TakeUp =>
      var key := s.events[0];
      if key in s.active then s.(events := s.events[1..], dirty := s.dirty + {key})
      else s.(events := s.events[1..], active := s.active + {key},
              tasks := s.tasks[s.made := Task(key, Queued, false)], made := s.made + 1)
    case Acquire(t) => s.(free := s.free - 1, tasks := s.tasks[t := s.tasks[t].(phase := Claiming)])
    case ClaimAnswered(t, acquired) =>
      if acquired then s.(tasks := s.tasks[t := s.tasks[t].(phase := Claimed, claimed := true)])
      else s.(free := s.free + 1, tasks := s.tasks[t := s.tasks[t].(phase := Closing)])
    case Spawn(t) =>
      s.(tasks := s.tasks[t := s.tasks[t].(phase := Running)], spawned := s.spawned + [(t, s.tasks[t].key)])
    case Finish(t) => s.(free := s.free + 1, tasks := s.tasks[t := s.tasks[t].(phase := Closing)])
    case Leave(t) =>
      var key := s.tasks[t].key;
      s.(tasks := s.tasks - {t}, active := s.active - {key}, dirty := s.dirty - {key},
         events := if key in s.dirty then s.events + [key] else s.events)
  }

  function Started(limit: nat): State {
    State(limit, limit, [], {}, {}, map[], 0, [])
  }

  // ----- The scheduler as it runs -----

  class Scheduler {
    const limit: nat
    var free: nat
    var events: seq<Key>
    var active: set<Key>
    var dirty: set<Key>
    var tasks: map<nat, Task>
    var made: nat
    ghost var spawned: seq<(nat, Key)>

    ghost function Now(): State
      reads this
    {
      State(limit, free, events, active, dirty, tasks, made, spawned)
    }

    constructor (limit: nat)
      ensures Now() == Started(limit)
    {
      this.limit, free := limit, limit;
      events, active, dirty, tasks, made, spawned := [], {}, {}, map[], 0, [];
    }

    // The main loop takes up one notice.
    method TakeNotice()
      requires Enabled(Now(), TakeUp)
      modifies this
      ensures Now() == Next(old(Now()), TakeUp)
    {
      var key := events[0];
      events := events[1..];
      if key in active {
        dirty := dirty + {key};
        return;
      }
      active := active + {key};
      tasks := tasks[made := Task(key, Queued, false)];
      made := made + 1;
    }

    method Admit(t: nat)
      requires Enabled(Now(), Acquire(t))
      modifies this`free, this`tasks
      ensures Now() == Next(old(Now()), Acquire(t))
    {
      free := free - 1;
      tasks := tasks[t := tasks[t].(phase := Claiming)];
    }

    // A task without the claim goes straight to its cleanup.
    method Answer(t: nat, acquired: bool)
      requires Enabled(Now(), ClaimAnswered(t, acquired))
      modifies this`free, this`tasks
      ensures Now() == Next(old(Now()), ClaimAnswered(t, acquired))
    {
      if !acquired {
        tasks := tasks[t := tasks[t].(phase := Closing)];
        free := free + 1;
        return;
      }
      tasks := tasks[t := tasks[t].(phase := Claimed, claimed := true)];
    }

    // The host starts a worker for a claimed task.
    method Spawn(t: nat)
      requires Enabled(Now(), Step.Spawn(t))
      modifies this`tasks, this`spawned
      ensures Now() == Next(old(Now()), Step.Spawn(t))
    {
      spawned := spawned + [(t, tasks[t].key)];
      tasks := tasks[t := tasks[t].(phase := Running)];
    }

    // Work ends, or an error ends it, and the capacity is given back.
    method Finish(t: nat)
      requires Enabled(Now(), Step.Finish(t))
      modifies this`free, this`tasks
      ensures Now() == Next(old(Now()), Step.Finish(t))
    {
      tasks := tasks[t := tasks[t].(phase := Closing)];
      free := free + 1;
    }

    // The cleanup at the end of every task.
    method Close(t: nat)
      requires Enabled(Now(), Leave(t))
      modifies this`active, this`dirty, this`events, this`tasks
      ensures Now() == Next(old(Now()), Leave(t))
    {
      var key := tasks[t].key;
      active := active - {key};
      if key in dirty {
        dirty := dirty - {key};
        events := events + [key];
      }
      tasks := tasks - {t};
    }
  }

  // ----- The invariant -----

  function Holders(tasks: map<nat, Task>): set<nat> {
    set t | t in tasks && Holding(tasks[t].phase)
  }

  // Every live task has an active key of its own, and every active key a live task.
  ghost predicate Flights(s: State) {
    && (forall t, u :: t in s.tasks && u in s.tasks && s.tasks[t].key == s.tasks[u].key ==> t == u)
    && (forall t :: t in s.tasks ==> t < s.made && s.tasks[t].key in s.active)
    && (forall key :: key in s.active ==> exists t :: t in s.tasks && s.tasks[t].key == key)
  }

  ghost predicate Inv(s: State) {
    && Flights(s) && s.dirty <= s.active
    && s.free + |Holders(s.tasks)| == s.limit
    && (forall t :: t in s.tasks && (s.tasks[t].phase.Claimed? || s.tasks[t].phase.Running?) ==> s.tasks[t].claimed)
  }

  lemma HoldersChange(tasks: map<nat, Task>, t: nat, task: Task)
    requires t in tasks
    ensures |Holders(tasks[t := task])| ==
            |Holders(tasks)| + (if Holding(task.phase) then 1 else 0) - (if Holding(tasks[t].phase) then 1 else 0)
  {
    var before, after := Holders(tasks), Holders(tasks[t := task]);
    if Holding(task.phase) {
      assert after == before + {t};
    } else {
      assert after == before - {t};
    }
  }

  lemma HoldersSame(tasks: map<nat, Task>, t: nat, task: Task)
    ensures t !in tasks && !Holding(task.phase) ==> Holders(tasks[t := task]) == Holders(tasks)
    ensures t in tasks && !Holding(tasks[t].phase) ==> Holders(tasks - {t}) == Holders(tasks)
  {
  }

  // A step that moves one task on.
  lemma MovedFlights(s: State, t: nat, task: Task)
    requires Flights(s) && t in s.tasks && task.key == s.tasks[t].key
    ensures Flights(s.(tasks := s.tasks[t := task]))
  {
    var s2 := s.(tasks := s.tasks[t := task]);
    forall u | u in s2.tasks ensures u in s.tasks && s2.tasks[u].key == s.tasks[u].key {
    }
    forall key | key in s2.active ensures exists u :: u in s2.tasks && s2.tasks[u].key == key {
      var u :| u in s.tasks && s.tasks[u].key == key;
      assert u in s2.tasks && s2.tasks[u].key == key;
    }
  }

  lemma MovedKeeps(s: State, t: nat, task: Task, free: nat)
    requires Inv(s) && t in s.tasks && task.key == s.tasks[t].key
    requires task.phase.Claimed? || task.phase.Running? ==> task.claimed
    requires free + |Holders(s.tasks[t := task])| == s.limit
    ensures Inv(s.(free := free, tasks := s.tasks[t := task]))
  {
    MovedFlights(s, t, task);
    SameFlights(s.(tasks := s.tasks[t := task]), s.(free := free, tasks := s.tasks[t := task]));
  }

  lemma NewFlight(s: State, key: Key)
    requires Flights(s) && key !in s.active
    ensures Flights(s.(active := s.active + {key}, tasks := s.tasks[s.made := Task(key, Queued, false)], made := s.made + 1))
  {
    var s2 := s.(active := s.active + {key}, tasks := s.tasks[s.made := Task(key, Queued, false)], made := s.made + 1);
    forall x | x in s2.active ensures exists u :: u in s2.tasks && s2.tasks[u].key == x {
      if x == key {
        assert s.made in s2.tasks;
      } else {
        var u :| u in s.tasks && s.tasks[u].key == x;
        assert u in s2.tasks && s2.tasks[u].key == x;
      }
    }
  }

  lemma SameFlights(s: State, s2: State)
    requires Flights(s) && s2.active == s.active && s2.tasks == s.tasks && s2.made == s.made
    ensures Flights(s2)
  {
  }

  lemma TakeUpKeeps(s: State)
    requires Inv(s) && s.events != []
    ensures Inv(Next(s, TakeUp))
  {
    if s.events[0] in s.active {
      SameFlights(s, Next(s, TakeUp));
    } else {
      NewTaskKeeps(s, s.events[0], s.events[1..]);
    }
  }

  lemma NewTaskKeeps(s: State, key: Key, rest: seq<Key>)
    requires Inv(s) && key !in s.active
    ensures Inv(s.(events := rest, active := s.active + {key},
                   tasks := s.tasks[s.made := Task(key, Queued, false)], made := s.made + 1))
  {
    var s2 := s.(active := s.active + {key}, tasks := s.tasks[s.made := Task(key, Queued, false)], made := s.made + 1);
    HoldersSame(s.tasks, s.made, Task(key, Queued, false));
    NewFlight(s, key);
    SameFlights(s2, s2.(events := rest));
  }

  lemma LeaveKeeps(s: State, t: nat)
    requires Inv(s) && Enabled(s, Leave(t))
    ensures Inv(Next(s, Leave(t)))
  {
    var s2 := Next(s, Leave(t));
    HoldersSame(s.tasks, t, s.tasks[t]);
    forall key | key in s2.active ensures exists u :: u in s2.tasks && s2.tasks[u].key == key {
      var u :| u in s.tasks && s.tasks[u].key == key;
      assert u in s2.tasks && s2.tasks[u].key == key;
    }
  }

  lemma StepKeeps(s: State, step: Step)
    requires Inv(s) && Enabled(s, step)
    ensures Inv(Next(s, step))
  {
    match step
    case Arrive(_) =>
    case TakeUp => TakeUpKeeps(s);
    case Acquire(t) =>
      var task := s.tasks[t].(phase := Claiming);
      HoldersChange(s.tasks, t, task);
      MovedKeeps(s, t, task, s.free - 1);
    case ClaimAnswered(t, acquired) =>
      var task := if acquired then s.tasks[t].(phase := Claimed, claimed := true) else s.tasks[t].(phase := Closing);
      HoldersChange(s.tasks, t, task);
      MovedKeeps(s, t, task, if acquired then s.free else s.free + 1);
    case Spawn(t) =>
      var task := s.tasks[t].(phase := Running);
      HoldersChange(s.tasks, t, task);
      MovedKeeps(s, t, task, s.free);
    case Finish(t) =>
      var task := s.tasks[t].(phase := Closing);
      HoldersChange(s.tasks, t, task);
      MovedKeeps(s, t, task, s.free + 1);
    case Leave(t) => LeaveKeeps(s, t);
  }

  // ----- Over whole runs -----

  datatype Run = Run(states: seq<State>, steps: seq<Step>)

  ghost predicate IsRun(run: Run) {
    && |run.states| == |run.steps| + 1 && run.states[0] == Started(run.states[0].limit)
    && forall k :: 0 <= k < |run.steps| ==>
         Enabled(run.states[k], run.steps[k]) && run.states[k + 1] == Next(run.states[k], run.steps[k])
  }

  lemma {:induction false} RunInv(run: Run, k: nat)
    requires IsRun(run) && k < |run.states|
    ensures Inv(run.states[k]) && run.states[k].limit == run.states[0].limit
  {
    if k > 0 {
      RunInv(run, k - 1);
      StepKeeps(run.states[k - 1], run.steps[k - 1]);
    }
  }

  // At most one task per key is alive, a key is marked for another round only while it has
  // one, and no more tasks than the limit are past the semaphore.
  lemma SingleFlight(run: Run, k: nat)
    requires IsRun(run) && k < |run.states|
    ensures var s := run.states[k];
            && (forall t, u :: t in s.tasks && u in s.tasks && s.tasks[t].key == s.tasks[u].key ==> t == u)
            && (forall key :: key in s.active <==> exists t :: t in s.tasks && s.tasks[t].key == key)
            && s.dirty <= s.active
            && |Holders(s.tasks)| <= run.states[0].limit
  {
    RunInv(run, k);
  }

  // Workers for one notice take turns: before the second one is started, the task of the first
  // has gone through its cleanup, which asks the first to stop.
  lemma WorkersTakeTurns(run: Run, i: nat, j: nat, t: nat, u: nat)
    requires IsRun(run) && i < j < |run.steps| && run.steps[i] == Spawn(t) && run.steps[j] == Spawn(u)
    requires run.states[i].tasks[t].key == run.states[j].tasks[u].key
    ensures exists m :: i < m < j && run.steps[m] == Leave(t)
  {
    StaysPast(run, i, j, t);
    RunInv(run, j);
    assert Enabled(run.states[j], run.steps[j]);
  }

  predicate Past(s: State, t: nat, key: Key) {
    t in s.tasks && s.tasks[t].key == key && (s.tasks[t].phase.Running? || s.tasks[t].phase.Closing?)
  }

  lemma {:induction false} StaysPast(run: Run, i: nat, j: nat, t: nat)
    requires IsRun(run) && i < j <= |run.steps| && run.steps[i] == Spawn(t)
    ensures Past(run.states[j], t, run.states[i].tasks[t].key) || exists m :: i < m < j && run.steps[m] == Leave(t)
    decreases j
  {
    var key := run.states[i].tasks[t].key;
    if j > i + 1 {
      StaysPast(run, i, j - 1, t);
      if run.steps[j - 1] != Leave(t) && Past(run.states[j - 1], t, key) {
        RunInv(run, j - 1);
        PastStep(run.states[j - 1], run.steps[j - 1], t, key);
      }
    } else {
      assert run.states[i + 1] == Next(run.states[i], Spawn(t));
    }
  }

  lemma PastStep(s: State, step: Step, t: nat, key: Key)
    requires Inv(s) && Enabled(s, step) && Past(s, t, key) && step != Leave(t)
    ensures Past(Next(s, step), t, key)
  {
  }

  // A task that starts a worker was granted the claim before, and starts no other worker.
  lemma WorkersHoldClaims(run: Run, k: nat, t: nat)
    requires IsRun(run) && k < |run.steps| && run.steps[k] == Spawn(t)
    ensures exists i :: 0 <= i < k && run.steps[i] == ClaimAnswered(t, true)
    ensures forall m :: 0 <= m < |run.steps| && m != k ==> run.steps[m] != Spawn(t)
  {
    RunInv(run, k);
    ClaimWasAnswered(run, k, t);
    forall m | 0 <= m < |run.steps| && m != k ensures run.steps[m] != Spawn(t) {
      if run.steps[m] == Spawn(t) {
        OneSpawn(run, if m < k then m else k, if m < k then k else m, t);
      }
    }
  }

  lemma {:induction false} ClaimWasAnswered(run: Run, k: nat, t: nat)
    requires IsRun(run) && k < |run.states| && t in run.states[k].tasks && run.states[k].tasks[t].claimed
    ensures exists i :: 0 <= i < k && run.steps[i] == ClaimAnswered(t, true)
    decreases k
  {
    RunInv(run, k - 1);
    var before := run.states[k - 1];
    if t in before.tasks && before.tasks[t].claimed {
      ClaimWasAnswered(run, k - 1, t);
      var i :| 0 <= i < k - 1 && run.steps[i] == ClaimAnswered(t, true);
    } else {
      assert run.steps[k - 1] == ClaimAnswered(t, true);
    }
  }

  // Task numbers are never used again, so a task starts at most one worker.
  lemma OneSpawn(run: Run, i: nat, j: nat, t: nat)
    requires IsRun(run) && i < j < |run.steps| && run.steps[i] == Spawn(t)
    ensures run.steps[j] != Spawn(t)
  {
    SpentStays(run, i, j, t);
    assert Enabled(run.states[j], run.steps[j]);
  }

  predicate Spent(s: State, t: nat) {
    t < s.made && (t in s.tasks ==> s.tasks[t].phase.Running? || s.tasks[t].phase.Closing?)
  }

  lemma {:induction false} SpentStays(run: Run, i: nat, j: nat, t: nat)
    requires IsRun(run) && i < j <= |run.steps| && run.steps[i] == Spawn(t)
    ensures Spent(run.states[j], t)
    decreases j
  {
    if j > i + 1 {
      SpentStays(run, i, j - 1, t);
      SpentStep(run.states[j - 1], run.steps[j - 1], t);
    } else {
      RunInv(run, i);
      assert run.states[i + 1] == Next(run.states[i], Spawn(t));
    }
  }

  lemma SpentStep(s: State, step: Step, t: nat)
    requires Enabled(s, step) && Spent(s, t)
    ensures Spent(Next(s, step), t)
  {
  }

  // Another dispatch of the key is still owed.
  predicate Owed(s: State, key: Key) {
    key in s.dirty || key in s.events
  }

  // This step starts a dispatch of the key.
  predicate Starts(s: State, step: Step, key: Key) {
    step.TakeUp? && s.events != [] && s.events[0] == key && key !in s.active
  }

  // What is owed stays owed until a dispatch starts.
  lemma OwedStep(s: State, step: Step, key: Key)
    requires Inv(s) && Enabled(s, step) && Owed(s, key) && !Starts(s, step, key)
    ensures Owed(Next(s, step), key)
  {
    if step.TakeUp? && key !in s.dirty {
      assert s.events == [s.events[0]] + s.events[1..];
    }
  }

  // A notice that arrives, also for a key that is being dispatched, is followed by another
  // dispatch of that key: until one starts it is owed, so a dispatcher with nothing left to
  // do has started it.
  lemma {:induction false} NoticeIsDispatched(run: Run, i: nat, j: nat, key: Key)
    requires IsRun(run) && i < j < |run.states| && run.steps[i] == Arrive(key)
    ensures Owed(run.states[j], key) || exists m :: i < m < j && Starts(run.states[m], run.steps[m], key)
    ensures run.states[j].events == [] && run.states[j].active == {} ==>
              exists m :: i < m < j && Starts(run.states[m], run.steps[m], key)
    decreases j
  {
    RunInv(run, j);
    if j == i + 1 {
      assert run.states[j].events[|run.states[i].events|] == key;
    } else {
      NoticeIsDispatched(run, i, j - 1, key);
      RunInv(run, j - 1);
      if exists m :: i < m < j - 1 && Starts(run.states[m], run.steps[m], key) {
        var m :| i < m < j - 1 && Starts(run.states[m], run.steps[m], key);
      } else if !Starts(run.states[j - 1], run.steps[j - 1], key) {
        OwedStep(run.states[j - 1], run.steps[j - 1], key);
      }
    }
  }
}

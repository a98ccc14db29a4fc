// The broadcast that wakes the background consumers, and why none of them sleeps through a
// change (cmd/tincan/inbox_wait.go signalUpdate, waitMention; inbox_dispatch.go).
module Wakeups {
  import opened Text
  import opened Commitments
  import opened Scheduling
  import opened Operations

  // ----- What the dispatcher announces -----

  datatype Notice =
    | ReadyNotice(id: int, attempt: int, revision: int)
    | QuestionNotice(question: string)
    | TroubleNotice(id: int, status: Status, attempt: int)

  // The notice a record calls for, if any.
  function NoticeOf(s: State, r: Request): Option<Notice> {
    if Eligible(s, r) then Some(ReadyNotice(r.event.seqNo, r.attempt, s.revision))
    else if r.approval.Some? && r.approval.value.delivery == "pending" && Awaiting(r.status) then
      Some(QuestionNotice(r.approval.value.id))
    else if r.status.NeedsRecovery? || r.status.Failed? || (r.status.ReplyPending? && r.deliveryError) then
      Some(TroubleNotice(r.event.seqNo, r.status, r.attempt))
    else None
  }

  // Every record's current notice has been given.
  ghost predicate AllTold(s: State, told: set<Notice>) {
    forall r :: r in s.requests && NoticeOf(s, r).Some? ==> NoticeOf(s, r).value in told
  }

  // The notices of the first k records, by record.
  function Live(s: State, k: nat): map<int, Notice>
    requires k <= |s.requests|
  {
    if k == 0 then map[]
    else
      var r := s.requests[k - 1];
      if NoticeOf(s, r).Some? then Live(s, k - 1)[r.event.seqNo := NoticeOf(s, r).value] else Live(s, k - 1)
  }

  predicate Told(before: map<int, Notice>, id: int, note: Notice) {
    id in before && before[id] == note
  }

  // Those of them that the pass before did not have.
  function Fresh(s: State, before: map<int, Notice>, k: nat): seq<Notice>
    requires k <= |s.requests|
  {
    if k == 0 then []
    else
      var r := s.requests[k - 1];
      if NoticeOf(s, r).Some? && !Told(before, r.event.seqNo, NoticeOf(s, r).value)
      then Fresh(s, before, k - 1) + [NoticeOf(s, r).value] else Fresh(s, before, k - 1)
  }

  // One pass over a copy of the state. `live` is what the next pass compares with.
  method Announce(s: State, before: map<int, Notice>) returns (live: map<int, Notice>, given: seq<Notice>)
    requires Valid(s)
    ensures live == Live(s, |s.requests|) && given == Fresh(s, before, |s.requests|)
  {
    live, given := map[], [];
    var seen := before;
    var k := 0;
    while k < |s.requests|
      invariant k <= |s.requests|
      invariant live == Live(s, k) && given == Fresh(s, before, k)
      invariant forall j :: k <= j < |s.requests| ==>
                  var id := s.requests[j].event.seqNo;
                  (id in seen <==> id in before) && (id in seen ==> seen[id] == before[id])
    {
      var r := s.requests[k];
      var note := NoticeOf(s, r);
      k := k + 1;
      if note.Some? {
        live := live[r.event.seqNo := note.value];
        if r.event.seqNo !in seen || seen[r.event.seqNo] != note.value {
          seen := seen[r.event.seqNo := note.value];
          given := given + [note.value];
        }
      }
    }
  }

  // What a pass does not give, the pass before had already.
  lemma {:induction false} PassCovers(s: State, before: map<int, Notice>, k: nat)
    requires k <= |s.requests|
    ensures forall j :: 0 <= j < k && NoticeOf(s, s.requests[j]).Some? ==>
              NoticeOf(s, s.requests[j]).value in Fresh(s, before, k)
              || Told(before, s.requests[j].event.seqNo, NoticeOf(s, s.requests[j]).value)
    ensures forall id :: id in Live(s, k) ==> exists j :: 0 <= j < k && NoticeOf(s, s.requests[j]) == Some(Live(s, k)[id])
  {
    if k > 0 {
      PassCovers(s, before, k - 1);
    }
  }

  // A second pass over the same state gives nothing.
  lemma PassSettles(s: State, k: nat)
    requires Valid(s) && k <= |s.requests|
    ensures Fresh(s, Live(s, |s.requests|), k) == []
  {
    var live := Live(s, |s.requests|);
    forall j | 0 <= j < k ensures Had(s, live, j) {
      LiveHolds(s, |s.requests|, j);
    }
    NothingFresh(s, live, k);
  }

  // The pass before had the current notice of this record.
  predicate Had(s: State, before: map<int, Notice>, j: nat)
    requires j < |s.requests|
  {
    var r := s.requests[j];
    NoticeOf(s, r).Some? ==> Told(before, r.event.seqNo, NoticeOf(s, r).value)
  }

  lemma {:induction false} NothingFresh(s: State, before: map<int, Notice>, k: nat)
    requires k <= |s.requests| && forall j :: 0 <= j < k ==> Had(s, before, j)
    ensures Fresh(s, before, k) == []
  {
    if k > 0 {
      assert Had(s, before, k - 1);
      NothingFresh(s, before, k - 1);
    }
  }

  lemma {:induction false} LiveHolds(s: State, k: nat, j: nat)
    requires Valid(s) && j < k <= |s.requests|
    ensures Had(s, Live(s, k), j)
  {
    if j < k - 1 {
      LiveHolds(s, k - 1, j);
      assert s.requests[j].event.seqNo != s.requests[k - 1].event.seqNo;
      LiveKeeps(s, k, j);
    }
  }

  lemma LiveKeeps(s: State, k: nat, j: nat)
    requires j < k - 1 < |s.requests| && s.requests[j].event.seqNo != s.requests[k - 1].event.seqNo
    requires Had(s, Live(s, k - 1), j)
    ensures Had(s, Live(s, k), j)
  {
  }

  // ----- The broadcast -----

  // The state and the channel captured together under the lock.
  datatype View = View(state: State, channel: nat)

  datatype Dispatcher = Looking(last: map<int, Notice>) | Telling(last: map<int, Notice>, view: View) | Waiting(view: View)

  // `failed` says that a delivery of this pass has not succeeded.
  datatype Outbox = Starting | Sending(view: View, next: nat, failed: bool) | Resting(view: View) | Backoff

  // A call that waits for work on behalf of a worker; `asleep` since it last looked.
  datatype Listener = Listener(call: int, worker: string, asleep: Option<View>)

  // `channel` is the open channel, if there is one; `made` counts the channels made so far.
  // `told` are the notices given so far, `calls` the waiting calls, `waiter` the slot they
  // share, and `shown` the announcements and questions already handed to a worker.
  datatype World = World(
    cfg: Config, state: State, channel: Option<nat>, made: nat, closed: bool,
    dispatcher: Dispatcher, outbox: Outbox, told: set<Notice>,
    waiter: Option<Listener>, calls: set<int>, shown: set<(string, Subject)>)

  datatype Subject = Announcement(id: int) | Question(approval: string)

  datatype Op =
    | Save(state: State)
    | Shut
    | Look
    | Tell
    | Wake
    | StartOutbox
    | Deliver(outcome: Delivered)
    | Settle
    | WakeOutbox
    | Listen(call: int, worker: string)
    | Hand(n: nat)
    | Ask(n: nat)
    | Doze
    | Rouse
    | Leave

  // A delivery removes the reply by a save of its own, finds it gone already, or fails.
  datatype Delivered = Removed(state: State) | Gone | NotDelivered

  ghost predicate Open(w: World, view: View) {
    w.channel == Some(view.channel)
  }

  // Creates the channel if there is none.
  function Captured(w: World): World {
    if w.channel.Some? then w else w.(channel := Some(w.made), made := w.made + 1)
  }

  function Signalled(w: World, s: State): World {
    w.(state := s, channel := Some(w.made), made := w.made + 1)
  }

  function ReplyAt(view: View, n: nat): Option<string>
    requires n < |view.state.requests|
  {
    view.state.requests[n].reply
  }

  ghost predicate Enabled(w: World, op: Op) {
    match op
    case Save(s) => Valid(s)
    case Shut => !w.closed
    case Look => w.dispatcher.Looking?
    case Tell => w.dispatcher.Telling?
    case Wake => w.dispatcher.Waiting? && !Open(w, w.dispatcher.view)
    case StartOutbox => w.outbox.Starting? || w.outbox.Backoff?
    case Deliver(outcome) =>
      w.outbox.Sending? && w.outbox.next < |w.outbox.view.state.requests|
      && (ReplyAt(w.outbox.view, w.outbox.next).Some? ==>
            var id := w.outbox.view.state.requests[w.outbox.next].event.seqNo;
            match outcome
            case Removed(s) => Valid(s) && Outgoing(s, id).None?
            case Gone => Outgoing(w.state, id).None?
            case NotDelivered => true)
    case Settle => w.outbox.Sending? && w.outbox.next == |w.outbox.view.state.requests|
    case WakeOutbox => w.outbox.Resting? && !Open(w, w.outbox.view)
    case Listen(call, _) => !w.closed && w.waiter.None? && call !in w.calls
    case Hand(n) => Watching(w) && n < |w.state.requests| && ForWorker(w, w.state, w.state.requests[n])
    case Ask(n) =>
      Watching(w) && n < |w.state.requests| && ToAsk(w, w.state.requests[n])
      && (forall r :: r in w.state.requests ==> !ForWorker(w, w.state, r))
    case Doze => Watching(w) && NothingFor(w, w.state)
    case Rouse => w.waiter.Some? && w.waiter.value.asleep.Some? && !Open(w, w.waiter.value.asleep.value)
    case Leave => w.waiter.Some?
  }

  predicate Watching(w: World) {
    w.waiter.Some? && w.waiter.value.asleep.None? && !w.closed
  }

  predicate IsAnnouncement(e: Event) {
    e.kind == "join_requested" || Commitments.Notice(e)
  }

  // The waiting call would return this record.
  ghost predicate ForWorker(w: World, s: State, r: Request)
    requires w.waiter.Some?
  {
    && Eligible(s, r) && Accepts(w.cfg, s.requests, r.event)
    && (IsAnnouncement(r.event) ==> (w.waiter.value.worker, Announcement(r.event.seqNo)) !in w.shown)
  }

  ghost predicate ToAsk(w: World, r: Request)
    requires w.waiter.Some?
  {
    && r.approval.Some? && r.approval.value.delivery == "pending"
    && (w.waiter.value.worker, Question(r.approval.value.id)) !in w.shown
  }

  ghost predicate NothingFor(w: World, s: State)
    requires w.waiter.Some?
  {
    forall r :: r in s.requests ==> !ForWorker(w, s, r) && !ToAsk(w, r)
  }

  function Returned(w: World): World {
    w.(waiter := None, calls := if w.waiter.Some? then w.calls - {w.waiter.value.call} else w.calls)
  }

  function Next(w: World, op: Op): World
    requires op.Look? ==> w.dispatcher.Looking?
    requires op.Tell? ==> w.dispatcher.Telling?
    requires op.Wake? ==> w.dispatcher.Waiting?
    requires op.Deliver? ==> w.outbox.Sending? && w.outbox.next < |w.outbox.view.state.requests|
    requires op.Settle? ==> w.outbox.Sending?
    requires op.Hand? || op.Ask? || op.Doze? || op.Rouse? ==> w.waiter.Some?
    requires op.Hand? ==> op.n < |w.state.requests|
    requires op.Ask? ==> op.n < |w.state.requests| && w.state.requests[op.n].approval.Some?
  {
    match op
    case Save(s) => Signalled(w, s)
    case Shut => Signalled(w, w.state).(closed := true)
    case Look =>
      var c := Captured(w);
      c.(dispatcher := Telling(w.dispatcher.last, View(c.state, c.channel.value)))
    case Tell =>
      var view := w.dispatcher.view;
      w.(told := w.told + (set n | n in Fresh(view.state, w.dispatcher.last, |view.state.requests|)),
         dispatcher := Waiting(view))
    case Wake => w.(dispatcher := Looking(Live(w.dispatcher.view.state, |w.dispatcher.view.state.requests|)))
    case StartOutbox =>
      var c := Captured(w);
      c.(outbox := Sending(View(c.state, c.channel.value), 0, false))
    case Deliver(outcome) =>
      var o := w.outbox.(next := w.outbox.next + 1);
      if ReplyAt(w.outbox.view, w.outbox.next).None? then w.(outbox := o)
      else
        (match outcome
         case Removed(s) => Signalled(w, s).(outbox := o)
         case Gone => w.(outbox := o)
         case NotDelivered => w.(outbox := o.(failed := true)))
    case Settle => w.(outbox := if w.outbox.failed then Backoff else Resting(w.outbox.view))
    case WakeOutbox => w.(outbox := Starting)
    case Listen(call, worker) => w.(waiter := Some(Listener(call, worker, None)), calls := w.calls + {call})
    case Hand(n) =>
      var r := w.state.requests[n];
      var subject := (w.waiter.value.worker, Announcement(r.event.seqNo));
      Returned(w.(shown := if IsAnnouncement(r.event) then w.shown + {subject} else w.shown))
    case Ask(n) =>
      Returned(w.(shown := w.shown + {(w.waiter.value.worker, Question(w.state.requests[n].approval.value.id))}))
    case Doze =>
      var c := Captured(w);
      c.(waiter := Some(c.waiter.value.(asleep := Some(View(c.state, c.channel.value)))))
    case Rouse => w.(waiter := Some(w.waiter.value.(asleep := None)))
    case Leave => Returned(w)
  }

  // ----- The invariant -----

  // A view whose channel is still open is a view of the current state.
  ghost predicate Current(w: World, view: View) {
    view.channel < w.made && Valid(view.state) && (Open(w, view) ==> view.state == w.state)
  }

  ghost predicate Remembers(last: map<int, Notice>, told: set<Notice>) {
    forall id :: id in last ==> last[id] in told
  }

  ghost predicate DispatcherOk(w: World) {
    match w.dispatcher
    case Looking(last) => Remembers(last, w.told)
    case Telling(last, view) => Remembers(last, w.told) && Current(w, view)
    case Waiting(view) => Current(w, view) && AllTold(view.state, w.told)
  }

  // Nothing before position n is left to send, as long as nothing has been saved since.
  ghost predicate SentBefore(w: World, view: View, n: nat) {
    Open(w, view) ==> forall k :: 0 <= k < n && k < |view.state.requests| ==> ReplyAt(view, k).None?
  }

  ghost predicate OutboxOk(w: World) {
    match w.outbox
    case Sending(view, next, failed) =>
      Current(w, view) && next <= |view.state.requests| && (failed || SentBefore(w, view, next))
    case Resting(view) => Current(w, view) && SentBefore(w, view, |view.state.requests|)
    case _ => true
  }

  ghost predicate WaiterOk(w: World) {
    && w.calls == (if w.waiter.Some? then {w.waiter.value.call} else {})
    && (w.waiter.Some? && w.waiter.value.asleep.Some? ==>
          Current(w, w.waiter.value.asleep.value) && NothingFor(w, w.waiter.value.asleep.value.state))
  }

  ghost predicate Inv(w: World) {
    && Valid(w.state) && (w.channel.Some? ==> w.channel.value < w.made)
    && DispatcherOk(w) && OutboxOk(w) && WaiterOk(w)
  }

  lemma TellKeeps(w: World)
    requires Inv(w) && w.dispatcher.Telling?
    ensures DispatcherOk(Next(w, Tell))
  {
    var view := w.dispatcher.view;
    var s := view.state;
    PassCovers(s, w.dispatcher.last, |s.requests|);
    forall r | r in s.requests && NoticeOf(s, r).Some? ensures NoticeOf(s, r).value in Next(w, Tell).told {
      var j :| 0 <= j < |s.requests| && s.requests[j] == r;
    }
  }

  lemma WakeKeeps(w: World)
    requires Inv(w) && w.dispatcher.Waiting?
    ensures DispatcherOk(Next(w, Wake))
  {
    var s := w.dispatcher.view.state;
    PassCovers(s, map[], |s.requests|);
    var last := Live(s, |s.requests|);
    forall id | id in last ensures last[id] in w.told {
      var j :| 0 <= j < |s.requests| && NoticeOf(s, s.requests[j]) == Some(last[id]);
      assert s.requests[j] in s.requests;
    }
  }

  // A reply that is gone although nothing was saved since the view was never there.
  lemma GoneKeeps(w: World)
    requires Inv(w) && w.outbox.Sending? && w.outbox.next < |w.outbox.view.state.requests|
    requires Outgoing(w.state, w.outbox.view.state.requests[w.outbox.next].event.seqNo).None?
    ensures Open(w, w.outbox.view) ==> ReplyAt(w.outbox.view, w.outbox.next).None?
  {
    if Open(w, w.outbox.view) {
      var rs := w.state.requests;
      var n := Position(rs, rs[w.outbox.next].event.seqNo);
      assert n == w.outbox.next;
    }
  }

  lemma DeliverKeeps(w: World, outcome: Delivered)
    requires Inv(w) && Enabled(w, Deliver(outcome))
    ensures OutboxOk(Next(w, Deliver(outcome)))
  {
    if ReplyAt(w.outbox.view, w.outbox.next).Some? && outcome.Gone? {
      GoneKeeps(w);
    }
  }

  // The state is the same, or there is a channel that no earlier view knows.
  ghost predicate Later(w: World, w2: World) {
    && w2.made >= w.made && Valid(w2.state) && (w2.channel.Some? ==> w2.channel.value < w2.made)
    && ((w2.state == w.state && w2.channel == w.channel) || (w2.channel.Some? && w2.channel.value >= w.made))
  }

  lemma StepLater(w: World, op: Op)
    requires Valid(w.state) && (w.channel.Some? ==> w.channel.value < w.made) && Enabled(w, op)
    ensures Later(w, Next(w, op))
  {
  }

  lemma OldView(w: World, w2: World, view: View, n: nat)
    requires Later(w, w2) && Current(w, view)
    ensures Current(w2, view) && (Open(w2, view) ==> Open(w, view))
    ensures SentBefore(w, view, n) ==> SentBefore(w2, view, n)
  {
  }

  // Whatever else happens, no view is taken for current that is not.
  lemma OthersKeep(w: World, op: Op)
    requires Inv(w) && Enabled(w, op) && !op.Deliver?
    ensures OutboxOk(Next(w, op))
  {
    StepLater(w, op);
    match w.outbox
    case Sending(view, next, _) => SendingKeeps(w, op, view, next);
    case Resting(view) => RestingKeeps(w, op, view);
    case _ => StartKeeps(w, op);
  }

  lemma SendingKeeps(w: World, op: Op, view: View, next: nat)
    requires OutboxOk(w) && Enabled(w, op) && !op.Deliver? && Later(w, Next(w, op))
    requires w.outbox.Sending? && w.outbox.view == view && w.outbox.next == next
    ensures OutboxOk(Next(w, op))
  {
    OldView(w, Next(w, op), view, next);
  }

  lemma RestingKeeps(w: World, op: Op, view: View)
    requires OutboxOk(w) && Enabled(w, op) && Later(w, Next(w, op)) && w.outbox == Resting(view)
    ensures OutboxOk(Next(w, op))
  {
    OldView(w, Next(w, op), view, |view.state.requests|);
  }

  lemma StartKeeps(w: World, op: Op)
    requires Valid(w.state) && Enabled(w, op) && Later(w, Next(w, op)) && (w.outbox.Starting? || w.outbox.Backoff?)
    ensures OutboxOk(Next(w, op))
  {
  }

  lemma DispatcherKeeps(w: World, op: Op)
    requires Inv(w) && Enabled(w, op)
    ensures DispatcherOk(Next(w, op))
  {
    if op.Tell? {
      TellKeeps(w);
    } else if op.Wake? {
      WakeKeeps(w);
    }
  }

  lemma WaiterKeeps(w: World, op: Op)
    requires Inv(w) && Enabled(w, op)
    ensures WaiterOk(Next(w, op))
  {
    var w2 := Next(w, op);
    StepLater(w, op);
    CallsKeep(w, op);
    if w2.waiter.Some? && w2.waiter.value.asleep.Some? {
      SameSubjects(w, w2, w2.waiter.value.asleep.value.state);
      if !op.Doze? {
        OldView(w, w2, w.waiter.value.asleep.value, 0);
      }
    }
  }

  lemma CallsKeep(w: World, op: Op)
    requires WaiterOk(w) && Enabled(w, op)
    ensures Next(w, op).calls == if Next(w, op).waiter.Some? then {Next(w, op).waiter.value.call} else {}
    ensures var w2 := Next(w, op);
            w2.waiter.Some? && w2.waiter.value.asleep.Some? ==>
              && w.waiter.Some? && w2.cfg == w.cfg && w2.shown == w.shown && w2.waiter.value.worker == w.waiter.value.worker
              && (!op.Doze? ==> w.waiter == w2.waiter)
  {
  }

  lemma SameSubjects(w: World, w2: World, s: State)
    requires w.waiter.Some? && w2.waiter.Some? && w2.cfg == w.cfg && w2.shown == w.shown
    requires w2.waiter.value.worker == w.waiter.value.worker
    ensures NothingFor(w, s) <==> NothingFor(w2, s)
  {
    forall r | r in s.requests ensures ForWorker(w, s, r) == ForWorker(w2, s, r) && ToAsk(w, r) == ToAsk(w2, r) {
    }
  }

  lemma StepKeeps(w: World, op: Op)
    requires Inv(w) && Enabled(w, op)
    ensures Inv(Next(w, op))
  {
    DispatcherKeeps(w, op);
    WaiterKeeps(w, op);
    StepLater(w, op);
    match op
    case Deliver(outcome) => DeliverKeeps(w, outcome);
    case _ => OthersKeep(w, op);
  }

  // ----- Over whole runs -----

  datatype Run = Run(worlds: seq<World>, ops: seq<Op>)

  ghost predicate Beginning(w: World) {
    && Valid(w.state) && w.channel.None? && !w.closed && w.dispatcher == Looking(map[]) && w.outbox.Starting?
    && w.told == {} && w.waiter.None? && w.calls == {}
  }

  ghost predicate IsRun(run: Run) {
    && |run.worlds| == |run.ops| + 1 && Beginning(run.worlds[0])
    && forall k :: 0 <= k < |run.ops| ==>
         Enabled(run.worlds[k], run.ops[k]) && run.worlds[k + 1] == Next(run.worlds[k], run.ops[k])
  }

  lemma {:induction false} RunInv(run: Run, k: nat)
    requires IsRun(run) && k < |run.worlds|
    ensures Inv(run.worlds[k])
  {
    if k > 0 {
      RunInv(run, k - 1);
      StepKeeps(run.worlds[k - 1], run.ops[k - 1]);
    }
  }

  // A dispatcher that sleeps on a channel that is still open has announced everything the
  // current state calls for.
  lemma DispatcherMissesNothing(run: Run, k: nat)
    requires IsRun(run) && k < |run.worlds|
    ensures var w := run.worlds[k];
            w.dispatcher.Waiting? && Open(w, w.dispatcher.view) ==> AllTold(w.state, w.told)
  {
    RunInv(run, k);
  }

  // A record that waits for an answer nobody has been asked for yet.
  predicate Unasked(r: Request) {
    r.status in {AwaitingApproval, AwaitingInformation} && r.approval.Some? && r.approval.value.delivery == "pending"
  }

  predicate InTrouble(r: Request) {
    r.status in {NeedsRecovery, Failed} || (r.status.ReplyPending? && r.deliveryError)
  }

  // That is: every record that can start, every question not yet shown, and every record in
  // trouble, each by the notice for its present state.
  lemma EverythingTold(run: Run, k: nat, r: Request)
    requires IsRun(run) && k < |run.worlds| && r in run.worlds[k].state.requests
    requires run.worlds[k].dispatcher.Waiting? && Open(run.worlds[k], run.worlds[k].dispatcher.view)
    ensures var w := run.worlds[k];
            && (Eligible(w.state, r) ==> ReadyNotice(r.event.seqNo, r.attempt, w.state.revision) in w.told)
            && (Unasked(r) ==> QuestionNotice(r.approval.value.id) in w.told)
            && (InTrouble(r) ==> TroubleNotice(r.event.seqNo, r.status, r.attempt) in w.told)
  {
    DispatcherMissesNothing(run, k);
  }

  // The notice is about a record that calls for it in this state.
  ghost predicate CalledFor(s: State, n: Notice) {
    match n
    case ReadyNotice(id, attempt, revision) =>
      revision == s.revision && exists r :: r in s.requests && Eligible(s, r) && r.event.seqNo == id && r.attempt == attempt
    case QuestionNotice(question) => exists r :: r in s.requests && Unasked(r) && r.approval.value.id == question
    case TroubleNotice(id, status, attempt) =>
      exists r :: r in s.requests && InTrouble(r) && r.event.seqNo == id && r.status == status && r.attempt == attempt
  }

  lemma {:induction false} FreshIsCalledFor(s: State, before: map<int, Notice>, k: nat)
    requires k <= |s.requests|
    ensures forall n :: n in Fresh(s, before, k) ==> CalledFor(s, n)
  {
    if k > 0 {
      FreshIsCalledFor(s, before, k - 1);
      assert s.requests[k - 1] in s.requests;
    }
  }

  // And nothing else is ever announced: each notice was called for by a state of the run.
  lemma {:induction false} NothingElseTold(run: Run, k: nat, n: Notice) returns (i: nat)
    requires IsRun(run) && k < |run.worlds| && n in run.worlds[k].told
    ensures i <= k && CalledFor(run.worlds[i].state, n)
    decreases k
  {
    var w := run.worlds[k - 1];
    if n in w.told {
      i := NothingElseTold(run, k - 1, n);
    } else {
      i := ViewSeen(run, k - 1);
      FreshIsCalledFor(w.dispatcher.view.state, w.dispatcher.last, |w.dispatcher.view.state.requests|);
    }
  }

  // What the dispatcher looks at was the state at some point.
  lemma {:induction false} ViewSeen(run: Run, k: nat) returns (i: nat)
    requires IsRun(run) && k < |run.worlds| && run.worlds[k].dispatcher.Telling?
    ensures i <= k && run.worlds[i].state == run.worlds[k].dispatcher.view.state
    decreases k
  {
    var w := run.worlds[k - 1];
    if run.ops[k - 1].Look? {
      i := k - 1;
    } else {
      i := ViewSeen(run, k - 1);
    }
  }

  // An outbox that sleeps on a channel that is still open has no reply left to send.
  lemma OutboxMissesNothing(run: Run, k: nat)
    requires IsRun(run) && k < |run.worlds|
    ensures var w := run.worlds[k];
            w.outbox.Resting? && Open(w, w.outbox.view) ==> forall r :: r in w.state.requests ==> r.reply.None?
  {
    RunInv(run, k);
    var w := run.worlds[k];
    if w.outbox.Resting? && Open(w, w.outbox.view) {
      forall r | r in w.state.requests ensures r.reply.None? {
        var n :| 0 <= n < |w.state.requests| && w.state.requests[n] == r;
        assert ReplyAt(w.outbox.view, n).None?;
      }
    }
  }

  // A waiting call that sleeps on a channel that is still open would return nothing now.
  lemma ListenerMissesNothing(run: Run, k: nat)
    requires IsRun(run) && k < |run.worlds|
    ensures var w := run.worlds[k];
            w.waiter.Some? && w.waiter.value.asleep.Some? && Open(w, w.waiter.value.asleep.value) ==>
              NothingFor(w, w.state)
  {
    RunInv(run, k);
  }

  // That is: whatever can start and concerns this inbox is an announcement that this worker has
  // been shown, and so has it every question that waits to be presented.
  lemma NothingWithheld(run: Run, k: nat, r: Request)
    requires IsRun(run) && k < |run.worlds| && r in run.worlds[k].state.requests
    requires var w := run.worlds[k];
             w.waiter.Some? && w.waiter.value.asleep.Some? && Open(w, w.waiter.value.asleep.value)
    ensures var w := run.worlds[k];
            var worker := w.waiter.value.worker;
            && (Eligible(w.state, r) && Accepts(w.cfg, w.state.requests, r.event) ==>
                  (r.event.kind == "join_requested" || (r.event.kind == "message" && r.event.messageId != "" && r.event.hello))
                  && (worker, Announcement(r.event.seqNo)) in w.shown)
            && (r.approval.Some? && r.approval.value.delivery == "pending" ==>
                  (worker, Question(r.approval.value.id)) in w.shown)
  {
    ListenerMissesNothing(run, k);
  }

  // The call of this worker returned this subject at this step.
  ghost predicate Shows(w: World, op: Op, worker: string, subject: Subject) {
    && w.waiter.Some? && w.waiter.value.worker == worker
    && ((op.Hand? && op.n < |w.state.requests| && subject == Announcement(w.state.requests[op.n].event.seqNo))
        || (op.Ask? && op.n < |w.state.requests| && w.state.requests[op.n].approval.Some?
            && subject == Question(w.state.requests[op.n].approval.value.id)))
  }

  // What a call returns to its worker can start and concerns this inbox; a question is returned
  // only when nothing else is there.
  lemma ReturnedIsWanted(run: Run, k: nat)
    requires IsRun(run) && k < |run.ops|
    ensures var w, op := run.worlds[k], run.ops[k];
            && (op.Hand? ==> op.n < |w.state.requests| && Eligible(w.state, w.state.requests[op.n])
                             && Accepts(w.cfg, w.state.requests, w.state.requests[op.n].event))
            && (op.Ask? ==> op.n < |w.state.requests| && w.state.requests[op.n].approval.Some?
                            && w.state.requests[op.n].approval.value.delivery == "pending")
  {
    assert Enabled(run.worlds[k], run.ops[k]);
  }

  lemma {:induction false} ShownStays(run: Run, i: nat, j: nat, worker: string, subject: Subject)
    requires IsRun(run) && i <= j < |run.worlds| && (worker, subject) in run.worlds[i].shown
    ensures (worker, subject) in run.worlds[j].shown
    decreases j
  {
    if i < j {
      ShownStays(run, i, j - 1, worker, subject);
    }
  }

  // The step returns a subject that counts as shown: a question, a join request or an
  // announcement, but not work.
  ghost predicate Presents(w: World, op: Op, worker: string, subject: Subject) {
    && Shows(w, op, worker, subject)
    && (op.Hand? ==> op.n < |w.state.requests| && IsAnnouncement(w.state.requests[op.n].event))
  }

  // No worker is presented with the same thing twice.
  lemma PresentedOnce(run: Run, i: nat, j: nat, worker: string, subject: Subject)
    requires IsRun(run) && i < j < |run.ops| && Presents(run.worlds[i], run.ops[i], worker, subject)
    ensures !Presents(run.worlds[j], run.ops[j], worker, subject)
  {
    assert run.worlds[i + 1] == Next(run.worlds[i], run.ops[i]);
    ShownStays(run, i + 1, j, worker, subject);
    assert Enabled(run.worlds[j], run.ops[j]);
  }

  // And it was shown in truth: a call of that worker returned it.
  lemma {:induction false} ShownWasReturned(run: Run, k: nat, worker: string, subject: Subject)
    requires IsRun(run) && k < |run.worlds| && (worker, subject) in run.worlds[k].shown
    ensures (worker, subject) in run.worlds[0].shown
            || exists i :: 0 <= i < k && Shows(run.worlds[i], run.ops[i], worker, subject)
    decreases k
  {
    if k > 0 && (worker, subject) in run.worlds[k - 1].shown {
      ShownWasReturned(run, k - 1, worker, subject);
    } else if k > 0 {
      assert Shows(run.worlds[k - 1], run.ops[k - 1], worker, subject);
    }
  }

  // Sleepers wake: whoever sleeps on a channel can go on after the next save.
  lemma SaveWakes(run: Run, k: nat, s: State)
    requires IsRun(run) && k < |run.worlds| && Valid(s)
    ensures var w := Next(run.worlds[k], Save(s));
            && (w.dispatcher.Waiting? ==> Enabled(w, Wake))
            && (w.outbox.Resting? ==> Enabled(w, WakeOutbox))
            && (w.waiter.Some? && w.waiter.value.asleep.Some? ==> Enabled(w, Rouse))
  {
    RunInv(run, k);
  }

  // At most one call listens at a time, and the slot is free exactly when none does.
  lemma OneListener(run: Run, k: nat)
    requires IsRun(run) && k < |run.worlds|
    ensures var w := run.worlds[k];
            |w.calls| <= 1 && (w.waiter.None? <==> w.calls == {})
  {
    RunInv(run, k);
  }

  // ----- Waiting without making the channel -----

  // Steps that broadcast, and steps after which there is a channel.
  predicate Signals(w: World, op: Op) {
    || op.Save? || op.Shut?
    || (op.Deliver? && op.outcome.Removed? && w.outbox.Sending? && w.outbox.next < |w.outbox.view.state.requests|
        && ReplyAt(w.outbox.view, w.outbox.next).Some?)
  }

  predicate Makes(w: World, op: Op) {
    Signals(w, op) || op.Look? || op.StartOutbox? || op.Doze?
  }

  lemma ChannelStep(w: World, op: Op)
    requires Inv(w) && Enabled(w, op)
    ensures Next(w, op).channel.Some? <==> w.channel.Some? || Makes(w, op)
    ensures w.channel.Some? ==>
              if Signals(w, op) then Next(w, op).channel.value > w.channel.value else Next(w, op).channel == w.channel
  {
  }

  predicate MadeAt(run: Run, i: nat) {
    i < |run.ops| && i < |run.worlds| && Makes(run.worlds[i], run.ops[i])
  }

  ghost predicate MadeBefore(run: Run, k: nat) {
    exists i: nat :: i < k && MadeAt(run, i)
  }

  lemma MadeBeforeStep(run: Run, k: nat)
    ensures MadeBefore(run, k + 1) <==> MadeBefore(run, k) || MadeAt(run, k)
  {
    if MadeBefore(run, k + 1) && !MadeAt(run, k) {
      var i: nat :| i < k + 1 && MadeAt(run, i);
      assert i < k;
    }
    if MadeBefore(run, k) {
      var i: nat :| i < k && MadeAt(run, i);
      assert i < k + 1;
    }
  }

  lemma MadeStep(run: Run, k: nat)
    requires IsRun(run) && k < |run.ops|
    ensures run.worlds[k + 1].channel.Some? <==> run.worlds[k].channel.Some? || MadeAt(run, k)
  {
    RunInv(run, k);
    ChannelStep(run.worlds[k], run.ops[k]);
  }

  lemma {:induction false} ChannelMade(run: Run, k: nat)
    requires IsRun(run) && k < |run.worlds|
    ensures run.worlds[k].channel.Some? <==> MadeBefore(run, k)
  {
    if k > 0 {
      ChannelMade(run, k - 1);
      MadeStep(run, k - 1);
      MadeBeforeStep(run, k - 1);
    }
  }

  lemma {:induction false} ChannelHolds(run: Run, i: nat, j: nat)
    requires IsRun(run) && i <= j < |run.worlds| && run.worlds[i].channel.Some?
    ensures run.worlds[j].channel.Some? && run.worlds[j].channel.value >= run.worlds[i].channel.value
    ensures run.worlds[j].channel != run.worlds[i].channel <==>
            exists m :: i <= m < j && Signals(run.worlds[m], run.ops[m])
    decreases j
  {
    if i < j {
      ChannelHolds(run, i, j - 1);
      RunInv(run, j - 1);
      ChannelStep(run.worlds[j - 1], run.ops[j - 1]);
    }
  }

  // waitAcknowledged takes the channel as it finds it; a missing channel never wakes it.
  predicate CanWake(w: World, taken: Option<nat>) {
    taken.Some? && w.channel != taken
  }

  // So it sleeps through every later broadcast exactly when no step before it began had made
  // the channel, as in a process that has not yet saved anything nor started a consumer.
  lemma BareWaitWakes(run: Run, i: nat, j: nat)
    requires IsRun(run) && i <= j < |run.worlds|
    ensures CanWake(run.worlds[j], run.worlds[i].channel) <==>
            && MadeBefore(run, i)
            && (exists m :: i <= m < j && Signals(run.worlds[m], run.ops[m]))
  {
    ChannelMade(run, i);
    if run.worlds[i].channel.Some? {
      ChannelHolds(run, i, j);
    }
  }

  // In a run that begins with a save the call misses it.
  lemma BareWaitMisses(w: World, s: State)
    requires Beginning(w) && Valid(s)
    ensures var run := Run([w, Next(w, Save(s))], [Save(s)]);
            IsRun(run) && Signals(run.worlds[0], run.ops[0]) && !CanWake(run.worlds[1], run.worlds[0].channel)
  {
  }
}

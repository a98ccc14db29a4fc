// Receiving events over connections that break, repeat and change transport
// (cmd/tincan/inbox_stream.go acceptStreamEvent, consumeSSE, consumeBatch).
module Ingestion {
  import opened Text
  import opened Commitments
  import opened Scheduling
  import opened Dependencies
  import opened Operations
  import opened Storage
  import Inbox

  // What verification and control make of an event before it is stored. A failure ends the
  // connection, and the relay delivers the event again.
  datatype Check = Genuine | Forged | Fails

  // One delivered event; `disk` says whether a write would succeed.
  datatype Delivery = Delivery(event: Event, check: Check, disk: bool)

  // The delivery is stored, if it is new.
  predicate Works(d: Delivery) {
    !d.check.Fails? && d.disk
  }

  function Received(cfg: Config, s: State, d: Delivery): State {
    if d.event.seqNo <= s.after || d.check.Fails? then s
    else After(s, Ingest(cfg, s, d.event, d.check.Genuine?), d.disk)
  }

  function ReceiveAll(cfg: Config, s: State, ds: seq<Delivery>): State
    decreases |ds|
  {
    if ds == [] then s else ReceiveAll(cfg, Received(cfg, s, ds[0]), ds[1..])
  }

  // ----- The log of a relay, each event once -----

  // An event of the log and whether it is genuine.
  datatype Entry = Entry(event: Event, genuine: bool)

  ghost predicate Log(log: seq<Entry>) {
    forall i, j :: 0 <= i < j < |log| ==> 0 < log[i].event.seqNo < log[j].event.seqNo
  }

  function IngestAll(cfg: Config, s: State, log: seq<Entry>): State
    decreases |log|
  {
    if log == [] then s
    else IngestAll(cfg, After(s, Ingest(cfg, s, log[0].event, log[0].genuine), true), log[1..])
  }

  // The part of the log behind a cursor.
  function Unread(log: seq<Entry>, after: int): (rest: seq<Entry>)
    ensures |rest| <= |log|
    ensures rest != [] ==> rest[0].event.seqNo > after
  {
    if log == [] || log[0].event.seqNo > after then log else Unread(log[1..], after)
  }

  // Every connection starts behind the cursor and delivers in order, so what arrives is either
  // old or the next unread event of the log; it may be cut off and repeated anywhere.
  ghost predicate InOrder(cfg: Config, log: seq<Entry>, s: State, ds: seq<Delivery>)
    decreases |ds|
  {
    ds == [] ||
      (&& (var d := ds[0];
           d.event.seqNo <= s.after
           || (var rest := Unread(log, s.after);
               && rest != [] && d.event == rest[0].event && rest[0].event.seqNo > 0
               && (!d.check.Fails? ==> d.check.Genuine? == rest[0].genuine)))
       && InOrder(cfg, log, Received(cfg, s, ds[0]), ds[1..]))
  }

  lemma {:induction false} UnreadStep(log: seq<Entry>, after: int)
    requires Log(log) && Unread(log, after) != []
    ensures Unread(log, Unread(log, after)[0].event.seqNo) == Unread(log, after)[1..]
    decreases |log|
  {
    if log[0].event.seqNo > after {
      if |log| > 1 {
        assert log[1..][0] == log[1];
      }
    } else {
      UnreadStep(log[1..], after);
    }
  }

  // A new event always leads to a state that can be stored, with the cursor at the event and
  // no record lost.
  lemma IngestAdvances(cfg: Config, s: State, e: Event, valid: bool)
    requires Valid(s) && e.seqNo > s.after
    ensures Ingest(cfg, s, e, valid).Saved?
    ensures var next := Ingest(cfg, s, e, valid).next;
            && Valid(next) && next.after == e.seqNo
            && forall r :: r in s.requests ==> exists q :: q in next.requests && q.event.seqNo == r.event.seqNo
  {
    var x := Operations.Received(cfg, e);
    var moved := s.(after := e.seqNo);
    if !Taken(cfg, s, e, valid) {
      AppendValid(s, e.seqNo, s.requests, []);
      assert s.requests + [] == s.requests;
      Stays(moved.requests, s.requests, []);
    } else if IsClassification(x) {
      var all := ClassifyAll(s.requests, x.semantic.value);
      var added := NewRequest(x, Completed, CLASSIFICATION_NOTE);
      AppendValid(s, e.seqNo, all, [added]);
      Stays(s.requests, all, [added]);
    } else {
      var added := NewRequest(x, Ready, "");
      AppendValid(s, e.seqNo, s.requests, [added]);
      Stays(s.requests, s.requests, [added]);
    }
  }

  lemma AppendValid(s: State, seqNo: int, all: seq<Request>, more: seq<Request>)
    requires Valid(s) && seqNo > s.after && |all| == |s.requests| && |more| <= 1
    requires forall n :: 0 <= n < |all| ==>
               all[n].event.seqNo == s.requests[n].event.seqNo && ValidRecord(all[n])
    requires forall r <- more :: r.event.seqNo == seqNo && ValidRecord(r)
    ensures Valid(s.(after := seqNo, requests := all + more))
    ensures Valid(s.(after := seqNo, requests := ByPriority(all + more)))
  {
    SortedValid(s.(after := seqNo, requests := all + more));
  }

  lemma Stays(before: seq<Request>, all: seq<Request>, more: seq<Request>)
    requires |all| == |before| && forall n :: 0 <= n < |all| ==> all[n].event.seqNo == before[n].event.seqNo
    ensures forall r :: r in before ==>
              exists q :: q in ByPriority(all + more) && q.event.seqNo == r.event.seqNo
  {
    SortMembers(all + more);
    forall r | r in before ensures exists q :: q in ByPriority(all + more) && q.event.seqNo == r.event.seqNo {
      var n :| 0 <= n < |before| && before[n] == r;
      assert (all + more)[n] == all[n];
      assert all[n] in ByPriority(all + more);
    }
  }

  // A delivery either changes nothing or takes the next event of the log.
  lemma DeliveryEffect(cfg: Config, log: seq<Entry>, s: State, d: Delivery)
    requires Valid(s) && Log(log) && InOrder(cfg, log, s, [d])
    ensures var next := Received(cfg, s, d);
            if d.event.seqNo <= s.after || !Works(d) then next == s
            else
              var rest := Unread(log, s.after);
              && rest != [] && Valid(next) && next.after > s.after
              && next == After(s, Ingest(cfg, s, rest[0].event, rest[0].genuine), true)
              && Unread(log, next.after) == rest[1..]
  {
    assert [d][0] == d;
    if d.event.seqNo > s.after && !d.check.Fails? {
      IngestAdvances(cfg, s, d.event, d.check.Genuine?);
      UnreadStep(log, s.after);
    }
  }

  lemma OneMore(cfg: Config, s: State, rest: seq<Entry>, m: nat)
    requires m < |rest|
    ensures IngestAll(cfg, s, rest[..m + 1])
            == IngestAll(cfg, After(s, Ingest(cfg, s, rest[0].event, rest[0].genuine), true), rest[1..][..m])
    ensures rest[m + 1..] == rest[1..][m..]
  {
    assert rest[..m + 1][0] == rest[0] && rest[..m + 1][1..] == rest[1..][..m];
  }

  // However often connections break, repeat themselves or switch between a stream and batches,
  // the records are those of ingesting each event of the log once, up to the cursor reached.
  lemma {:induction false} ExactlyOnce(cfg: Config, log: seq<Entry>, s: State, ds: seq<Delivery>) returns (n: nat)
    requires Valid(s) && Log(log) && InOrder(cfg, log, s, ds)
    ensures n <= |Unread(log, s.after)|
    ensures ReceiveAll(cfg, s, ds) == IngestAll(cfg, s, Unread(log, s.after)[..n])
    ensures Unread(log, ReceiveAll(cfg, s, ds).after) == Unread(log, s.after)[n..]
    ensures Valid(ReceiveAll(cfg, s, ds)) && ReceiveAll(cfg, s, ds).after >= s.after
    decreases |ds|
  {
    if ds == [] {
      n := 0;
    } else {
      var d := ds[0];
      DeliveryEffect(cfg, log, s, d);
      var m := ExactlyOnce(cfg, log, Received(cfg, s, d), ds[1..]);
      if d.event.seqNo <= s.after || !Works(d) {
        n := m;
      } else {
        n := m + 1;
        OneMore(cfg, s, Unread(log, s.after), m);
      }
    }
  }

  // Two histories of deliveries that reach the same cursor leave the same records.
  lemma SameCursorSameRecords(cfg: Config, log: seq<Entry>, s: State, a: seq<Delivery>, b: seq<Delivery>)
    requires Valid(s) && Log(log) && InOrder(cfg, log, s, a) && InOrder(cfg, log, s, b)
    requires ReceiveAll(cfg, s, a).after == ReceiveAll(cfg, s, b).after
    ensures ReceiveAll(cfg, s, a) == ReceiveAll(cfg, s, b)
  {
    var m := ExactlyOnce(cfg, log, s, a);
    var n := ExactlyOnce(cfg, log, s, b);
    var rest := Unread(log, s.after);
    assert |rest[m..]| == |rest[n..]|;
  }

  // ----- Connections -----

  // What one connection delivers: a stretch of the log, from the first unread event or from
  // before it, in order and cut off anywhere.
  ghost predicate Stretch(log: seq<Entry>, m: nat, after: int, ds: seq<Delivery>) {
    && m + |ds| <= |log| && (m == 0 || log[m - 1].event.seqNo <= after)
    && forall k :: 0 <= k < |ds| ==>
         ds[k].event == log[m + k].event && (!ds[k].check.Fails? ==> ds[k].check.Genuine? == log[m + k].genuine)
  }

  ghost predicate Connection(log: seq<Entry>, after: int, ds: seq<Delivery>) {
    exists m: nat :: Stretch(log, m, after, ds)
  }

  // A connection ends with the first delivery that is new and cannot be stored.
  function UpToFailure(s: State, cfg: Config, ds: seq<Delivery>): seq<Delivery>
    decreases |ds|
  {
    if ds == [] then []
    else if ds[0].event.seqNo > s.after && !Works(ds[0]) then [ds[0]]
    else [ds[0]] + UpToFailure(Received(cfg, s, ds[0]), cfg, ds[1..])
  }

  lemma {:induction false} UnreadFrom(log: seq<Entry>, m: nat, after: int)
    requires Log(log) && m < |log| && (m == 0 || log[m - 1].event.seqNo <= after) && log[m].event.seqNo > after
    ensures Unread(log, after) == log[m..]
    decreases m
  {
    if m > 0 {
      assert log[0].event.seqNo <= after;
      assert log[1..][m - 1] == log[m];
      UnreadFrom(log[1..], m - 1, after);
    }
  }

  // What arrives over a connection is in order.
  lemma {:induction false} StretchInOrder(cfg: Config, log: seq<Entry>, m: nat, s: State, ds: seq<Delivery>)
    requires Valid(s) && Log(log) && Stretch(log, m, s.after, ds)
    ensures InOrder(cfg, log, s, UpToFailure(s, cfg, ds)) && Valid(ReceiveAll(cfg, s, UpToFailure(s, cfg, ds)))
    decreases |ds|
  {
    if ds != [] {
      var d, next := ds[0], Received(cfg, s, ds[0]);
      assert d.event == log[m].event;
      if d.event.seqNo > s.after {
        UnreadFrom(log, m, s.after);
        assert Unread(log, s.after)[0] == log[m];
      }
      assert InOrder(cfg, log, s, [d]);
      DeliveryEffect(cfg, log, s, d);
      if d.event.seqNo > s.after && !Works(d) {
        assert UpToFailure(s, cfg, ds) == [d];
        assert [d][1..] == [];
      } else {
        if Works(d) && d.event.seqNo > s.after {
          IngestAdvances(cfg, s, d.event, d.check.Genuine?);
        }
        RestOfStretch(log, m, s.after, next.after, ds);
        StretchInOrder(cfg, log, m + 1, next, ds[1..]);
        var later := UpToFailure(next, cfg, ds[1..]);
        assert ([d] + later)[0] == d && ([d] + later)[1..] == later;
      }
    }
  }

  lemma RestOfStretch(log: seq<Entry>, m: nat, after: int, moved: int, ds: seq<Delivery>)
    requires Stretch(log, m, after, ds) && ds != [] && log[m].event.seqNo <= moved
    ensures Stretch(log, m + 1, moved, ds[1..])
  {
    forall k | 0 <= k < |ds| - 1 ensures ds[1..][k] == ds[k + 1] && log[m + 1 + k] == log[m + (k + 1)] {
    }
  }

  // Any number of connections, one after the other.
  function ConnectAll(cfg: Config, s: State, cs: seq<seq<Delivery>>): State
    decreases |cs|
  {
    if cs == [] then s else ConnectAll(cfg, ReceiveAll(cfg, s, UpToFailure(s, cfg, cs[0])), cs[1..])
  }

  ghost predicate Connections(cfg: Config, log: seq<Entry>, s: State, cs: seq<seq<Delivery>>)
    decreases |cs|
  {
    cs == [] ||
      (Connection(log, s.after, cs[0]) && Connections(cfg, log, ReceiveAll(cfg, s, UpToFailure(s, cfg, cs[0])), cs[1..]))
  }

  lemma {:induction false} IngestAllSplit(cfg: Config, s: State, a: seq<Entry>, b: seq<Entry>)
    ensures IngestAll(cfg, s, a + b) == IngestAll(cfg, IngestAll(cfg, s, a), b)
    decreases |a|
  {
    if a == [] {
      assert a + b == b;
    } else {
      assert (a + b)[0] == a[0] && (a + b)[1..] == a[1..] + b;
      IngestAllSplit(cfg, After(s, Ingest(cfg, s, a[0].event, a[0].genuine), true), a[1..], b);
    }
  }

  // From s, the next n unread events of the log have been ingested once each.
  ghost predicate Took(cfg: Config, log: seq<Entry>, s: State, end: State, n: nat) {
    exists rest :: TookOf(cfg, log, s, end, n, rest)
  }

  ghost predicate TookOf(cfg: Config, log: seq<Entry>, s: State, end: State, n: nat, rest: seq<Entry>) {
    && rest == Unread(log, s.after)
    && n <= |rest| && end == IngestAll(cfg, s, rest[..n]) && Unread(log, end.after) == rest[n..]
    && Valid(end) && end.after >= s.after
  }

  lemma OneConnection(cfg: Config, log: seq<Entry>, s: State, ds: seq<Delivery>) returns (n: nat)
    requires Valid(s) && Log(log) && Connection(log, s.after, ds)
    ensures Took(cfg, log, s, ReceiveAll(cfg, s, UpToFailure(s, cfg, ds)), n)
  {
    var m: nat :| Stretch(log, m, s.after, ds);
    StretchInOrder(cfg, log, m, s, ds);
    n := ExactlyOnce(cfg, log, s, UpToFailure(s, cfg, ds));
    assert TookOf(cfg, log, s, ReceiveAll(cfg, s, UpToFailure(s, cfg, ds)), n, Unread(log, s.after));
  }

  lemma TookMore(cfg: Config, log: seq<Entry>, s: State, mid: State, end: State, a: nat, b: nat)
    requires Took(cfg, log, s, mid, a) && Took(cfg, log, mid, end, b)
    ensures Took(cfg, log, s, end, a + b)
  {
    var rest := Unread(log, s.after);
    assert rest[..a + b] == rest[..a] + rest[a..][..b];
    assert rest[a + b..] == rest[a..][b..];
    IngestAllSplit(cfg, s, rest[..a], rest[a..][..b]);
    assert TookOf(cfg, log, s, end, a + b, rest);
  }

  lemma TookNothing(cfg: Config, log: seq<Entry>, s: State)
    requires Valid(s)
    ensures Took(cfg, log, s, s, 0)
  {
    var rest := Unread(log, s.after);
    assert rest[..0] == [] && rest[0..] == rest;
    assert TookOf(cfg, log, s, s, 0, rest);
  }

  lemma FirstConnection(cfg: Config, log: seq<Entry>, s: State, cs: seq<seq<Delivery>>) returns (mid: State, n: nat)
    requires Valid(s) && Log(log) && Connections(cfg, log, s, cs) && cs != []
    ensures Valid(mid) && Took(cfg, log, s, mid, n)
    ensures Connections(cfg, log, mid, cs[1..]) && ConnectAll(cfg, s, cs) == ConnectAll(cfg, mid, cs[1..])
  {
    mid := ReceiveAll(cfg, s, UpToFailure(s, cfg, cs[0]));
    n := OneConnection(cfg, log, s, cs[0]);
  }

  // Whatever connections there were, over either transport, repeating what was delivered
  // before or cut short: the state is that of ingesting the next n events of the log once.
  lemma {:induction false} ConnectionsExactlyOnce(cfg: Config, log: seq<Entry>, s: State, cs: seq<seq<Delivery>>) returns (n: nat)
    requires Valid(s) && Log(log) && Connections(cfg, log, s, cs)
    ensures Took(cfg, log, s, ConnectAll(cfg, s, cs), n)
    decreases |cs|
  {
    if cs == [] {
      n := 0;
      TookNothing(cfg, log, s);
    } else {
      var mid, a := FirstConnection(cfg, log, s, cs);
      var b := ConnectionsExactlyOnce(cfg, log, mid, cs[1..]);
      TookMore(cfg, log, s, mid, ConnectAll(cfg, mid, cs[1..]), a, b);
      n := a + b;
    }
  }

  // The connection as it is consumed: stops at the first delivery that fails; the rest of the connection is lost.
  method Consume(c: Inbox.Controller, ds: seq<Delivery>) returns (done: nat)
    requires Valid(c.state)
    modifies c`state
    ensures done <= |ds| && c.state == ReceiveAll(c.cfg, old(c.state), ds[..done]) && Valid(c.state)
    ensures done < |ds| ==> !Works(ds[done]) && ds[done].event.seqNo > c.state.after
  {
    done := 0;
    assert ds[..0] == [];
    while done < |ds|
      invariant done <= |ds| && Valid(c.state)
      invariant c.state == ReceiveAll(c.cfg, old(c.state), ds[..done])
    {
      var d := ds[done];
      ReceiveSnoc(c.cfg, old(c.state), ds[..done], d);
      assert ds[..done + 1] == ds[..done] + [d];
      if d.event.seqNo > c.state.after {
        if d.check.Fails? {
          return;
        }
        IngestAdvances(c.cfg, c.state, d.event, d.check.Genuine?);
        var accepted, err := c.Ingest(d.event, d.check.Genuine?, d.disk);
        if err.Some? {
          return;
        }
      }
      done := done + 1;
    }
  }

  lemma {:induction false} ReceiveSnoc(cfg: Config, s: State, ds: seq<Delivery>, d: Delivery)
    ensures ReceiveAll(cfg, s, ds + [d]) == Received(cfg, ReceiveAll(cfg, s, ds), d)
    decreases |ds|
  {
    if ds == [] {
      assert [d][1..] == [];
    } else {
      assert (ds + [d])[0] == ds[0] && (ds + [d])[1..] == ds[1..] + [d];
      ReceiveSnoc(cfg, Received(cfg, s, ds[0]), ds[1..], d);
    }
  }
}

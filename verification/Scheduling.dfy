// The stable priority order in which records are kept, and what it means for the choice
// of the next record.
module Scheduling {
  import opened Text
  import opened Commitments

  // Places x behind every record of at least its priority: one step of the stable sort.
  function Insert(rs: seq<Request>, x: Request): seq<Request> {
    if rs == [] then [x]
    else
      var n := |rs| - 1;
      if Priority(rs[n]) >= Priority(x) then rs + [x] else Insert(rs[..n], x) + [rs[n]]
  }

  function ByPriority(rs: seq<Request>): seq<Request> {
    if rs == [] then [] else Insert(ByPriority(rs[..|rs| - 1]), rs[|rs| - 1])
  }

  ghost predicate Ordered(rs: seq<Request>) {
    forall i, j :: 0 <= i < j < |rs| ==> Priority(rs[i]) >= Priority(rs[j])
  }

  // The records of one priority class, in their order of appearance.
  ghost function Class(rs: seq<Request>, p: int): seq<Request> {
    if rs == [] then []
    else Class(rs[..|rs| - 1], p) + if Priority(rs[|rs| - 1]) == p then [rs[|rs| - 1]] else []
  }

  lemma InsertBasics(rs: seq<Request>, x: Request)
    ensures multiset(Insert(rs, x)) == multiset(rs) + multiset{x}
    ensures |Insert(rs, x)| == |rs| + 1
    ensures forall r :: r in Insert(rs, x) <==> r == x || r in rs
  {
    InsertBag(rs, x);
    forall r ensures r in Insert(rs, x) <==> r == x || r in rs {
      assert r in Insert(rs, x) <==> r in multiset(Insert(rs, x));
      assert r in rs <==> r in multiset(rs);
    }
  }

  lemma {:induction false} InsertBag(rs: seq<Request>, x: Request)
    ensures multiset(Insert(rs, x)) == multiset(rs) + multiset{x} && |Insert(rs, x)| == |rs| + 1
  {
    if rs != [] {
      var n := |rs| - 1;
      assert rs == rs[..n] + [rs[n]];
      InsertBag(rs[..n], x);
    }
  }

  lemma {:induction false} InsertOrdered(rs: seq<Request>, x: Request)
    requires Ordered(rs)
    ensures Ordered(Insert(rs, x))
  {
    if rs != [] {
      var n := |rs| - 1;
      if Priority(rs[n]) < Priority(x) {
        InsertOrdered(rs[..n], x);
        InsertBasics(rs[..n], x);
        var front := Insert(rs[..n], x);
        forall i | 0 <= i < |front| ensures Priority(front[i]) >= Priority(rs[n]) {
          assert front[i] in front;
        }
      }
    }
  }

  lemma {:induction false} ClassConcat(a: seq<Request>, b: seq<Request>, p: int)
    ensures Class(a + b, p) == Class(a, p) + Class(b, p)
  {
    if b == [] {
      assert a + b == a;
    } else {
      var n := |b| - 1;
      assert (a + b)[..|a + b| - 1] == a + b[..n];
      ClassConcat(a, b[..n], p);
    }
  }

  lemma {:induction false} InsertClass(rs: seq<Request>, x: Request, p: int)
    requires Ordered(rs)
    ensures Class(Insert(rs, x), p) == Class(rs, p) + if Priority(x) == p then [x] else []
  {
    if rs == [] {
      ClassSnoc([], x, p);
    } else {
      var n := |rs| - 1;
      if Priority(rs[n]) >= Priority(x) {
        ClassSnoc(rs, x, p);
      } else {
        InsertClass(rs[..n], x, p);
        ClassSnoc(Insert(rs[..n], x), rs[n], p);
        EmptySwap(Class(rs[..n], p), if Priority(x) == p then [x] else [], if Priority(rs[n]) == p then [rs[n]] else []);
      }
    }
  }

  lemma ClassSnoc(front: seq<Request>, r: Request, p: int)
    ensures Class(front + [r], p) == Class(front, p) + if Priority(r) == p then [r] else []
  {
    assert (front + [r])[..|front|] == front;
  }

  lemma EmptySwap(a: seq<Request>, b: seq<Request>, c: seq<Request>)
    requires b == [] || c == []
    ensures (a + b) + c == (a + c) + b
  {
  }

  // The sort keeps every record, orders the classes, and leaves each class in its
  // original order.
  lemma {:induction false} SortMeaning(rs: seq<Request>)
    ensures Ordered(ByPriority(rs))
    ensures multiset(ByPriority(rs)) == multiset(rs)
    ensures forall p :: Class(ByPriority(rs), p) == Class(rs, p)
  {
    if rs != [] {
      var n := |rs| - 1;
      var front := ByPriority(rs[..n]);
      SortMeaning(rs[..n]);
      assert rs == rs[..n] + [rs[n]];
      InsertOrdered(front, rs[n]);
      InsertBasics(front, rs[n]);
      forall p ensures Class(ByPriority(rs), p) == Class(rs, p) {
        InsertClass(front, rs[n], p);
      }
    }
  }

  lemma {:induction false} SortMembers(rs: seq<Request>)
    ensures |ByPriority(rs)| == |rs|
    ensures forall r :: r in ByPriority(rs) <==> r in rs
  {
    SortMeaning(rs);
    assert |ByPriority(rs)| == |multiset(ByPriority(rs))| == |multiset(rs)|;
    forall r ensures r in ByPriority(rs) <==> r in rs {
      assert r in ByPriority(rs) <==> r in multiset(ByPriority(rs));
      assert r in rs <==> r in multiset(rs);
    }
  }

  lemma {:induction false} SortedIsFixed(rs: seq<Request>)
    requires Ordered(rs)
    ensures ByPriority(rs) == rs
  {
    if rs != [] {
      var n := |rs| - 1;
      SortedIsFixed(rs[..n]);
      assert rs == rs[..n] + [rs[n]];
    }
  }

  // Sorting again changes nothing.
  lemma SortIdempotent(rs: seq<Request>)
    ensures ByPriority(ByPriority(rs)) == ByPriority(rs)
  {
    SortMeaning(rs);
    SortedIsFixed(ByPriority(rs));
  }

  // Dropping the last record drops it from its class only.
  lemma ClassInit(rs: seq<Request>, p: int)
    requires rs != []
    ensures var n := |rs| - 1;
            if Priority(rs[n]) == p
            then |Class(rs, p)| > 0 && Class(rs, p)[|Class(rs, p)| - 1] == rs[n]
                 && Class(rs[..n], p) == Class(rs, p)[..|Class(rs, p)| - 1]
            else Class(rs[..n], p) == Class(rs, p)
  {
    var n := |rs| - 1;
    assert Class(rs, p) == Class(rs[..n], p) + if Priority(rs[n]) == p then [rs[n]] else [];
  }

  lemma SameLast(a: seq<Request>, b: seq<Request>)
    requires Ordered(a) && Ordered(b) && (a != [] || b != [])
    requires forall p :: Class(a, p) == Class(b, p)
    ensures a != [] && b != [] && a[|a| - 1] == b[|b| - 1]
  {
    var c := if a == [] then b else a;
    var p := Priority(c[|c| - 1]);
    ClassInit(c, p);
    assert Class(a, p) == Class(b, p) != [];
    assert a != [] && b != [];
    LastBelongs(a, b);
    LastBelongs(b, a);
    ClassInit(a, p);
    ClassInit(b, p);
  }

  // There is only one ordering with the meaning above, so any stable sort computes it.
  lemma {:induction false} StableOrderUnique(a: seq<Request>, b: seq<Request>)
    requires Ordered(a) && Ordered(b) && SameClasses(a, b)
    ensures a == b
  {
    if a != [] || b != [] {
      SameLast(a, b);
      SameInits(a, b);
      StableOrderUnique(a[..|a| - 1], b[..|b| - 1]);
      assert a == a[..|a| - 1] + [a[|a| - 1]] && b == b[..|b| - 1] + [b[|b| - 1]];
    }
  }

  ghost predicate SameClasses(a: seq<Request>, b: seq<Request>) {
    forall p :: Class(a, p) == Class(b, p)
  }

  lemma SameInits(a: seq<Request>, b: seq<Request>)
    requires a != [] && b != [] && a[|a| - 1] == b[|b| - 1] && SameClasses(a, b)
    ensures SameClasses(a[..|a| - 1], b[..|b| - 1])
  {
    var x, y := a[..|a| - 1], b[..|b| - 1];
    forall q ensures Class(x, q) == Class(y, q) {
      assert Class(a, q) == Class(b, q);
      ClassInit(a, q);
      ClassInit(b, q);
    }
  }

  lemma {:induction false} ClassNonEmpty(rs: seq<Request>, p: int)
    requires |Class(rs, p)| > 0
    ensures exists k :: 0 <= k < |rs| && Priority(rs[k]) == p
  {
    if rs != [] && Priority(rs[|rs| - 1]) != p {
      ClassNonEmpty(rs[..|rs| - 1], p);
      var k :| 0 <= k < |rs| - 1 && Priority(rs[..|rs| - 1][k]) == p;
      assert Priority(rs[k]) == p;
    }
  }

  lemma {:induction false} LastBelongs(a: seq<Request>, b: seq<Request>)
    requires Ordered(a) && Ordered(b) && a != [] && b != []
    requires forall p :: Class(a, p) == Class(b, p)
    ensures Priority(b[|b| - 1]) <= Priority(a[|a| - 1])
  {
    var p := Priority(a[|a| - 1]);
    assert |Class(a, p)| > 0;
    assert |Class(b, p)| > 0;
    ClassNonEmpty(b, p);
  }

  // The first eligible record, or |rs|.
  function Runnable(s: State): (n: nat)
    ensures n <= |s.requests|
  {
    FirstEligible(s, 0)
  }

  function FirstEligible(s: State, from: nat): (n: nat)
    requires from <= |s.requests|
    ensures from <= n <= |s.requests|
    ensures n < |s.requests| ==> Eligible(s, s.requests[n])
    ensures forall k :: from <= k < n ==> !Eligible(s, s.requests[k])
    decreases |s.requests| - from
  {
    if from == |s.requests| then from
    else if Eligible(s, s.requests[from]) then from
    else FirstEligible(s, from + 1)
  }

  // The chosen record has the highest priority of all eligible ones and is the first of
  // its class; nothing is chosen only when nothing is eligible.
  lemma RunnableIsBest(s: State)
    requires Ordered(s.requests)
    ensures var n := Runnable(s);
            && (n == |s.requests| <==> forall r <- s.requests :: !Eligible(s, r))
            && (n < |s.requests| ==>
                  && Eligible(s, s.requests[n])
                  && (forall k :: 0 <= k < |s.requests| && Eligible(s, s.requests[k]) ==>
                        Priority(s.requests[n]) >= Priority(s.requests[k])
                        && (Priority(s.requests[n]) == Priority(s.requests[k]) ==> n <= k)))
  {
    var n := Runnable(s);
    if n < |s.requests| {
      assert s.requests[n] in s.requests;
    }
  }
}

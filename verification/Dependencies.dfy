// Explicit dependencies between records and the depth-first check that a new plan must
// pass (cmd/tincan/inbox_requests.go, plan).
module Dependencies {
  import opened Text
  import opened Commitments

  ghost predicate UniqueIds(rs: seq<Request>) {
    forall i, j :: 0 <= i < j < |rs| ==> rs[i].event.seqNo != rs[j].event.seqNo
  }

  ghost predicate Edge(rs: seq<Request>, a: int, b: int) {
    exists r :: r in rs && r.event.seqNo == a && b in r.dependencies
  }

  // Following dependencies from `id` ends within n steps, always at existing records.
  ghost predicate Grounded(rs: seq<Request>, id: int, n: nat)
    decreases n
  {
    n > 0 && Known(rs, id) && forall d :: Edge(rs, id, d) ==> Grounded(rs, d, n - 1)
  }

  ghost predicate Sound(rs: seq<Request>, id: int) {
    exists n: nat :: Grounded(rs, id, n)
  }

  // No record depends, however indirectly, on itself or on something unknown.
  ghost predicate AllSound(rs: seq<Request>) {
    forall r :: r in rs ==> Sound(rs, r.event.seqNo)
  }

  // A chain of dependencies starting at w[0].
  ghost predicate Walk(rs: seq<Request>, w: seq<int>) {
    |w| > 0 && forall k :: 0 <= k < |w| - 1 ==> Edge(rs, w[k], w[k + 1])
  }

  ghost predicate Clean(rs: seq<Request>, w: seq<int>) {
    && (forall x :: x in w ==> Known(rs, x))
    && (forall i, j :: 0 <= i < j < |w| ==> w[i] != w[j])
  }

  lemma {:induction false} GroundedMore(rs: seq<Request>, id: int, n: nat, m: nat)
    requires Grounded(rs, id, n) && n <= m
    ensures Grounded(rs, id, m)
    decreases n
  {
    forall d | Edge(rs, id, d) ensures Grounded(rs, d, m - 1) {
      GroundedMore(rs, d, n - 1, m - 1);
    }
  }

  lemma {:induction false} WalkDescends(rs: seq<Request>, w: seq<int>, k: nat, n: nat)
    requires Walk(rs, w) && k < |w| && Grounded(rs, w[0], n)
    ensures n > k && Grounded(rs, w[k], n - k)
    decreases k
  {
    if k > 0 {
      WalkDescends(rs, w, k - 1, n);
      assert Edge(rs, w[k - 1], w[k - 1 + 1]);
    }
  }

  lemma {:induction false} CycleNeverEnds(rs: seq<Request>, w: seq<int>, n: nat)
    requires Walk(rs, w) && Edge(rs, w[|w| - 1], w[0])
    ensures !Grounded(rs, w[0], n)
    decreases n
  {
    if Grounded(rs, w[0], n) {
      WalkDescends(rs, w, |w| - 1, n);
      CycleNeverEnds(rs, w, n - |w|);
    }
  }

  // A failing descent leaves a trace: a chain that is too long or ends at an unknown record.
  lemma {:induction false} Trace(rs: seq<Request>, id: int, n: nat) returns (w: seq<int>)
    requires !Grounded(rs, id, n)
    ensures Walk(rs, w) && w[0] == id
    ensures |w| == n + 1 || !Known(rs, w[|w| - 1])
    decreases n
  {
    if n == 0 || !Known(rs, id) {
      w := [id];
    } else {
      var d :| Edge(rs, id, d) && !Grounded(rs, d, n - 1);
      var tail := Trace(rs, d, n - 1);
      w := [id] + tail;
      forall k | 0 <= k < |w| - 1 ensures Edge(rs, w[k], w[k + 1]) {
        if k > 0 {
          assert Edge(rs, tail[k - 1], tail[k - 1 + 1]);
        }
      }
    }
  }

  lemma {:induction false} Pigeonhole(w: seq<int>, ids: set<int>)
    requires forall x :: x in w ==> x in ids
    requires forall i, j :: 0 <= i < j < |w| ==> w[i] != w[j]
    ensures |w| <= |ids|
  {
    if w != [] {
      var x := w[|w| - 1];
      Pigeonhole(w[..|w| - 1], ids - {x});
    }
  }

  function Ids(rs: seq<Request>): set<int> {
    set r | r in rs :: r.event.seqNo
  }

  lemma {:induction false} FewIds(rs: seq<Request>)
    ensures |Ids(rs)| <= |rs|
  {
    if rs != [] {
      var n := |rs| - 1;
      FewIds(rs[..n]);
      assert Ids(rs) <= Ids(rs[..n]) + {rs[n].event.seqNo} by {
        assert rs == rs[..n] + [rs[n]];
      }
      SubsetSize(Ids(rs), Ids(rs[..n]) + {rs[n].event.seqNo});
    }
  }

  lemma SubsetSize(a: set<int>, b: set<int>)
    requires a <= b
    ensures |a| <= |b|
  {
    assert b == a + (b - a);
  }

  // Soundness of a record is exactly: every chain of dependencies from it visits existing
  // records only, and none of them twice.
  lemma SoundMeansAcyclic(rs: seq<Request>, id: int)
    ensures Sound(rs, id) <==> forall w :: Walk(rs, w) && w[0] == id ==> Clean(rs, w)
  {
    if Sound(rs, id) {
      var n: nat :| Grounded(rs, id, n);
      forall w | Walk(rs, w) && w[0] == id ensures Clean(rs, w) {
        forall x | x in w ensures Known(rs, x) {
          var k :| 0 <= k < |w| && w[k] == x;
          WalkDescends(rs, w, k, n);
        }
        forall i, j | 0 <= i < j < |w| ensures w[i] != w[j] {
          WalkDescends(rs, w, i, n);
          if w[i] == w[j] {
            var loop := w[i..j];
            assert Walk(rs, loop) by {
              forall k | 0 <= k < |loop| - 1 ensures Edge(rs, loop[k], loop[k + 1]) {
                assert Edge(rs, w[i + k], w[i + k + 1]);
              }
            }
            assert Edge(rs, w[j - 1], w[j - 1 + 1]);
            CycleNeverEnds(rs, loop, n - i);
          }
        }
      }
    } else {
      var bound := |rs|;
      var w := Trace(rs, id, bound);
      if Clean(rs, w) {
        assert w[|w| - 1] in w;
        Pigeonhole(w, Ids(rs));
        FewIds(rs);
        assert false;
      }
    }
  }

  // Everything below depends on a set of records only through the edges they carry.
  lemma {:induction false} SoundTransfers(rs: seq<Request>, next: seq<Request>, id: int, n: nat)
    requires Grounded(rs, id, n)
    requires forall x :: Known(rs, x) ==> Known(next, x)
    requires forall x, y :: Known(rs, x) && Edge(next, x, y) ==> Edge(rs, x, y)
    ensures Grounded(next, id, n)
    decreases n
  {
    forall d | Edge(next, id, d) ensures Grounded(next, d, n - 1) {
      assert Edge(rs, id, d);
      SoundTransfers(rs, next, d, n - 1);
    }
  }

  // A re-planned record that is sound again leaves everything else sound.
  lemma {:induction false} ReplanKeepsOthers(rs: seq<Request>, next: seq<Request>, planned: int, m: nat, id: int, n: nat)
    requires Grounded(rs, id, n) && Grounded(next, planned, m)
    requires forall x :: Known(rs, x) ==> Known(next, x)
    requires forall x, y :: x != planned && Edge(next, x, y) ==> Edge(rs, x, y)
    ensures Grounded(next, id, n + m)
    decreases n
  {
    if id == planned {
      GroundedMore(next, planned, m, n + m);
    } else {
      forall d | Edge(next, id, d) ensures Grounded(next, d, n + m - 1) {
        assert Edge(rs, id, d);
        ReplanKeepsOthers(rs, next, planned, m, d, n - 1);
      }
    }
  }

  lemma BackEdge(rs: seq<Request>, path: seq<int>, id: int)
    requires Walk(rs, path) && Edge(rs, path[|path| - 1], id) && id in path
    ensures !Sound(rs, id)
  {
    var k :| 0 <= k < |path| && path[k] == id;
    var loop := path[k..];
    assert Walk(rs, loop) by {
      forall j | 0 <= j < |loop| - 1 ensures Edge(rs, loop[j], loop[j + 1]) {
        assert Edge(rs, path[k + j], path[k + j + 1]);
      }
    }
    forall n: nat ensures !Grounded(rs, id, n) {
      CycleNeverEnds(rs, loop, n);
    }
  }

  lemma PathGrows(rs: seq<Request>, path: seq<int>, id: int)
    requires path != [] ==> Walk(rs, path) && Edge(rs, path[|path| - 1], id)
    ensures Walk(rs, path + [id])
    ensures (set x | x in path + [id]) == (set x | x in path) + {id}
  {
    var longer := path + [id];
    forall j | 0 <= j < |longer| - 1 ensures Edge(rs, longer[j], longer[j + 1]) {
      if j < |path| - 1 {
        assert Edge(rs, path[j], path[j + 1]);
      }
    }
  }

  lemma SoundBelow(rs: seq<Request>, id: int, d: int)
    requires Edge(rs, id, d)
    ensures Sound(rs, id) ==> Sound(rs, d)
  {
    if Sound(rs, id) {
      var m: nat :| Grounded(rs, id, m);
      assert Grounded(rs, d, m - 1);
    }
  }

  // What a finished colouring knows: every visited record ends within `height` steps.
  ghost predicate Explored(rs: seq<Request>, visited: set<int>, height: nat) {
    forall v :: v in visited ==> Grounded(rs, v, height)
  }

  lemma Finished(rs: seq<Request>, visited: set<int>, height: nat, id: int, n: nat)
    requires UniqueIds(rs) && n < |rs| && rs[n].event.seqNo == id
    requires Explored(rs, visited, height)
    requires forall d :: d in rs[n].dependencies ==> d in visited
    ensures Explored(rs, visited + {id}, height + 1)
  {
    assert rs[n] in rs;
    EdgesAre(rs, id, n);
    forall v | v in visited ensures Grounded(rs, v, height + 1) {
      GroundedMore(rs, v, height, height + 1);
    }
  }

  lemma EdgesAre(rs: seq<Request>, id: int, n: nat)
    requires UniqueIds(rs) && n < |rs| && rs[n].event.seqNo == id
    ensures forall d :: Edge(rs, id, d) <==> d in rs[n].dependencies
  {
    forall r | r in rs && r.event.seqNo == id ensures r == rs[n] {
      var k :| 0 <= k < |rs| && rs[k] == r;
    }
  }

  lemma Left(path: seq<int>, visiting: set<int>, id: int)
    requires id !in visiting
    ensures (path + [id])[..|path + [id]| - 1] == path && (visiting + {id}) - {id} == visiting
  {
  }

  lemma IdIsKnown(rs: seq<Request>, n: nat)
    requires n < |rs|
    ensures rs[n].event.seqNo in Ids(rs)
  {
    assert rs[n] in rs;
  }

  // The check itself: colouring with the two sets `visiting` and `visited`.
  class Check {
    const rs: seq<Request>
    var visiting: set<int>
    var visited: set<int>
    ghost var path: seq<int>
    ghost var height: nat

    constructor (rs: seq<Request>)
      requires UniqueIds(rs)
      ensures this.rs == rs && Valid() && path == []
    {
      this.rs := rs;
      visiting, visited, path, height := {}, {}, [], 0;
    }

    ghost predicate Valid()
      reads this
    {
      && UniqueIds(rs)
      && visiting == (set x | x in path) && visiting <= Ids(rs)
      && (path != [] ==> Walk(rs, path))
      && Explored(rs, visited, height)
    }

    method Visit(id: int) returns (ok: bool)
      requires Valid()
      requires path != [] ==> Edge(rs, path[|path| - 1], id)
      modifies this
      ensures ok <==> Sound(rs, id)
      ensures ok ==> Valid() && path == old(path) && visiting == old(visiting)
      ensures ok ==> id in visited && old(visited) <= visited
      decreases Ids(rs) - visiting
    {
      if id in visiting {
        BackEdge(rs, path, id);
        return false;
      }
      if id in visited {
        return true;
      }
      var n := Position(rs, id);
      if n == |rs| {
        assert !Known(rs, id);
        return false;
      }
      IdIsKnown(rs, n);
      PathGrows(rs, path, id);
      EdgesAre(rs, id, n);
      visiting := visiting + {id};
      path := path + [id];
      var deps := rs[n].dependencies;
      var k := 0;
      while k < |deps|
        invariant 0 <= k <= |deps|
        invariant Valid() && path == old(path) + [id] && visiting == old(visiting) + {id}
        invariant old(visited) <= visited
        invariant forall j :: 0 <= j < k ==> deps[j] in visited
      {
        assert Edge(rs, id, deps[k]);
        var below := Visit(deps[k]);
        if !below {
          SoundBelow(rs, id, deps[k]);
          return false;
        }
        k := k + 1;
      }
      Finished(rs, visited, height, id, n);
      Left(old(path), old(visiting), id);
      visiting := visiting - {id};
      path := path[..|path| - 1];
      visited := visited + {id};
      height := height + 1;
      return true;
    }
  }
}

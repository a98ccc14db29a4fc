// The keyed trigram filter that speeds up encrypted search
// (cmd/tincan/encryption_history.go historyIndexPositions, historyIndex, historyIndexMayMatch).
module SearchIndex {
  newtype byte = x: int | 0 <= x < 256

  type Bytes = seq<byte>

  // The keyed hash of the standard library: 32 bytes for any key and any token.
  type Mac = (Bytes, Bytes) -> Bytes

  ghost predicate IsMac(mac: Mac) {
    forall key, token :: |mac(key, token)| == 32
  }

  // Lower case, as the standard library computes it, is not changed by being computed again.
  ghost predicate IsLower(lower: Bytes -> Bytes) {
    forall s :: lower(lower(s)) == lower(s)
  }

  const BITS := 2048
  const FILTER_BYTES := 256

  function Bit16(high: byte, low: byte): (p: nat)
    ensures p < BITS
  {
    ((high as int) * 256 + (low as int)) % BITS
  }

  // The three filter positions of a token.
  function Positions(mac: Mac, key: Bytes, token: Bytes): (ps: seq<nat>)
    requires |mac(key, token)| == 32
    ensures |ps| == 3 && forall p <- ps :: p < BITS
    ensures forall k :: 0 <= k < 3 ==>
              ps[k] == ((mac(key, token)[2 * k] as int) * 256 + (mac(key, token)[2 * k + 1] as int)) % 2048
  {
    var sum := mac(key, token);
    [Bit16(sum[0], sum[1]), Bit16(sum[2], sum[3]), Bit16(sum[4], sum[5])]
  }

  function Trigram(text: Bytes, i: nat): Bytes
    requires i + 3 <= |text|
  {
    text[i..i + 3]
  }

  // How many trigrams there are.
  function Trigrams(text: Bytes): nat {
    if |text| < 3 then 0 else |text| - 2
  }

  // p is a position of one of the first n trigrams of the text.
  ghost predicate Marked(mac: Mac, key: Bytes, text: Bytes, n: nat, p: nat)
    requires IsMac(mac) && n <= Trigrams(text)
  {
    exists i :: 0 <= i < n && p in Positions(mac, key, Trigram(text, i))
  }

  // ----- Bits -----

  function Mask(k: nat): bv8
    requires k < 8
  {
    (1 as bv8) << k
  }

  predicate BitOf(b: bv8, k: nat)
    requires k < 8
  {
    b & Mask(k) != 0
  }

  predicate Bit(filter: seq<bv8>, p: nat)
    requires |filter| == FILTER_BYTES && p < BITS
  {
    BitOf(filter[p / 8], p % 8)
  }

  lemma SetBit(b: bv8, k: nat, j: nat)
    requires k < 8 && j < 8
    ensures BitOf(b | Mask(k), j) <==> k == j || BitOf(b, j)
  {
    Masks(k);
    Masks(j);
    OrBits(b, Mask(k), Mask(j));
    if k != j {
      MasksDiffer(k, j);
    }
  }

  lemma Masks(k: nat)
    requires k < 8
    ensures Mask(k) != 0 && Mask(k) in {1, 2, 4, 8, 16, 32, 64, 128}
    ensures Mask(k) as int == [1, 2, 4, 8, 16, 32, 64, 128][k]
  {
    if k == 0 { assert (1 as bv8) << 0 == 1; }
    else if k == 1 { assert (1 as bv8) << 1 == 2; }
    else if k == 2 { assert (1 as bv8) << 2 == 4; }
    else if k == 3 { assert (1 as bv8) << 3 == 8; }
    else if k == 4 { assert (1 as bv8) << 4 == 16; }
    else if k == 5 { assert (1 as bv8) << 5 == 32; }
    else if k == 6 { assert (1 as bv8) << 6 == 64; }
    else { assert (1 as bv8) << 7 == 128; }
  }

  lemma MasksDiffer(k: nat, j: nat)
    requires k < 8 && j < 8 && k != j
    ensures Mask(k) & Mask(j) == 0
  {
    Masks(k);
    Masks(j);
    SingleBits(Mask(k), Mask(j));
  }

  lemma SingleBits(a: bv8, b: bv8)
    requires a in {1, 2, 4, 8, 16, 32, 64, 128} && b in {1, 2, 4, 8, 16, 32, 64, 128} && a != b
    ensures a & b == 0
  {
  }

  lemma OrBits(b: bv8, m: bv8, n: bv8)
    ensures (b | m) & n == (b & n) | (m & n)
  {
  }

  // A byte is determined by its bits, and so a filter by its marks.
  lemma SameBits(a: bv8, b: bv8)
    requires forall k :: 0 <= k < 8 ==> (BitOf(a, k) <==> BitOf(b, k))
    ensures a == b
  {
    forall k | 0 <= k < 8 ensures a & Mask(k) == b & Mask(k) {
      Masks(k);
      assert BitOf(a, k) <==> BitOf(b, k);
      OneBit(a, Mask(k));
      OneBit(b, Mask(k));
    }
    Masks(0); Masks(1); Masks(2); Masks(3); Masks(4); Masks(5); Masks(6); Masks(7);
    MasksAre();
    assert a & 1 == b & 1 && a & 2 == b & 2 && a & 4 == b & 4 && a & 8 == b & 8;
    assert a & 16 == b & 16 && a & 32 == b & 32 && a & 64 == b & 64 && a & 128 == b & 128;
    AllBits(a, b);
  }

  lemma MasksAre()
    ensures Mask(0) == 1 && Mask(1) == 2 && Mask(2) == 4 && Mask(3) == 8
    ensures Mask(4) == 16 && Mask(5) == 32 && Mask(6) == 64 && Mask(7) == 128
  {
  }

  lemma OneBit(a: bv8, m: bv8)
    requires m in {1, 2, 4, 8, 16, 32, 64, 128}
    ensures a & m == 0 || a & m == m
  {
  }

  lemma AllBits(a: bv8, b: bv8)
    requires a & 1 == b & 1 && a & 2 == b & 2 && a & 4 == b & 4 && a & 8 == b & 8
    requires a & 16 == b & 16 && a & 32 == b & 32 && a & 64 == b & 64 && a & 128 == b & 128
    ensures a == b
  {
  }

  // ----- The filter -----

  // The filter of a text marks exactly the positions of its trigrams.
  ghost predicate IsIndex(mac: Mac, lower: Bytes -> Bytes, key: Bytes, text: Bytes, filter: seq<bv8>)
    requires IsMac(mac)
  {
    && |filter| == FILTER_BYTES
    && forall p :: 0 <= p < BITS ==> (Bit(filter, p) <==> Marked(mac, key, lower(text), Trigrams(lower(text)), p))
  }

  lemma IndexUnique(mac: Mac, lower: Bytes -> Bytes, key: Bytes, text: Bytes, f: seq<bv8>, g: seq<bv8>)
    requires IsMac(mac) && IsIndex(mac, lower, key, text, f) && IsIndex(mac, lower, key, text, g)
    ensures f == g
  {
    forall n | 0 <= n < FILTER_BYTES ensures f[n] == g[n] {
      forall k | 0 <= k < 8 ensures BitOf(f[n], k) <==> BitOf(g[n], k) {
        var p := 8 * n + k;
        assert p / 8 == n && p % 8 == k;
        assert Bit(f, p) <==> Bit(g, p);
      }
      SameBits(f[n], g[n]);
    }
  }

  method HistoryIndex(mac: Mac, lower: Bytes -> Bytes, key: Bytes, text: Bytes) returns (filter: seq<bv8>)
    requires IsMac(mac)
    ensures IsIndex(mac, lower, key, text, filter)
  {
    var bits := new bv8[FILTER_BYTES](_ => 0);
    var low := lower(text);
    forall p | 0 <= p < BITS ensures !Bit(bits[..], p) {
      NoBits(p % 8);
    }
    var i := 0;
    while i + 3 <= |low|
      invariant i <= Trigrams(low)
      invariant forall p :: 0 <= p < BITS ==> (Bit(bits[..], p) <==> Marked(mac, key, low, i, p))
    {
      MarkAll(bits, Positions(mac, key, Trigram(low, i)));
      forall p | 0 <= p < BITS
        ensures Marked(mac, key, low, i + 1, p) <==>
                Marked(mac, key, low, i, p) || p in Positions(mac, key, Trigram(low, i))
      {
        MarkedNext(mac, key, low, i, p);
      }
      i := i + 1;
    }
    filter := bits[..];
  }

  lemma NoBits(k: nat)
    requires k < 8
    ensures !BitOf(0, k)
  {
    ZeroAnd(Mask(k));
  }

  lemma ZeroAnd(m: bv8)
    ensures 0 & m == 0
  {
  }

  lemma MarkedNext(mac: Mac, key: Bytes, text: Bytes, i: nat, p: nat)
    requires IsMac(mac) && i + 1 <= Trigrams(text)
    ensures Marked(mac, key, text, i + 1, p) <==>
            Marked(mac, key, text, i, p) || p in Positions(mac, key, Trigram(text, i))
  {
    if Marked(mac, key, text, i, p) {
      var k :| 0 <= k < i && p in Positions(mac, key, Trigram(text, k));
      assert 0 <= k < i + 1;
    }
  }

  method MarkAll(bits: array<bv8>, ps: seq<nat>)
    requires bits.Length == FILTER_BYTES && forall p <- ps :: p < BITS
    modifies bits
    ensures forall p :: 0 <= p < BITS ==> (Bit(bits[..], p) <==> old(Bit(bits[..], p)) || p in ps)
  {
    var n := 0;
    while n < |ps|
      invariant n <= |ps|
      invariant forall p :: 0 <= p < BITS ==> (Bit(bits[..], p) <==> old(Bit(bits[..], p)) || p in ps[..n])
    {
      var q := ps[n];
      assert q in ps;
      ghost var before := bits[..];
      bits[q / 8] := bits[q / 8] | Mask(q % 8);
      MarkedOne(before, bits[..], q);
      assert ps[..n + 1] == ps[..n] + [q];
      n := n + 1;
    }
    assert ps[..n] == ps;
  }

  lemma MarkedOne(f: seq<bv8>, g: seq<bv8>, q: nat)
    requires |f| == FILTER_BYTES && q < BITS && g == f[q / 8 := f[q / 8] | Mask(q % 8)]
    ensures forall p :: 0 <= p < BITS ==> (Bit(g, p) <==> Bit(f, p) || p == q)
  {
    forall p | 0 <= p < BITS ensures Bit(g, p) <==> Bit(f, p) || p == q {
      if p / 8 == q / 8 {
        SetBit(f[q / 8], q % 8, p % 8);
      }
    }
  }

  method MayMatch(mac: Mac, lower: Bytes -> Bytes, filter: seq<bv8>, key: Bytes, query: Bytes) returns (yes: bool)
    requires IsMac(mac)
    ensures yes == Possible(mac, lower, filter, key, query)
  {
    if |filter| != FILTER_BYTES {
      return true;
    }
    var low := lower(query);
    var i := 0;
    while i + 3 <= |low|
      invariant i <= Trigrams(low)
      invariant forall p: nat :: Marked(mac, key, low, i, p) ==> p < BITS && Bit(filter, p)
    {
      var ps := Positions(mac, key, Trigram(low, i));
      var n := 0;
      while n < |ps|
        invariant n <= |ps|
        invariant forall j :: 0 <= j < n ==> Bit(filter, ps[j])
      {
        if !Bit(filter, ps[n]) {
          assert Marked(mac, key, low, Trigrams(low), ps[n]);
          return false;
        }
        n := n + 1;
      }
      forall p: nat | Marked(mac, key, low, i + 1, p) ensures p < BITS && Bit(filter, p) {
        MarkedNext(mac, key, low, i, p);
      }
      i := i + 1;
    }
    return true;
  }

  // What a search may not skip.
  ghost predicate Possible(mac: Mac, lower: Bytes -> Bytes, filter: seq<bv8>, key: Bytes, query: Bytes)
    requires IsMac(mac)
  {
    |filter| == FILTER_BYTES ==>
      forall p: nat :: Marked(mac, key, lower(query), Trigrams(lower(query)), p) ==> p < BITS && Bit(filter, p)
  }

  predicate Contains(text: Bytes, query: Bytes) {
    exists i :: 0 <= i <= |text| - |query| && At(text, i, query)
  }

  predicate At(text: Bytes, i: nat, query: Bytes)
    requires i + |query| <= |text|
  {
    text[i..i + |query|] == query
  }

  lemma Inside(text: Bytes, i: nat, query: Bytes, k: nat)
    requires i + |query| <= |text| && At(text, i, query) && k + 3 <= |query|
    ensures Trigram(query, k) == Trigram(text, i + k)
  {
    var a, b := Trigram(query, k), Trigram(text, i + k);
    assert |a| == |b| == 3;
    forall j | 0 <= j < 3 ensures a[j] == b[j] {
      assert a[j] == query[k + j] == text[i..i + |query|][k + j] == text[i + k + j];
    }
    assert a == b;
  }

  // A text that contains the query is never skipped.
  lemma NeverSkipsAMatch(mac: Mac, lower: Bytes -> Bytes, key: Bytes, text: Bytes, filter: seq<bv8>, query: Bytes)
    requires IsMac(mac) && IsLower(lower) && IsIndex(mac, lower, key, text, filter)
    requires Contains(lower(text), lower(query))
    ensures Possible(mac, lower, filter, key, lower(query))
  {
    var low, q := lower(text), lower(query);
    assert lower(q) == q;
    var i :| 0 <= i <= |low| - |q| && At(low, i, q);
    forall p: nat | Marked(mac, key, q, Trigrams(q), p) ensures p < BITS && Bit(filter, p) {
      var k :| 0 <= k < Trigrams(q) && p in Positions(mac, key, Trigram(q, k));
      assert Trigram(q, k) == Trigram(low, i + k) by {
        Inside(low, i, q, k);
      }
      assert Marked(mac, key, low, Trigrams(low), p);
    }
  }
}

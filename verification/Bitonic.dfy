// Sequences of sort keys: the vocabulary of the sorting modules.
module Sequences {
  function Min(a: int, b: int): int { if a <= b then a else b }

  function Max(a: int, b: int): int { if a <= b then b else a }

  ghost predicate Sorted(s: seq<int>) { forall i, j :: 0 <= i < j < |s| ==> s[i] <= s[j] }

  function Reversed(s: seq<int>): (r: seq<int>)
    ensures |r| == |s|
  {
    seq(|s|, i requires 0 <= i < |s| => s[|s| - 1 - i])
  }

  lemma {:induction false} ReversedKeeps(s: seq<int>)
    ensures multiset(Reversed(s)) == multiset(s)
  {
    if |s| > 0 {
      ReversedKeeps(s[1..]);
      assert s == [s[0]] + s[1..];
      assert Reversed(s) == Reversed(s[1..]) + [s[0]];
    }
  }
}

// The min/max networks (hashing/helper/avxcommon.h:76-183).  A register is four lanes, lane 0 first; the
// shuffles are the ones the intrinsics perform.  Keys are compared by one total order.
module Bitonic {
  import opened Powers
  import opened Sequences

  datatype V4 = V4(v0: int, v1: int, v2: int, v3: int) {
    function Lanes(): seq<int> { [v0, v1, v2, v3] }
  }

  function MinPd(a: V4, b: V4): V4 { V4(Min(a.v0, b.v0), Min(a.v1, b.v1), Min(a.v2, b.v2), Min(a.v3, b.v3)) }

  function MaxPd(a: V4, b: V4): V4 { V4(Max(a.v0, b.v0), Max(a.v1, b.v1), Max(a.v2, b.v2), Max(a.v3, b.v3)) }

  // _mm256_permute2f128_pd with 0x20 and 0x31, _mm256_unpacklo_pd (also _mm256_shuffle_pd with 0x0) and
  // _mm256_unpackhi_pd (also _mm256_shuffle_pd with 0xF)
  function LowHalves(a: V4, b: V4): V4 { V4(a.v0, a.v1, b.v0, b.v1) }

  function HighHalves(a: V4, b: V4): V4 { V4(a.v2, a.v3, b.v2, b.v3) }

  function UnpackLow(a: V4, b: V4): V4 { V4(a.v0, b.v0, a.v2, b.v2) }

  function UnpackHigh(a: V4, b: V4): V4 { V4(a.v1, b.v1, a.v3, b.v3) }

  function Reverse(a: V4): V4 {
    var p := V4(a.v1, a.v0, a.v3, a.v2);
    V4(p.v2, p.v3, p.v0, p.v1)
  }

  function Bitonic4(a: V4, b: V4): (V4, V4) {
    var l1, h1 := MinPd(a, b), MaxPd(a, b);
    var l1p, h1p := HighHalves(l1, h1), LowHalves(l1, h1);
    var l2, h2 := MinPd(l1p, h1p), MaxPd(l1p, h1p);
    var l2p, h2p := UnpackLow(l2, h2), UnpackHigh(l2, h2);
    var l3, h3 := MinPd(l2p, h2p), MaxPd(l2p, h2p);
    var l4, h4 := UnpackLow(l3, h3), UnpackHigh(l3, h3);
    (LowHalves(l4, h4), HighHalves(l4, h4))
  }

  function Bitonic8(a1: V4, a2: V4, b1: V4, b2: V4): (V4, V4, V4, V4) {
    var (o1, o2) := Bitonic4(MinPd(a1, b1), MinPd(a2, b2));
    var (o3, o4) := Bitonic4(MaxPd(a1, b1), MaxPd(a2, b2));
    (o1, o2, o3, o4)
  }

  function Merge4(a: V4, b: V4): (V4, V4) { Bitonic4(a, Reverse(b)) }

  function Merge8(a1: V4, a2: V4, b1: V4, b2: V4): (V4, V4, V4, V4) {
    var r1, r2 := Reverse(b1), Reverse(b2);
    var (o1, o2) := Bitonic4(MinPd(a1, r2), MinPd(a2, r1));
    var (o3, o4) := Bitonic4(MaxPd(a1, r2), MaxPd(a2, r1));
    (o1, o2, o3, o4)
  }

  function Merge16(a1: V4, a2: V4, a3: V4, a4: V4, b1: V4, b2: V4, b3: V4, b4: V4): (V4, V4, V4, V4, V4, V4, V4, V4) {
    var r1, r2, r3, r4 := Reverse(b1), Reverse(b2), Reverse(b3), Reverse(b4);
    var (o1, o2, o3, o4) := Bitonic8(MinPd(a1, r4), MinPd(a2, r3), MinPd(a3, r2), MinPd(a4, r1));
    var (o5, o6, o7, o8) := Bitonic8(MaxPd(a1, r4), MaxPd(a2, r3), MaxPd(a3, r2), MaxPd(a4, r1));
    (o1, o2, o3, o4, o5, o6, o7, o8)
  }

  // ---- the sorter the networks implement ----

  // One half-cleaner compares the elements half the length apart.
  function Lows(x: seq<int>): seq<int> {
    seq(|x| / 2, i requires 0 <= i < |x| / 2 => Min(x[i], x[|x| / 2 + i]))
  }

  function Highs(x: seq<int>): seq<int> {
    seq(|x| / 2, i requires 0 <= i < |x| / 2 => Max(x[i], x[|x| / 2 + i]))
  }

  // Half-cleaners of halving width.
  function Sorter(x: seq<int>): seq<int>
    decreases |x|
  {
    if |x| < 2 then x else Sorter(Lows(x)) + Sorter(Highs(x))
  }

  // The positions of the elements that are at least t form an interval of the circle.
  ghost predicate IntervalAt(x: seq<int>, t: int, p: int, q: int, inside: bool) {
    0 <= p <= q <= |x| && forall i :: 0 <= i < |x| ==> (x[i] >= t <==> (p <= i < q) == inside)
  }

  ghost predicate CircularAt(x: seq<int>, t: int) {
    exists p, q, inside :: IntervalAt(x, t, p, q, inside)
  }

  ghost predicate IsBitonic(x: seq<int>) { forall t :: CircularAt(x, t) }

  // An interval cut in the middle.
  lemma CutInterval(x: seq<int>, t: int, p: int, q: int, inside: bool, n: nat)
    requires |x| == 2 * n && IntervalAt(x, t, p, q, inside)
    ensures IntervalAt(x[..n], t, Min(p, n), Min(q, n), inside)
    ensures IntervalAt(x[n..], t, Max(p, n) - n, Max(q, n) - n, inside)
  {
    forall i | 0 <= i < n ensures x[n..][i] >= t <==> (Max(p, n) - n <= i < Max(q, n) - n) == inside {
      assert x[n..][i] == x[n + i];
    }
  }

  // Where both are inside is an interval.
  lemma BothInterval(n: nat, p1: int, q1: int, p2: int, q2: int, y: seq<int>, t: int, inside: bool)
    requires |y| == n && 0 <= p1 <= q1 <= n && 0 <= p2 <= q2 <= n
    requires forall i :: 0 <= i < n ==> (y[i] >= t <==> (p1 <= i < q1 && p2 <= i < q2) == inside)
    ensures CircularAt(y, t)
  {
    var p, q := Max(p1, p2), Min(q1, q2);
    assert IntervalAt(y, t, if p <= q then p else 0, if p <= q then q else 0, inside);
  }

  // The half-cleaner's two halves are bitonic again.
  lemma HalvesCircularAt(x: seq<int>, t: int)
    requires |x| % 2 == 0 && CircularAt(x, t)
    ensures CircularAt(Lows(x), t) && CircularAt(Highs(x), t)
  {
    var n := |x| / 2;
    var p, q, inside :| IntervalAt(x, t, p, q, inside);
    CutInterval(x, t, p, q, inside, n);
    var p1, q1, p2, q2 := Min(p, n), Min(q, n), Max(p, n) - n, Max(q, n) - n;
    LowHighAt(x, t);
    if inside {
      BothInterval(n, p1, q1, p2, q2, Lows(x), t, true);
      EitherInterval(n, p1, q1, p2, q2, p, q, Highs(x), t, true);
    } else {
      BothInterval(n, p1, q1, p2, q2, Highs(x), t, false);
      EitherInterval(n, p1, q1, p2, q2, p, q, Lows(x), t, false);
    }
  }

  lemma LowHighAt(x: seq<int>, t: int)
    requires |x| % 2 == 0
    ensures forall i :: 0 <= i < |x| / 2 ==> (Lows(x)[i] >= t <==> x[..|x| / 2][i] >= t && x[|x| / 2..][i] >= t)
    ensures forall i :: 0 <= i < |x| / 2 ==> (Highs(x)[i] >= t <==> x[..|x| / 2][i] >= t || x[|x| / 2..][i] >= t)
  {
  }

  // No element of the low half exceeds one of the high half.
  lemma LowBelowHigh(x: seq<int>, i: nat, j: nat)
    requires |x| % 2 == 0 && IsBitonic(x) && i < |x| / 2 && j < |x| / 2
    ensures Lows(x)[i] <= Highs(x)[j]
  {
    var n, t := |x| / 2, Lows(x)[i];
    assert CircularAt(x, t);
    var p, q, inside :| IntervalAt(x, t, p, q, inside);
    assert x[i] >= t && x[n + i] >= t && (x[j] >= t || x[n + j] >= t);
  }

  // A position of y is inside when it is in one of the two parts of an interval that was cut in the middle.
  lemma EitherInterval(n: nat, p1: int, q1: int, p2: int, q2: int, p: int, q: int, y: seq<int>, t: int, inside: bool)
    requires |y| == n && 0 <= p <= q <= 2 * n
    requires p1 == Min(p, n) && q1 == Min(q, n) && p2 == Max(p, n) - n && q2 == Max(q, n) - n
    requires forall i :: 0 <= i < n ==> (y[i] >= t <==> (p1 <= i < q1 || p2 <= i < q2) == inside)
    ensures CircularAt(y, t)
  {
    if q <= n {
      assert IntervalAt(y, t, p1, q1, inside);
    } else if p >= n {
      assert IntervalAt(y, t, p2, q2, inside);
    } else if q2 <= p1 {
      assert IntervalAt(y, t, q2, p1, !inside);
    } else {
      assert IntervalAt(y, t, 0, 0, !inside);
    }
  }

  lemma HalfClean(x: seq<int>)
    requires |x| % 2 == 0 && IsBitonic(x)
    ensures IsBitonic(Lows(x)) && IsBitonic(Highs(x))
    ensures forall i, j :: 0 <= i < |x| / 2 && 0 <= j < |x| / 2 ==> Lows(x)[i] <= Highs(x)[j]
  {
    forall t ensures CircularAt(Lows(x), t) && CircularAt(Highs(x), t) {
      HalvesCircularAt(x, t);
    }
    forall i, j | 0 <= i < |x| / 2 && 0 <= j < |x| / 2 ensures Lows(x)[i] <= Highs(x)[j] {
      LowBelowHigh(x, i, j);
    }
  }

  lemma Uncons(s: seq<int>)
    requires |s| > 0
    ensures multiset(s) == multiset{s[0]} + multiset(s[1..])
  {
    assert s == [s[0]] + s[1..];
  }

  lemma SwapSum(a: multiset<int>, b: multiset<int>, c: multiset<int>, d: multiset<int>)
    ensures (a + b) + (c + d) == (a + c) + (b + d)
  {
  }

  lemma {:induction false} PairwiseKeeps(lo: seq<int>, hi: seq<int>, a: seq<int>, b: seq<int>)
    requires |lo| == |hi| == |a| == |b|
    requires forall i :: 0 <= i < |a| ==> lo[i] == Min(a[i], b[i]) && hi[i] == Max(a[i], b[i])
    ensures multiset(lo) + multiset(hi) == multiset(a) + multiset(b)
  {
    if |a| > 0 {
      PairwiseKeeps(lo[1..], hi[1..], a[1..], b[1..]);
      Uncons(lo);
      Uncons(hi);
      Uncons(a);
      Uncons(b);
      assert multiset{lo[0]} + multiset{hi[0]} == multiset{a[0]} + multiset{b[0]};
      SwapSum(multiset{lo[0]}, multiset(lo[1..]), multiset{hi[0]}, multiset(hi[1..]));
      SwapSum(multiset{a[0]}, multiset(a[1..]), multiset{b[0]}, multiset(b[1..]));
    }
  }

  lemma {:induction false} SorterKeeps(x: seq<int>)
    requires IsPowerOfTwo(|x|)
    ensures |Sorter(x)| == |x| && multiset(Sorter(x)) == multiset(x)
    decreases |x|
  {
    hide Sorter;
    if |x| >= 2 {
      HalvesKeep(x);
      SorterKeeps(Lows(x));
      SorterKeeps(Highs(x));
      SorterStep(x);
    } else {
      SorterOne(x);
    }
  }

  lemma SorterStep(x: seq<int>)
    requires |x| >= 2
    ensures Sorter(x) == Sorter(Lows(x)) + Sorter(Highs(x))
  {
  }

  lemma SorterOne(x: seq<int>)
    requires |x| < 2
    ensures Sorter(x) == x
  {
  }

  lemma HalvesKeep(x: seq<int>)
    requires |x| >= 2 && IsPowerOfTwo(|x|)
    ensures |Lows(x)| == |Highs(x)| && |Lows(x)| + |Highs(x)| == |x| && IsPowerOfTwo(|Lows(x)|) && IsPowerOfTwo(|Highs(x)|)
    ensures multiset(Lows(x)) + multiset(Highs(x)) == multiset(x)
  {
    hide Sorter;
    var n := |x| / 2;
    PairwiseKeeps(Lows(x), Highs(x), x[..n], x[n..]);
    assert x == x[..n] + x[n..];
  }

  lemma SortedJoin(a: seq<int>, b: seq<int>, a': seq<int>, b': seq<int>)
    requires Sorted(a) && Sorted(b) && multiset(a) == multiset(a') && multiset(b) == multiset(b')
    requires forall i, j :: 0 <= i < |a'| && 0 <= j < |b'| ==> a'[i] <= b'[j]
    ensures Sorted(a + b)
  {
    forall i, j | 0 <= i < |a| && 0 <= j < |b| ensures a[i] <= b[j] {
      assert a[i] in multiset(a') && b[j] in multiset(b');
    }
  }

  lemma {:induction false} SorterSorts(x: seq<int>)
    requires IsPowerOfTwo(|x|) && IsBitonic(x)
    ensures Sorted(Sorter(x))
    decreases |x|
  {
    if |x| >= 2 {
      HalfClean(x);
      SorterSorts(Lows(x));
      SorterSorts(Highs(x));
      SorterKeeps(Lows(x));
      SorterKeeps(Highs(x));
      SortedJoin(Sorter(Lows(x)), Sorter(Highs(x)), Lows(x), Highs(x));
    }
  }

  // ---- an ascending sequence followed by a descending one is bitonic ----

  // The first position whose element is at least t.
  lemma {:induction false} Threshold(a: seq<int>, t: int) returns (k: nat)
    requires Sorted(a)
    ensures k <= |a| && forall i :: 0 <= i < |a| ==> (a[i] >= t <==> i >= k)
  {
    if |a| == 0 {
      k := 0;
    } else {
      k := Threshold(a[..|a| - 1], t);
      assert forall i :: 0 <= i < |a| - 1 ==> a[..|a| - 1][i] == a[i];
      if k < |a| - 1 {
        assert a[..|a| - 1][k] >= t;
      } else if a[k] < t {
        k := |a|;
      }
    }
  }

  lemma AscendingDescending(a: seq<int>, b: seq<int>)
    requires Sorted(a) && Sorted(b)
    ensures IsBitonic(a + Reversed(b))
  {
    forall t ensures CircularAt(a + Reversed(b), t) {
      var p := Threshold(a, t);
      var q := Threshold(b, t);
      assert IntervalAt(a + Reversed(b), t, p, |a| + |b| - q, true);
    }
  }

  // ---- the networks are the sorter ----

  lemma Sorter2(a: int, b: int)
    ensures Sorter([a, b]) == [Min(a, b), Max(a, b)]
  {
    assert Lows([a, b]) == [Min(a, b)] && Highs([a, b]) == [Max(a, b)];
  }

  lemma Sorter4(v: V4)
    ensures var l0, l1, h0, h1 := Min(v.v0, v.v2), Min(v.v1, v.v3), Max(v.v0, v.v2), Max(v.v1, v.v3);
            Sorter(v.Lanes()) == [Min(l0, l1), Max(l0, l1), Min(h0, h1), Max(h0, h1)]
  {
    var x := v.Lanes();
    assert Lows(x) == [Min(v.v0, v.v2), Min(v.v1, v.v3)] && Highs(x) == [Max(v.v0, v.v2), Max(v.v1, v.v3)];
    Sorter2(Min(v.v0, v.v2), Min(v.v1, v.v3));
    Sorter2(Max(v.v0, v.v2), Max(v.v1, v.v3));
  }

  lemma Bitonic4IsSorter(a: V4, b: V4)
    ensures Bitonic4(a, b).0.Lanes() + Bitonic4(a, b).1.Lanes() == Sorter(a.Lanes() + b.Lanes())
  {
    var x := a.Lanes() + b.Lanes();
    assert Lows(x) == MinPd(a, b).Lanes() && Highs(x) == MaxPd(a, b).Lanes();
    Sorter4(MinPd(a, b));
    Sorter4(MaxPd(a, b));
  }

  lemma Bitonic8IsSorter(a1: V4, a2: V4, b1: V4, b2: V4)
    ensures var (o1, o2, o3, o4) := Bitonic8(a1, a2, b1, b2);
            (o1.Lanes() + o2.Lanes()) + (o3.Lanes() + o4.Lanes()) ==
            Sorter((a1.Lanes() + a2.Lanes()) + (b1.Lanes() + b2.Lanes()))
  {
    var x := (a1.Lanes() + a2.Lanes()) + (b1.Lanes() + b2.Lanes());
    assert Lows(x) == MinPd(a1, b1).Lanes() + MinPd(a2, b2).Lanes();
    assert Highs(x) == MaxPd(a1, b1).Lanes() + MaxPd(a2, b2).Lanes();
    Bitonic4IsSorter(MinPd(a1, b1), MinPd(a2, b2));
    Bitonic4IsSorter(MaxPd(a1, b1), MaxPd(a2, b2));
  }

  // _mm256_loadu_pd
  function Load(s: seq<int>, i: nat): V4
    requires i + 4 <= |s|
  {
    V4(s[i], s[i + 1], s[i + 2], s[i + 3])
  }

  predicate IsWidth(w: nat) { w == 4 || w == 8 || w == 16 }

  // BITONIC_MERGE4, BITONIC_MERGE8 or BITONIC_MERGE16 on the registers that hold a and b.
  function Network(w: nat, a: seq<int>, b: seq<int>): (r: (seq<int>, seq<int>))
    requires IsWidth(w) && |a| == |b| == w
    ensures |r.0| == |r.1| == w
  {
    if w == 4 then
      var (o1, o2) := Merge4(Load(a, 0), Load(b, 0));
      (o1.Lanes(), o2.Lanes())
    else if w == 8 then
      var (o1, o2, o3, o4) := Merge8(Load(a, 0), Load(a, 4), Load(b, 0), Load(b, 4));
      (o1.Lanes() + o2.Lanes(), o3.Lanes() + o4.Lanes())
    else
      var (o1, o2, o3, o4, o5, o6, o7, o8) :=
        Merge16(Load(a, 0), Load(a, 4), Load(a, 8), Load(a, 12), Load(b, 0), Load(b, 4), Load(b, 8), Load(b, 12));
      ((o1.Lanes() + o2.Lanes()) + (o3.Lanes() + o4.Lanes()), (o5.Lanes() + o6.Lanes()) + (o7.Lanes() + o8.Lanes()))
  }

  // The comparisons of level 0: the i-th element of a with the i-th last of b.
  lemma LevelZero(a: seq<int>, b: seq<int>)
    requires |a| == |b|
    ensures |Lows(a + Reversed(b))| == |Highs(a + Reversed(b))| == |a|
    ensures forall i :: 0 <= i < |a| ==> Lows(a + Reversed(b))[i] == Min(a[i], b[|b| - 1 - i])
    ensures forall i :: 0 <= i < |a| ==> Highs(a + Reversed(b))[i] == Max(a[i], b[|b| - 1 - i])
  {
  }

  lemma InLanes(s: seq<int>)
    requires |s| == 8 || |s| == 16
    ensures s[..8] == Load(s, 0).Lanes() + Load(s, 4).Lanes()
    ensures |s| == 16 ==> s == (Load(s, 0).Lanes() + Load(s, 4).Lanes()) + (Load(s, 8).Lanes() + Load(s, 12).Lanes())
  {
    if |s| == 16 {
      InLanes(s[8..]);
      assert s == s[..8] + s[8..] && s[8..][..8] == s[8..];
    }
  }

  lemma OneRegister(s: seq<int>)
    requires |s| == 4
    ensures s == Load(s, 0).Lanes() && Reversed(s) == Reverse(Load(s, 0)).Lanes()
  {
  }

  lemma Network4IsSorter(a: seq<int>, b: seq<int>)
    requires |a| == |b| == 4
    ensures Network(4, a, b).0 + Network(4, a, b).1 == Sorter(a + Reversed(b))
  {
    hide Sorter, Bitonic4;
    OneRegister(a);
    OneRegister(b);
    Bitonic4IsSorter(Load(a, 0), Reverse(Load(b, 0)));
  }

  lemma Network8IsSorter(a: seq<int>, b: seq<int>)
    requires |a| == |b| == 8
    ensures Network(8, a, b).0 + Network(8, a, b).1 == Sorter(a + Reversed(b))
  {
    hide Sorter, Bitonic4, Lows, Highs, Min, Max, Reversed;
    var x := a + Reversed(b);
    var a1, a2, r1, r2 := Load(a, 0), Load(a, 4), Reverse(Load(b, 0)), Reverse(Load(b, 4));
    LevelZero(a, b);
    InLanes(Lows(x));
    InLanes(Highs(x));
    assert Load(Lows(x), 0) == MinPd(a1, r2) && Load(Lows(x), 4) == MinPd(a2, r1);
    assert Load(Highs(x), 0) == MaxPd(a1, r2) && Load(Highs(x), 4) == MaxPd(a2, r1);
    assert Lows(x)[..8] == Lows(x) && Highs(x)[..8] == Highs(x);
    SorterStep(x);
    Bitonic4IsSorter(MinPd(a1, r2), MinPd(a2, r1));
    Bitonic4IsSorter(MaxPd(a1, r2), MaxPd(a2, r1));
  }

  lemma Network16IsSorter(a: seq<int>, b: seq<int>)
    requires |a| == |b| == 16
    ensures Network(16, a, b).0 + Network(16, a, b).1 == Sorter(a + Reversed(b))
  {
    hide Sorter, Bitonic8, Lows, Highs, Min, Max, Reversed;
    var x := a + Reversed(b);
    var a1, a2, a3, a4 := Load(a, 0), Load(a, 4), Load(a, 8), Load(a, 12);
    var r1, r2, r3, r4 := Reverse(Load(b, 0)), Reverse(Load(b, 4)), Reverse(Load(b, 8)), Reverse(Load(b, 12));
    LevelZero(a, b);
    InLanes(Lows(x));
    InLanes(Highs(x));
    assert Load(Lows(x), 0) == MinPd(a1, r4) && Load(Lows(x), 4) == MinPd(a2, r3);
    assert Load(Lows(x), 8) == MinPd(a3, r2) && Load(Lows(x), 12) == MinPd(a4, r1);
    assert Load(Highs(x), 0) == MaxPd(a1, r4) && Load(Highs(x), 4) == MaxPd(a2, r3);
    assert Load(Highs(x), 8) == MaxPd(a3, r2) && Load(Highs(x), 12) == MaxPd(a4, r1);
    SorterStep(x);
    Bitonic8IsSorter(MinPd(a1, r4), MinPd(a2, r3), MinPd(a3, r2), MinPd(a4, r1));
    Bitonic8IsSorter(MaxPd(a1, r4), MaxPd(a2, r3), MaxPd(a3, r2), MaxPd(a4, r1));
  }

  // Merging two sorted runs of the network's width: the low half, then the high half, is the sorted whole.
  lemma NetworkMerges(w: nat, a: seq<int>, b: seq<int>)
    requires IsWidth(w) && |a| == |b| == w && Sorted(a) && Sorted(b)
    ensures |Network(w, a, b).0| == |Network(w, a, b).1| == w
    ensures Sorted(Network(w, a, b).0 + Network(w, a, b).1)
    ensures multiset(Network(w, a, b).0) + multiset(Network(w, a, b).1) == multiset(a) + multiset(b)
  {
    hide Sorter, Network, Min, Max, Lows, Highs;
    var x := a + Reversed(b);
    if w == 4 { Network4IsSorter(a, b); } else if w == 8 { Network8IsSorter(a, b); } else { Network16IsSorter(a, b); }
    assert IsPowerOfTwo(|x|) by { assert IsPowerOfTwo(8) && IsPowerOfTwo(4) && IsPowerOfTwo(2); }
    AscendingDescending(a, b);
    SorterSorts(x);
    SorterKeeps(x);
    ReversedKeeps(b);
    assert multiset(Network(w, a, b).0 + Network(w, a, b).1) == multiset(x);
  }
}

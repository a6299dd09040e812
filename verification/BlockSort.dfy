// Sorting one cache-sized block (hashing/helper/avxsort_core.h:1224-1408): sorted runs of four from a network
// over registers, then merges of runs of growing length, back and forth between two buffers.
module BlockSort {
  import opened Powers
  import opened Sequences
  import opened Bitonic
  import opened Merge

  // ---- the in-register sort ----

  function InRegisterSort(ra: V4, rb: V4, rc: V4, rd: V4): (V4, V4, V4, V4) {
    var ra1, rb1 := MinPd(ra, rb), MaxPd(ra, rb);
    var rc1, rd1 := MinPd(rc, rd), MaxPd(rc, rd);
    var rb2, rd2 := MinPd(rb1, rd1), MaxPd(rb1, rd1);
    var ra2, rc2 := MinPd(ra1, rc1), MaxPd(ra1, rc1);
    var rb3, rc3 := MinPd(rb2, rc2), MaxPd(rb2, rc2);
    var ra3, rb4 := UnpackLow(ra2, rb3), UnpackHigh(ra2, rb3);
    var rc4, rd3 := UnpackLow(rc3, rd2), UnpackHigh(rc3, rd2);
    (LowHalves(ra3, rc4), LowHalves(rb4, rd3), HighHalves(ra3, rc4), HighHalves(rb4, rd3))
  }

  // What the network does to one lane.
  function SortFour(a: int, b: int, c: int, d: int): V4 {
    var a1, b1, c1, d1 := Min(a, b), Max(a, b), Min(c, d), Max(c, d);
    var b2, d2, a2, c2 := Min(b1, d1), Max(b1, d1), Min(a1, c1), Max(a1, c1);
    V4(a2, Min(b2, c2), Max(b2, c2), d2)
  }

  function One(x: int): multiset<int> { multiset{x} }

  lemma PairKeeps(a: int, b: int)
    ensures One(Min(a, b)) + One(Max(a, b)) == One(a) + One(b)
  {
  }

  lemma LanesKeep(v: V4)
    ensures multiset(v.Lanes()) == One(v.v0) + One(v.v1) + One(v.v2) + One(v.v3)
  {
  }

  // Sums of multisets may be regrouped.
  lemma Regroup(a: multiset<int>, b: multiset<int>, c: multiset<int>, d: multiset<int>)
    ensures a + b + c + d == (a + b) + (c + d) == (a + c) + (b + d) == (a + d) + (b + c)
  {
  }

  lemma SortFourSorts(a: int, b: int, c: int, d: int)
    ensures Sorted(SortFour(a, b, c, d).Lanes())
    ensures multiset(SortFour(a, b, c, d).Lanes()) == One(a) + One(b) + One(c) + One(d)
  {
    hide Max, Min, Sorted, One;
    var a1, b1, c1, d1 := Min(a, b), Max(a, b), Min(c, d), Max(c, d);
    var b2, d2, a2, c2 := Min(b1, d1), Max(b1, d1), Min(a1, c1), Max(a1, c1);
    var b3, c3 := Min(b2, c2), Max(b2, c2);
    PairKeeps(a, b);
    PairKeeps(c, d);
    PairKeeps(b1, d1);
    PairKeeps(a1, c1);
    PairKeeps(b2, c2);
    Regroup(One(a), One(b), One(c), One(d));
    Regroup(One(a1), One(b1), One(c1), One(d1));
    Regroup(One(a2), One(c2), One(b2), One(d2));
    Regroup(One(a2), One(b3), One(c3), One(d2));
    SortFourOrdered(a, b, c, d);
    LanesKeep(V4(a2, b3, c3, d2));
  }

  lemma SortFourOrdered(a: int, b: int, c: int, d: int)
    ensures Sorted(SortFour(a, b, c, d).Lanes())
  {
  }

  lemma LanesOf(ra: V4, rb: V4, rc: V4, rd: V4)
    ensures InRegisterSort(ra, rb, rc, rd) ==
            (SortFour(ra.v0, rb.v0, rc.v0, rd.v0), SortFour(ra.v1, rb.v1, rc.v1, rd.v1),
             SortFour(ra.v2, rb.v2, rc.v2, rd.v2), SortFour(ra.v3, rb.v3, rc.v3, rd.v3))
  {
    hide Min, Max;
  }

  lemma InRegisterSorts(ra: V4, rb: V4, rc: V4, rd: V4)
    ensures var (o1, o2, o3, o4) := InRegisterSort(ra, rb, rc, rd);
            && Sorted(o1.Lanes()) && Sorted(o2.Lanes()) && Sorted(o3.Lanes()) && Sorted(o4.Lanes())
            && multiset(o1.Lanes()) + multiset(o2.Lanes()) + multiset(o3.Lanes()) + multiset(o4.Lanes())
               == multiset(ra.Lanes()) + multiset(rb.Lanes()) + multiset(rc.Lanes()) + multiset(rd.Lanes())
  {
    hide SortFour, InRegisterSort, Sorted;
    LanesOf(ra, rb, rc, rd);
    SortFourSorts(ra.v0, rb.v0, rc.v0, rd.v0);
    SortFourSorts(ra.v1, rb.v1, rc.v1, rd.v1);
    SortFourSorts(ra.v2, rb.v2, rc.v2, rd.v2);
    SortFourSorts(ra.v3, rb.v3, rc.v3, rd.v3);
    Transposed(ra, rb, rc, rd);
  }

  lemma Transposed(a: V4, b: V4, c: V4, d: V4)
    ensures (One(a.v0) + One(b.v0) + One(c.v0) + One(d.v0)) + (One(a.v1) + One(b.v1) + One(c.v1) + One(d.v1)) +
            (One(a.v2) + One(b.v2) + One(c.v2) + One(d.v2)) + (One(a.v3) + One(b.v3) + One(c.v3) + One(d.v3)) ==
            multiset(a.Lanes()) + multiset(b.Lanes()) + multiset(c.Lanes()) + multiset(d.Lanes())
  {
    hide One;
    LanesKeep(a);
    LanesKeep(b);
    LanesKeep(c);
    LanesKeep(d);
  }

  // ---- sorted runs ----

  // s is cut into sorted runs of length r.
  ghost predicate Runs(s: seq<int>, r: nat)
    decreases |s|
  {
    |s| == 0 || (0 < r <= |s| && Sorted(s[..r]) && Runs(s[r..], r))
  }

  predicate Tiles(n: nat, r: nat)
    decreases n
  {
    n == 0 || (0 < r <= n && Tiles(n - r, r))
  }

  lemma {:induction false} TilesSum(a: nat, b: nat, r: nat)
    requires Tiles(a, r) && Tiles(b, r)
    ensures Tiles(a + b, r)
    decreases a
  {
    if a > 0 {
      TilesSum(a - r, b, r);
      assert a + b - r == a - r + b;
    }
  }

  lemma {:induction false} PowersTile(k: nat, j: nat)
    requires j <= k
    ensures Tiles(Pow2(k), Pow2(j)) && Pow2(j) <= Pow2(k)
    decreases k
  {
    if j == k {
      assert Tiles(0, Pow2(j));
    } else {
      PowersTile(k - 1, j);
      TilesSum(Pow2(k - 1), Pow2(k - 1), Pow2(j));
    }
  }

  lemma {:induction false} RunsAppend(s: seq<int>, t: seq<int>, r: nat)
    requires Runs(s, r) && Runs(t, r)
    ensures Runs(s + t, r)
    decreases |s|
  {
    if |s| == 0 {
      assert s + t == t;
    } else {
      RunsAppend(s[r..], t, r);
      assert (s + t)[..r] == s[..r] && (s + t)[r..] == s[r..] + t;
    }
  }

  lemma OneRun(s: seq<int>)
    requires |s| > 0
    ensures Runs(s, |s|) <==> Sorted(s)
  {
    assert s[..|s|] == s && s[|s|..] == [];
  }

  // The first two runs.
  lemma TwoRuns(s: seq<int>, r: nat)
    requires Runs(s, r) && 0 < 2 * r <= |s|
    ensures Sorted(s[..r]) && Sorted(s[r..2 * r]) && Runs(s[2 * r..], r)
  {
    assert s[r..][..r] == s[r..2 * r] && s[r..][r..] == s[2 * r..];
  }

  // ---- one level of merges ----

  // Memory outside one region.
  ghost predicate WroteOnly(m: seq<int>, m0: seq<int>, p: nat, n: nat) {
    |m| == |m0| && p + n <= |m| && Region(m, 0, p) == Region(m0, 0, p) && Region(m, p + n, |m| - (p + n)) == Region(m0, p + n, |m| - (p + n))
  }

  // Parts of a region, and a region as the sum of two.
  lemma SubRegion(m: seq<int>, p: nat, n: nat, o: nat, k: nat)
    requires p + n <= |m| && o + k <= n
    ensures Region(m, p, n)[o..o + k] == Region(m, p + o, k)
    ensures Region(m, p, o + k) == Region(m, p, o) + Region(m, p + o, k)
  {
    assert p + o + k == p + (o + k);
    var part, region := Region(m, p, n)[o..o + k], Region(m, p + o, k);
    forall i | 0 <= i < |part| ensures part[i] == region[i] {
      assert p + (o + i) == p + o + i;
    }
  }

  lemma WroteOnlyKeeps(m: seq<int>, m0: seq<int>, p: nat, n: nat, q: nat, k: nat)
    requires WroteOnly(m, m0, p, n) && q + k <= |m| && Apart(p, n, q, k)
    ensures Region(m, q, k) == Region(m0, q, k)
  {
    if q + k <= p {
      assert Region(m, q, k) == Region(m, 0, p)[q..q + k] && Region(m0, q, k) == Region(m0, 0, p)[q..q + k];
    } else {
      SubRegion(m, p + n, |m| - (p + n), q - (p + n), k);
      SubRegion(m0, p + n, |m| - (p + n), q - (p + n), k);
    }
  }

  lemma WroteOnlyWithin(m: seq<int>, m1: seq<int>, m0: seq<int>, p: nat, n: nat, o: nat, k: nat)
    requires WroteOnly(m, m1, p + o, k) && WroteOnly(m1, m0, p, n) && o + k <= n
    ensures WroteOnly(m, m0, p, n)
    ensures Region(m, p, o) == Region(m1, p, o)
  {
    hide WroteOnly, Region;
    WroteOnlyRoom(m, m1, p + o, k);
    WroteOnlyRoom(m1, m0, p, n);
    WroteOnlyKeeps(m, m1, p + o, k, p, o);
    WroteOnlyKeeps(m, m1, p + o, k, 0, p);
    WroteOnlyKeeps(m, m1, p + o, k, p + n, |m| - (p + n));
    WroteOnlyKeeps(m1, m0, p, n, 0, p);
    WroteOnlyKeeps(m1, m0, p, n, p + n, |m| - (p + n));
    WroteOnlyFrom(m, m0, p, n);
  }

  lemma WroteOnlyRoom(m: seq<int>, m0: seq<int>, p: nat, n: nat)
    requires WroteOnly(m, m0, p, n)
    ensures |m| == |m0| && p + n <= |m|
  {
  }

  lemma WroteOnlyFrom(m: seq<int>, m0: seq<int>, p: nat, n: nat)
    requires |m| == |m0| && p + n <= |m|
    requires Region(m, 0, p) == Region(m0, 0, p) && Region(m, p + n, |m| - (p + n)) == Region(m0, p + n, |m| - (p + n))
    ensures WroteOnly(m, m0, p, n)
  {
  }

  // The first `o` elements of the level are merged.
  ghost predicate LevelInv(m: seq<int>, m0: seq<int>, inp: nat, out: nat, n: nat, r: nat, o: nat) {
    && WroteOnly(m, m0, out, n) && inp + n <= |m| && o <= n && Apart(inp, n, out, n)
    && Region(m, inp, n) == Region(m0, inp, n)
    && Runs(Region(m, out, o), 2 * r) && Runs(Region(m0, inp + o, n - o), r)
    && multiset(Region(m, out, o)) == multiset(Region(m0, inp, o))
  }

  lemma LevelStep(m: seq<int>, m': seq<int>, m0: seq<int>, w: nat, inp: nat, out: nat, n: nat, r: nat, o: nat)
    requires LevelInv(m, m0, inp, out, n, r, o) && o + 2 * r <= n && 0 < r
    requires EqLenResult(m', m, Job(w, inp + o, r, inp + o + r, r, out + o))
    ensures LevelInv(m', m0, inp, out, n, r, o + 2 * r)
  {
    hide WroteOnly, Region, Sorted, EqLenResult, Runs;
    var j := Job(w, inp + o, r, inp + o + r, r, out + o);
    MergedRegion(m', m, j);
    WroteOnlyRoom(m, m0, out, n);
    WroteOnlyWithin(m', m, m0, out, n, o, 2 * r);
    WroteOnlyKeeps(m', m, out + o, 2 * r, inp, n);
    RunsOfLevel(m', m, m0, inp, out, n, r, o);
  }

  lemma MergedRegion(m': seq<int>, m: seq<int>, j: Job)
    requires EqLenResult(m', m, j)
    ensures j.inpA + j.lenA <= |m| && j.inpB + j.lenB <= |m|
    ensures WroteOnly(m', m, j.out, j.lenA + j.lenB)
    ensures Sorted(Region(m', j.out, j.lenA + j.lenB))
    ensures multiset(Region(m', j.out, j.lenA + j.lenB)) == multiset(Region(m, j.inpA, j.lenA)) + multiset(Region(m, j.inpB, j.lenB))
  {
    assert j.End() == j.out + (j.lenA + j.lenB);
  }

  lemma RunsOfLevel(m': seq<int>, m: seq<int>, m0: seq<int>, inp: nat, out: nat, n: nat, r: nat, o: nat)
    requires |m'| == |m| == |m0| && inp + n <= |m| && out + n <= |m| && o + 2 * r <= n && 0 < r
    requires Region(m, inp, n) == Region(m0, inp, n) && Region(m', out, o) == Region(m, out, o)
    requires Runs(Region(m, out, o), 2 * r) && Runs(Region(m0, inp + o, n - o), r)
    requires multiset(Region(m, out, o)) == multiset(Region(m0, inp, o))
    requires Sorted(Region(m', out + o, r + r))
    requires multiset(Region(m', out + o, r + r)) == multiset(Region(m, inp + o, r)) + multiset(Region(m, inp + o + r, r))
    ensures Runs(Region(m', out, o + 2 * r), 2 * r) && Runs(Region(m0, inp + (o + 2 * r), n - (o + 2 * r)), r)
    ensures multiset(Region(m', out, o + 2 * r)) == multiset(Region(m0, inp, o + 2 * r))
  {
    hide Sorted, Runs, Region;
    assert r + r == 2 * r;
    RegionLength(m', out + o, 2 * r);
    RunsGrow(Region(m', out, o), Region(m', out + o, 2 * r), 2 * r);
    RunsShrink(m0, inp, n, r, o);
    SubRegion(m', out, n, o, 2 * r);
    SubRegion(m0, inp, n, o, 2 * r);
    TwoRegions(m, m0, inp, n, r, o);
  }

  lemma TwoRegions(m: seq<int>, m0: seq<int>, inp: nat, n: nat, r: nat, o: nat)
    requires |m| == |m0| && inp + n <= |m| && o + 2 * r <= n && Region(m, inp, n) == Region(m0, inp, n)
    ensures Region(m0, inp + o, 2 * r) == Region(m, inp + o, r) + Region(m, inp + o + r, r)
  {
    hide Region;
    SubRegion(m0, inp + o, 2 * r, r, r);
    SubRegion(m, inp, n, o, r);
    SubRegion(m0, inp, n, o, r);
    SubRegion(m, inp, n, o + r, r);
    SubRegion(m0, inp, n, o + r, r);
    assert inp + (o + r) == inp + o + r && r + r == 2 * r;
  }

  lemma RegionLength(m: seq<int>, p: nat, n: nat)
    requires p + n <= |m|
    ensures |Region(m, p, n)| == n
  {
  }

  lemma RunsGrow(s: seq<int>, t: seq<int>, r: nat)
    requires Runs(s, r) && Sorted(t) && |t| == r > 0
    ensures Runs(s + t, r)
  {
    hide Runs, Sorted;
    OneRun(t);
    RunsAppend(s, t, r);
  }

  lemma RunsShrink(m0: seq<int>, inp: nat, n: nat, r: nat, o: nat)
    requires inp + n <= |m0| && o + 2 * r <= n && 0 < r && Runs(Region(m0, inp + o, n - o), r)
    ensures Runs(Region(m0, inp + (o + 2 * r), n - (o + 2 * r)), r)
  {
    hide Runs, Sorted;
    TwoRuns(Region(m0, inp + o, n - o), r);
    assert Region(m0, inp + o, n - o)[2 * r..] == Region(m0, inp + (o + 2 * r), n - (o + 2 * r));
  }

  lemma LevelBegin(m: seq<int>, inp: nat, out: nat, n: nat, r: nat)
    requires inp + n <= |m| && out + n <= |m| && Apart(inp, n, out, n) && Runs(Region(m, inp, n), r)
    ensures LevelInv(m, m, inp, out, n, r, 0)
  {
    hide Runs;
    assert Region(m, out, 0) == [] && Region(m, inp, 0) == [];
    EmptyRuns(2 * r);
  }

  lemma EmptyRuns(r: nat)
    ensures Runs([], r)
  {
  }

  // What the next merge needs.
  lemma LevelNext(m: seq<int>, m0: seq<int>, w: nat, inp: nat, out: nat, n: nat, r: nat, o: nat)
    requires LevelInv(m, m0, inp, out, n, r, o) && IsWidth(w) && 0 < 2 * r && o + 2 * r <= n
    ensures Separate(Job(w, inp + o, r, inp + o + r, r, out + o), |m|)
    ensures Sorted(Region(m, inp + o, r)) && Sorted(Region(m, inp + o + r, r))
  {
    hide Sorted, WroteOnly, Region;
    WroteOnlyRoom(m, m0, out, n);
    SubRegion(m, inp, n, o, r);
    SubRegion(m0, inp, n, o, r);
    SubRegion(m, inp, n, o + r, r);
    SubRegion(m0, inp, n, o + r, r);
    assert inp + (o + r) == inp + o + r;
    FirstTwo(m0, inp, n, r, o);
  }

  lemma FirstTwo(m0: seq<int>, inp: nat, n: nat, r: nat, o: nat)
    requires inp + n <= |m0| && 0 < 2 * r && o + 2 * r <= n && Runs(Region(m0, inp + o, n - o), r)
    ensures Sorted(Region(m0, inp + o, r)) && Sorted(Region(m0, inp + o + r, r))
  {
    hide Sorted, Runs;
    var s := Region(m0, inp + o, n - o);
    TwoRuns(s, r);
    assert s[..r] == Region(m0, inp + o, r);
    SubRegion(m0, inp + o, n - o, r, r);
    assert r + r == 2 * r;
  }

  ghost predicate LevelResult(m: seq<int>, m0: seq<int>, inp: nat, out: nat, n: nat, r: nat) {
    && WroteOnly(m, m0, out, n) && inp + n <= |m|
    && Runs(Region(m, out, n), 2 * r) && multiset(Region(m, out, n)) == multiset(Region(m0, inp, n))
  }

  // Merge the runs of length r in pairs from one buffer into the other.
  method MergeLevel(mem: array<int>, w: nat, inp: nat, out: nat, n: nat, r: nat)
    requires inp + n <= mem.Length && out + n <= mem.Length && Apart(inp, n, out, n)
    requires IsWidth(w) && Whole(r, w) && r > 0 && Tiles(n, 2 * r) && Runs(Region(mem[..], inp, n), r)
    modifies mem
    ensures LevelResult(mem[..], old(mem[..]), inp, out, n, r)
  {
    hide LevelInv, EqLenResult, Separate, Runs, Sorted;
    ghost var m0 := mem[..];
    LevelBegin(m0, inp, out, n, r);
    var o := 0;
    while o < n
      invariant o <= n && Tiles(n - o, 2 * r) && LevelInv(mem[..], m0, inp, out, n, r, o)
    {
      ghost var m := mem[..];
      LevelNext(m, m0, w, inp, out, n, r, o);
      MergeEqLen(mem, w, inp + o, inp + o + r, out + o, r);
      LevelStep(m, mem[..], m0, w, inp, out, n, r, o);
      o := o + 2 * r;
    }
    LevelEnd(mem[..], m0, inp, out, n, r);
  }

  lemma LevelEnd(m: seq<int>, m0: seq<int>, inp: nat, out: nat, n: nat, r: nat)
    requires LevelInv(m, m0, inp, out, n, r, n)
    ensures LevelResult(m, m0, inp, out, n, r)
  {
    hide Runs;
  }

  // ---- the first pass ----

  // The first `o` elements are runs of four.
  ghost predicate FourInv(m: seq<int>, m0: seq<int>, p: nat, n: nat, o: nat) {
    && WroteOnly(m, m0, p, n) && o <= n
    && Region(m, p + o, n - o) == Region(m0, p + o, n - o)
    && Runs(Region(m, p, o), 4) && multiset(Region(m, p, o)) == multiset(Region(m0, p, o))
  }

  function FourRuns(x: seq<int>): (r: seq<int>)
    requires |x| == 16
    ensures |r| == 16
  {
    var (o1, o2, o3, o4) := InRegisterSort(Load(x, 0), Load(x, 4), Load(x, 8), Load(x, 12));
    (o1.Lanes() + o2.Lanes()) + (o3.Lanes() + o4.Lanes())
  }

  lemma FourJoin(a: seq<int>, b: seq<int>, c: seq<int>, d: seq<int>)
    requires |a| == |b| == |c| == |d| == 4 && Sorted(a) && Sorted(b) && Sorted(c) && Sorted(d)
    ensures Runs((a + b) + (c + d), 4)
  {
    hide Sorted, Runs;
    OneRun(a);
    OneRun(b);
    OneRun(c);
    OneRun(d);
    RunsAppend(a, b, 4);
    RunsAppend(c, d, 4);
    RunsAppend(a + b, c + d, 4);
  }

  lemma FourRunsSorted(x: seq<int>)
    requires |x| == 16
    ensures Runs(FourRuns(x), 4) && multiset(FourRuns(x)) == multiset(x)
  {
    hide InRegisterSort, Sorted, Runs, V4.Lanes, Load;
    var ra, rb, rc, rd := Load(x, 0), Load(x, 4), Load(x, 8), Load(x, 12);
    var (o1, o2, o3, o4) := InRegisterSort(ra, rb, rc, rd);
    InRegisterSorts(ra, rb, rc, rd);
    InLanes(x);
    FourLanes(o1, o2, o3, o4);
    FourJoin(o1.Lanes(), o2.Lanes(), o3.Lanes(), o4.Lanes());
    SumOfFour(o1.Lanes(), o2.Lanes(), o3.Lanes(), o4.Lanes());
    SumOfFour(ra.Lanes(), rb.Lanes(), rc.Lanes(), rd.Lanes());
  }

  lemma FourLanes(a: V4, b: V4, c: V4, d: V4)
    ensures |a.Lanes()| == |b.Lanes()| == |c.Lanes()| == |d.Lanes()| == 4
  {
  }

  lemma SumOfFour(a: seq<int>, b: seq<int>, c: seq<int>, d: seq<int>)
    ensures multiset((a + b) + (c + d)) == multiset(a) + multiset(b) + multiset(c) + multiset(d)
  {
  }

  lemma FourStep(m: seq<int>, m0: seq<int>, p: nat, n: nat, o: nat)
    requires FourInv(m, m0, p, n, o) && o + 16 <= n
    ensures p + n <= |m| && FourInv(Spliced(m, p + o, FourRuns(Region(m, p + o, 16))), m0, p, n, o + 16)
  {
    hide WroteOnly, Region, Runs, Spliced, FourRuns;
    WroteOnlyRoom(m, m0, p, n);
    RegionLength(m, p + o, 16);
    var x := Region(m, p + o, 16);
    var m' := Spliced(m, p + o, FourRuns(x));
    SpliceWrites(m, p + o, FourRuns(x));
    WroteOnlyWithin(m', m, m0, p, n, o, 16);
    FourAhead(m', m, m0, p, n, o);
    FourRunsSorted(x);
    RunsAppend(Region(m, p, o), FourRuns(x), 4);
    SubRegion(m', p, n, o, 16);
    SubRegion(m0, p, n, o, 16);
    assert p + (o + 16) == p + o + 16 && n - (o + 16) == n - o - 16;
  }

  // What the step does not reach.
  lemma FourAhead(m': seq<int>, m: seq<int>, m0: seq<int>, p: nat, n: nat, o: nat)
    requires WroteOnly(m', m, p + o, 16) && |m| == |m0| && p + n <= |m| && o + 16 <= n
    requires Region(m, p + o, n - o) == Region(m0, p + o, n - o)
    ensures Region(m', p + o + 16, n - o - 16) == Region(m0, p + o + 16, n - o - 16)
    ensures Region(m, p + o, 16) == Region(m0, p + o, 16)
  {
    hide WroteOnly, Region;
    WroteOnlyRoom(m', m, p + o, 16);
    SubRegion(m0, p + o, n - o, 0, 16);
    SubRegion(m, p + o, n - o, 0, 16);
    SubRegion(m0, p + o, n - o, 16, n - o - 16);
    SubRegion(m, p + o, n - o, 16, n - o - 16);
    WroteOnlyKeeps(m', m, p + o, 16, p + o + 16, n - o - 16);
    assert p + o + 0 == p + o;
  }

  lemma SpliceWrites(m: seq<int>, at: nat, x: seq<int>)
    requires at + |x| <= |m|
    ensures WroteOnly(Spliced(m, at, x), m, at, |x|) && Region(Spliced(m, at, x), at, |x|) == x
  {
  }

  method SortFours(mem: array<int>, p: nat, n: nat)
    requires p + n <= mem.Length && Tiles(n, 16)
    modifies mem
    ensures WroteOnly(mem[..], old(mem[..]), p, n)
    ensures Runs(Region(mem[..], p, n), 4) && multiset(Region(mem[..], p, n)) == multiset(Region(old(mem[..]), p, n))
  {
    hide Runs, Spliced, FourRuns;
    ghost var m0 := mem[..];
    EmptyRuns(4);
    assert Region(m0, p, 0) == [];
    var o := 0;
    while o < n
      invariant o <= n && Tiles(n - o, 16) && FourInv(mem[..], m0, p, n, o)
    {
      FourStep(mem[..], m0, p, n, o);
      assert mem[..][p + o..p + o + 16] == Region(mem[..], p + o, 16);
      StoreBlock(mem, p + o, FourRuns(mem[..][p + o..p + o + 16]));
      o := o + 16;
    }
  }

  // ---- the whole block ----

  // Memory outside two regions of n cells.
  ghost predicate Touched(m: seq<int>, m0: seq<int>, p: nat, q: nat, n: nat) {
    |m| == |m0| && forall i :: 0 <= i < |m| && !Inside(i, p, n) && !Inside(i, q, n) ==> m[i] == m0[i]
  }

  lemma TouchedStep(m: seq<int>, m1: seq<int>, m0: seq<int>, p: nat, q: nat, n: nat, r: nat)
    requires Touched(m1, m0, p, q, n) && WroteOnly(m, m1, r, n) && (r == p || r == q)
    ensures Touched(m, m0, p, q, n)
  {
    forall i | 0 <= i < |m| && !Inside(i, p, n) && !Inside(i, q, n) ensures m[i] == m0[i] {
      if i < r {
        assert Region(m, 0, r)[i] == Region(m1, 0, r)[i];
      } else {
        assert Region(m, r + n, |m| - (r + n))[i - (r + n)] == Region(m1, r + n, |m| - (r + n))[i - (r + n)];
      }
    }
  }

  // ptrs[j & 1]
  function Ptr(input: nat, output: nat, j: nat): nat { if j % 2 == 0 then input else output }

  // Before level j.
  ghost predicate BlockInv(m: seq<int>, m0: seq<int>, input: nat, output: nat, n: nat, j: nat) {
    && input + n <= |m| && output + n <= |m| && Apart(input, n, output, n)
    && Touched(m, m0, input, output, n)
    && Runs(Region(m, Ptr(input, output, j), n), Pow2(j))
    && multiset(Region(m, Ptr(input, output, j), n)) == multiset(Region(m0, input, n))
    && NoNews(m, m0, multiset(Region(m0, input, n)))
  }

  // A region that holds the items is written, and nothing else.
  lemma NewsWritten(m': seq<int>, m: seq<int>, m0: seq<int>, p: nat, n: nat, items: multiset<int>)
    requires NoNews(m, m0, items) && WroteOnly(m', m, p, n) && multiset(Region(m', p, n)) == items
    ensures NoNews(m', m0, items)
  {
    forall i | 0 <= i < |m'| ensures m'[i] == m0[i] || m'[i] in items {
      if i < p {
        assert Region(m', 0, p)[i] == Region(m, 0, p)[i];
      } else if i < p + n {
        assert Region(m', p, n)[i - p] == m'[i] && m'[i] in multiset(Region(m', p, n));
      } else {
        assert Region(m', p + n, |m'| - (p + n))[i - (p + n)] == Region(m, p + n, |m'| - (p + n))[i - (p + n)];
      }
    }
  }

  lemma BlockStep(m': seq<int>, m: seq<int>, m0: seq<int>, input: nat, output: nat, n: nat, j: nat)
    requires BlockInv(m, m0, input, output, n, j)
    requires LevelResult(m', m, Ptr(input, output, j), Ptr(input, output, j + 1), n, Pow2(j))
    ensures BlockInv(m', m0, input, output, n, j + 1)
  {
    hide Touched, Runs, WroteOnly, Region, NoNews;
    WroteOnlyRoom(m', m, Ptr(input, output, j + 1), n);
    TouchedStep(m', m, m0, input, output, n, Ptr(input, output, j + 1));
    NewsWritten(m', m, m0, Ptr(input, output, j + 1), n, multiset(Region(m0, input, n)));
  }

  lemma BlockStart(m: seq<int>, m0: seq<int>, input: nat, output: nat, n: nat)
    requires input + n <= |m| && output + n <= |m| && Apart(input, n, output, n) && WroteOnly(m, m0, input, n)
    requires Runs(Region(m, input, n), 4) && multiset(Region(m, input, n)) == multiset(Region(m0, input, n))
    ensures BlockInv(m, m0, input, output, n, 2)
  {
    hide Runs;
    TouchedStep(m, m0, m0, input, output, n, input);
    NewsWritten(m, m0, m0, input, n, multiset(Region(m0, input, n)));
    assert Pow2(1) == 2 && Pow2(2) == 4;
  }

  // What level j needs.
  lemma BlockNext(m: seq<int>, m0: seq<int>, input: nat, output: nat, n: nat, j: nat, logSize: nat)
    requires BlockInv(m, m0, input, output, n, j) && n == Pow2(logSize) && 2 <= j < logSize
    ensures var inp, out := Ptr(input, output, j), Ptr(input, output, j + 1);
            && |m| == |m0| && inp + n <= |m| && out + n <= |m| && Apart(inp, n, out, n)
            && Runs(Region(m, inp, n), Pow2(j))
    ensures Tiles(n, 2 * Pow2(j)) && 2 * Pow2(j) <= n
    ensures Whole(Pow2(j), if j == 2 then 4 else if j == 3 then 8 else 16)
  {
    hide Runs, Region, Tiles;
    PowersTile(logSize, j + 1);
    PowerWhole(j);
  }

  lemma Sixteenfold(j: nat)
    requires 4 <= j
    ensures Pow2(j) == 16 * Pow2(j - 4)
  {
    var x := Pow2(j - 4);
    assert Pow2(j - 3) == 2 * x;
    assert Pow2(j - 2) == 2 * Pow2(j - 3);
    assert Pow2(j - 1) == 2 * Pow2(j - 2);
  }

  lemma SmallPowers()
    ensures Pow2(2) == 4 && Pow2(3) == 8 && Pow2(4) == 16
  {
    assert Pow2(1) == 2;
    assert Pow2(2) == 4;
  }

  lemma PowerWhole(j: nat)
    requires 2 <= j
    ensures Whole(Pow2(j), if j == 2 then 4 else if j == 3 then 8 else 16)
  {
    hide Pow2;
    SmallPowers();
    if j >= 4 { Sixteenfold(j); }
  }

  ghost predicate BlockResult(m: seq<int>, m0: seq<int>, input: nat, output: nat, n: nat, result: nat) {
    && input + n <= |m| && output + n <= |m| && Touched(m, m0, input, output, n) && (result == input || result == output)
    && Sorted(Region(m, result, n)) && multiset(Region(m, result, n)) == multiset(Region(m0, input, n))
    && NoNews(m, m0, multiset(Region(m0, input, n)))
  }

  lemma BlockEnd(m: seq<int>, m0: seq<int>, input: nat, output: nat, logSize: nat)
    requires BlockInv(m, m0, input, output, Pow2(logSize), logSize)
    ensures BlockResult(m, m0, input, output, Pow2(logSize), Ptr(input, output, logSize))
  {
    hide Touched, Runs, Sorted, NoNews;
    OneRun(Region(m, Ptr(input, output, logSize), Pow2(logSize)));
  }

  // One merge of a level that is written out as single merges.
  method MergePair(mem: array<int>, ghost m0: seq<int>, inp: nat, out: nat, ghost n: nat, r: nat, o: nat)
    requires LevelInv(mem[..], m0, inp, out, n, r, o) && o + 2 * r <= n && r > 0 && Whole(r, 16)
    modifies mem
    ensures LevelInv(mem[..], m0, inp, out, n, r, o + 2 * r)
  {
    hide LevelInv, EqLenResult, Separate, Sorted;
    ghost var m := mem[..];
    LevelNext(m, m0, 16, inp, out, n, r, o);
    MergeEqLen(mem, 16, inp + o, inp + o + r, out + o, r);
    LevelStep(m, mem[..], m0, 16, inp, out, n, r, o);
  }

  // The last level but one: two merges, from inp to out.
  method MergeQuarters(mem: array<int>, inp: nat, out: nat, inlen: nat)
    requires inp + 4 * inlen <= mem.Length && out + 4 * inlen <= mem.Length && Apart(inp, 4 * inlen, out, 4 * inlen)
    requires inlen > 0 && Whole(inlen, 16) && Runs(Region(mem[..], inp, 4 * inlen), inlen)
    modifies mem
    ensures LevelResult(mem[..], old(mem[..]), inp, out, 4 * inlen, inlen)
  {
    hide LevelInv, Runs, LevelResult;
    ghost var m0 := mem[..];
    LevelBegin(m0, inp, out, 4 * inlen, inlen);
    MergePair(mem, m0, inp, out, 4 * inlen, inlen, 0);
    MergePair(mem, m0, inp, out, 4 * inlen, inlen, 2 * inlen);
    LevelEnd(mem[..], m0, inp, out, 4 * inlen, inlen);
  }

  // The last level: one merge, from inp to out.
  method MergeTwoHalves(mem: array<int>, inp: nat, out: nat, inlen: nat)
    requires inp + 2 * inlen <= mem.Length && out + 2 * inlen <= mem.Length && Apart(inp, 2 * inlen, out, 2 * inlen)
    requires inlen > 0 && Whole(inlen, 16) && Runs(Region(mem[..], inp, 2 * inlen), inlen)
    modifies mem
    ensures LevelResult(mem[..], old(mem[..]), inp, out, 2 * inlen, inlen)
  {
    hide LevelInv, Runs, LevelResult;
    ghost var m0 := mem[..];
    LevelBegin(m0, inp, out, 2 * inlen, inlen);
    MergePair(mem, m0, inp, out, 2 * inlen, inlen, 0);
    LevelEnd(mem[..], m0, inp, out, 2 * inlen, inlen);
  }

  // One level: the runs of length 2^j, merged with the network of the level's width.
  method RunLevel(mem: array<int>, ghost m0: seq<int>, input: nat, output: nat, n: nat, j: nat, ghost logSize: nat, w: nat)
    requires BlockInv(mem[..], m0, input, output, n, j) && n == Pow2(logSize) && 2 <= j < logSize
    requires w == if j == 2 then 4 else if j == 3 then 8 else 16
    modifies mem
    ensures BlockInv(mem[..], m0, input, output, n, j + 1)
  {
    hide BlockInv, LevelResult, Runs, Tiles, Pow2, Ptr;
    ghost var m := mem[..];
    BlockNext(m, m0, input, output, n, j, logSize);
    MergeLevel(mem, w, Ptr(input, output, j), Ptr(input, output, j + 1), n, Pow2(j));
    BlockStep(mem[..], m, m0, input, output, n, j);
  }

  // The last two levels.
  method LastLevels(mem: array<int>, ghost m0: seq<int>, input: nat, output: nat, inp: nat, out: nat, ghost logSize: nat, inlen: nat)
    requires logSize >= 6 && BlockInv(mem[..], m0, input, output, Pow2(logSize), logSize - 2)
    requires inp == Ptr(input, output, logSize - 2) && out == Ptr(input, output, logSize - 1) && inlen == Pow2(logSize - 2)
    modifies mem
    ensures BlockInv(mem[..], m0, input, output, Pow2(logSize), logSize)
  {
    hide BlockInv, LevelResult, Runs, Tiles;
    ghost var n := Pow2(logSize);
    assert Pow2(logSize - 1) == 2 * inlen && n == 4 * inlen;
    ghost var m := mem[..];
    BlockNext(m, m0, input, output, n, logSize - 2, logSize);
    MergeQuarters(mem, inp, out, inlen);
    BlockStep(mem[..], m, m0, input, output, n, logSize - 2);
    m := mem[..];
    BlockNext(m, m0, input, output, n, logSize - 1, logSize);
    MergeTwoHalves(mem, out, inp, 2 * inlen);
    BlockStep(mem[..], m, m0, input, output, n, logSize - 1);
  }

  // avxsort_block: the sorted block is at `sorted`, the other buffer at `spare`.
  method SortBlock(mem: array<int>, input: nat, output: nat, logSize: nat) returns (sorted: nat, spare: nat)
    requires logSize >= 6 && input + Pow2(logSize) <= mem.Length && output + Pow2(logSize) <= mem.Length
    requires Apart(input, Pow2(logSize), output, Pow2(logSize))
    modifies mem
    ensures BlockResult(mem[..], old(mem[..]), input, output, Pow2(logSize), sorted)
    ensures sorted == Ptr(input, output, logSize) && spare == Ptr(input, output, logSize + 1)
  {
    hide BlockInv, BlockResult, Runs, Tiles, WroteOnly, Pow2;
    ghost var m0 := mem[..];
    var n := Pow2(logSize);
    PowersTile(logSize, 4);
    SmallPowers();
    SortFours(mem, input, n);
    BlockStart(mem[..], m0, input, output, n);
    RunLevel(mem, m0, input, output, n, 2, logSize, 4);
    RunLevel(mem, m0, input, output, n, 3, logSize, 8);
    var j := 4;
    var jend := logSize - 2;
    while j < jend
      invariant 4 <= j <= jend && BlockInv(mem[..], m0, input, output, n, j)
    {
      RunLevel(mem, m0, input, output, n, j, logSize, 16);
      j := j + 1;
    }
    var inp, out := Ptr(input, output, j), Ptr(input, output, j + 1);
    LastLevels(mem, m0, input, output, inp, out, logSize, Pow2(j));
    BlockEnd(mem[..], m0, input, output, logSize);
    return inp, out;
  }
}

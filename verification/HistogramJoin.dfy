// histogram_join (hashing/joins/parallel_radix_join.cpp:357-432): R is reordered by its bucket into a scratch
// relation; the array of prefix sums, advanced in place by the reordering, ends as the buckets' bounds.
module HistogramJoin {
  import opened Powers
  import opened Joins
  import opened Clusters

  function HistSize(relSize: nat): Pos {
    var n := if relSize == 0 then 0 else CeilToPow2(relSize) / 4;
    if n < 4 then 4 else n
  }

  function HistBuckets(numR: nat): Radix { Radix(256, HistSize(numR)) }

  // The number of buckets is a power of two, so that the mask selects a digit; beyond 4 there are 2 to 4 tuples for each
  // bucket.
  lemma HistFits(numR: nat)
    ensures IsPowerOfTwo(HistSize(numR)) && HistSize(numR) >= 4 && HistBuckets(numR) == Radix(256, HistSize(numR))
    ensures HistSize(numR) > 4 ==> 2 * HistSize(numR) < numR <= 4 * HistSize(numR)
    ensures numR > 16 ==> HistSize(numR) > 4
  {
    hide IsPowerOfTwo, CeilToPow2;
    FourIsPower();
    if numR > 0 {
      var n := CeilToPow2(numR);
      if n >= 4 {
        Half(n);
        Half(n / 2);
        assert n / 2 / 2 == n / 4;
      }
    }
  }

  lemma FourIsPower()
    ensures IsPowerOfTwo(4)
  {
    assert IsPowerOfTwo(2);
  }

  lemma Half(n: nat)
    requires IsPowerOfTwo(n) && n > 1
    ensures n % 2 == 0 && IsPowerOfTwo(n / 2)
  {
  }

  // The counts, two places to the right.
  method CountShifted(r: seq<Tuple>, z: Radix, hist: array<nat>)
    requires hist.Length == z.fan + 2 && forall i :: 0 <= i < hist.Length ==> hist[i] == 0
    modifies hist
    ensures hist[0] == hist[1] == 0 && Counted(hist[2..], r, z)
  {
    hide Counted;
    CountedNone(hist[2..], z);
    assert r[..0] == [];
    var i := 0;
    while i < |r|
      invariant i <= |r| && hist[0] == hist[1] == 0 && Counted(hist[2..], r[..i], z)
    {
      hide Radix.Digit;
      var idx := z.Digit(r[i].key);
      CountStep(hist[2..], r, z, i);
      ghost var was := hist[2..];
      hist[idx + 2] := hist[idx + 2] + 1;
      assert hist[2..] == was[idx := was[idx] + 1];
      i := i + 1;
    }
    assert r[..i] == r;
  }

  lemma CountedNone(hist: seq<nat>, z: Radix)
    requires |hist| == z.fan && forall i :: 0 <= i < |hist| ==> hist[i] == 0
    ensures Counted(hist, [], z)
  {
  }

  // The prefix sums turn the counts into the buckets' ends; one place to the left they are the starts.
  method PrefixSums(ghost r: seq<Tuple>, z: Radix, hist: array<nat>)
    requires hist.Length == z.fan + 2 && hist[0] == hist[1] == 0 && Counted(hist[2..], r, z)
    modifies hist
    ensures hist[0] == 0 && forall c :: 0 <= c <= z.fan ==> hist[c + 1] == Start(r, z, 0, c)
  {
    hide Radix.Digit, Start, PartOf;
    ghost var counts := hist[2..];
    var i, sum := 2, 0;
    StartZero(r, z, 0);
    while i <= z.fan + 1
      invariant 2 <= i <= z.fan + 2 && hist[0] == 0 && sum == Start(r, z, 0, i - 2)
      invariant forall c :: 0 <= c < i - 1 ==> hist[c + 1] == Start(r, z, 0, c)
      invariant forall c :: i <= c < hist.Length ==> hist[c] == counts[c - 2]
    {
      assert hist[i] == counts[i - 2];
      StartNext(r, z, 0, i - 2);
      sum := sum + hist[i];
      hist[i] := sum;
      i := i + 1;
    }
  }

  // Reordering advances hist[idx + 1] from the start of bucket idx to its end.
  method Reorder(r: seq<Tuple>, z: Radix, hist: array<nat>, tmpR: array<Tuple>)
    requires hist.Length == z.fan + 2 && |r| <= tmpR.Length
    requires hist[0] == 0 && forall c :: 0 <= c <= z.fan ==> hist[c + 1] == Start(r, z, 0, c)
    modifies hist, tmpR
    ensures AllPlaced(tmpR[..], r, z, 0, 0, |r|) && tmpR[|r|..] == old(tmpR[|r|..])
    ensures forall c :: 0 <= c <= z.fan ==> hist[c] == Start(r, z, 0, c)
  {
    hide Radix.Digit, Start, PartOf, AllPlaced, Placed;
    StartTotal(r, z, 0);
    StartZero(r, z, 0);
    NothingPlaced(tmpR[..], r, z, 0, 0);
    var i := 0;
    while i < |r|
      invariant i <= |r| && Cursors(hist[1..z.fan + 1], r, z, 0, i) && AllPlaced(tmpR[..], r, z, 0, 0, i)
      invariant hist[0] == 0 && hist[z.fan + 1] == Start(r, z, 0, z.fan) && tmpR[|r|..] == old(tmpR[|r|..])
    {
      var idx := z.Digit(r[i].key);
      ghost var dst := hist[1..z.fan + 1];
      ScatterStep(tmpR[..], r, z, 0, 0, dst, i);
      tmpR[hist[idx + 1]] := r[i];
      hist[idx + 1] := hist[idx + 1] + 1;
      assert hist[1..z.fan + 1] == dst[idx := dst[idx] + 1];
      i := i + 1;
    }
    assert r[..i] == r;
    ghost var dst := hist[1..z.fan + 1];
    forall c | 0 <= c <= z.fan ensures hist[c] == Start(r, z, 0, c) {
      if c > 0 {
        StartNext(r, z, 0, c - 1);
        assert hist[c] == dst[c - 1];
      }
    }
  }

  // One tuple of S: scan its bucket.
  method Scan(r: seq<Tuple>, z: Radix, hist: array<nat>, tmpR: array<Tuple>, t: Tuple) returns (match': nat)
    requires hist.Length == z.fan + 2 && AllPlaced(tmpR[..], r, z, 0, 0, |r|)
    requires forall c :: 0 <= c <= z.fan ==> hist[c] == Start(r, z, 0, c)
    ensures match' == CountKey(r, t.key)
  {
    hide Radix.Digit, Start, PartOf;
    var idx := z.Digit(t.key);
    ghost var part := PartOf(r, z, idx);
    StartNext(r, z, 0, idx);
    assert r[..|r|] == r;
    assert Placed(tmpR[..], part, Start(r, z, 0, idx));
    var start := hist[idx];
    var j, end := start, hist[idx + 1];
    match' := 0;
    while j < end
      invariant start <= j <= end == start + |part| && match' == CountKey(part[..j - start], t.key)
    {
      assert tmpR[j] == tmpR[..][start..start + |part|][j - start] == part[j - start];
      CountNext(part, j - start, t.key);
      if t.key == tmpR[j].key { match' := match' + 1; }
      j := j + 1;
    }
    assert part[..|part|] == part;
    CountInPart(r, z, idx, t.key);
  }

  lemma CountNext(part: seq<Tuple>, n: nat, k: int)
    requires n < |part|
    ensures CountKey(part[..n + 1], k) == CountKey(part[..n], k) + if part[n].key == k then 1 else 0
  {
    assert part[..n + 1][..n] == part[..n];
  }

  method HistogramJoin(r: seq<Tuple>, s: seq<Tuple>, tmpR: array<Tuple>) returns (match': nat)
    requires |r| <= tmpR.Length
    modifies tmpR
    ensures match' == JoinCount(r, s) && tmpR[|r|..] == old(tmpR[|r|..])
  {
    hide Radix.Digit, Start, AllPlaced;
    var z := HistBuckets(|r|);
    var hist := new nat[z.fan + 2](_ => 0);
    CountShifted(r, z, hist);
    PrefixSums(r, z, hist);
    Reorder(r, z, hist, tmpR);
    match' := 0;
    var i := 0;
    while i < |s|
      invariant i <= |s| && match' == JoinCount(r, s[..i]) && tmpR[|r|..] == old(tmpR[|r|..])
      invariant AllPlaced(tmpR[..], r, z, 0, 0, |r|) && forall c :: 0 <= c <= z.fan ==> hist[c] == Start(r, z, 0, c)
    {
      var found := Scan(r, z, hist, tmpR, s[i]);
      assert s[..i + 1][..i] == s[..i];
      match' := match' + found;
      i := i + 1;
    }
    assert s[..i] == s;
  }
}

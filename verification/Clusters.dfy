// Scattering tuples into clusters by a digit of the key: radix_cluster and radix_cluster_nopadding
// (hashing/joins/parallel_radix_join.cpp:573-678).
module Clusters {
  import opened Joins

  // part lies in memory from position `at`
  ghost predicate Placed(out: seq<Tuple>, part: seq<Tuple>, at: nat) {
    at + |part| <= |out| && out[at..at + |part|] == part
  }

  lemma PlaceNext(out: seq<Tuple>, part: seq<Tuple>, at: nat, x: Tuple)
    requires Placed(out, part, at) && at + |part| < |out|
    ensures Placed(out[at + |part| := x], part + [x], at)
  {
  }

  lemma PlaceOther(out: seq<Tuple>, part: seq<Tuple>, at: nat, p: nat, x: Tuple)
    requires Placed(out, part, at) && p < |out| && (p < at || at + |part| <= p)
    ensures Placed(out[p := x], part, at)
  {
  }

  // Where the cluster of class c starts, with `pad` unused tuples behind each cluster.
  function Start(rel: seq<Tuple>, z: Radix, pad: nat, c: nat): nat {
    if c == 0 then 0 else Start(rel, z, pad, c - 1) + |PartOf(rel, z, c - 1)| + pad
  }

  lemma {:induction false} StartIs(rel: seq<Tuple>, z: Radix, pad: nat, c: nat)
    ensures Start(rel, z, pad, c) == |Parts(rel, z, c)| + c * pad
    decreases c
  {
    if c > 0 {
      StartIs(rel, z, pad, c - 1);
      assert c * pad == (c - 1) * pad + pad;
    }
  }

  lemma {:induction false} StartMonotone(rel: seq<Tuple>, z: Radix, pad: nat, c: nat, d: nat)
    requires c < d
    ensures Start(rel, z, pad, c) + |PartOf(rel, z, c)| + pad <= Start(rel, z, pad, d)
    decreases d
  {
    if c < d - 1 { StartMonotone(rel, z, pad, c, d - 1); }
  }

  // All clusters fit: their tuples and the padding.
  lemma StartTotal(rel: seq<Tuple>, z: Radix, pad: nat)
    ensures Start(rel, z, pad, z.fan) == |rel| + z.fan * pad
  {
    StartIs(rel, z, pad, z.fan);
    PartsKeep(rel, z);
    assert |multiset(Parts(rel, z, z.fan))| == |multiset(rel)|;
  }

  // A prefix has no more tuples of a class than the whole.
  lemma PrefixPart(rel: seq<Tuple>, n: nat, z: Radix, c: nat)
    requires n <= |rel|
    ensures |PartOf(rel[..n], z, c)| <= |PartOf(rel, z, c)|
    ensures n < |rel| && z.Digit(rel[n].key) == c ==> |PartOf(rel[..n], z, c)| < |PartOf(rel, z, c)|
  {
    PartAppend(rel[..n], rel[n..], z, c);
    assert rel == rel[..n] + rel[n..];
    if n < |rel| && z.Digit(rel[n].key) == c {
      assert rel[n..] == [rel[n]] + rel[n + 1..];
      PartAppend([rel[n]], rel[n + 1..], z, c);
      PartLast([], rel[n], z, c);
      assert [] + [rel[n]] == [rel[n]];
    }
  }

  // The first n tuples are in their clusters; `base` is where the first cluster starts.
  ghost predicate AllPlaced(out: seq<Tuple>, rel: seq<Tuple>, z: Radix, pad: nat, base: nat, n: nat)
    requires n <= |rel|
  {
    forall c :: 0 <= c < z.fan ==> Placed(out, PartOf(rel[..n], z, c), base + Start(rel, z, pad, c))
  }

  ghost predicate Cursors(dst: seq<nat>, rel: seq<Tuple>, z: Radix, pad: nat, n: nat)
    requires n <= |rel|
  {
    |dst| == z.fan && forall c :: 0 <= c < z.fan ==> dst[c] == Start(rel, z, pad, c) + |PartOf(rel[..n], z, c)|
  }

  lemma ScatterStep(out: seq<Tuple>, rel: seq<Tuple>, z: Radix, pad: nat, base: nat, dst: seq<nat>, n: nat)
    requires n < |rel| && AllPlaced(out, rel, z, pad, base, n) && Cursors(dst, rel, z, pad, n)
    requires base + Start(rel, z, pad, z.fan) <= |out|
    ensures var idx := z.Digit(rel[n].key);
            && idx < |dst| && base + dst[idx] < base + Start(rel, z, pad, z.fan)
            && AllPlaced(out[base + dst[idx] := rel[n]], rel, z, pad, base, n + 1)
            && Cursors(dst[idx := dst[idx] + 1], rel, z, pad, n + 1)
  {
    hide Radix.Digit, Placed, PartOf, Start;
    var idx := z.Digit(rel[n].key);
    PrefixPart(rel, n, z, idx);
    StartMonotone(rel, z, pad, idx, z.fan);
    var out' := out[base + dst[idx] := rel[n]];
    forall c | 0 <= c < z.fan
      ensures Placed(out', PartOf(rel[..n + 1], z, c), base + Start(rel, z, pad, c))
      ensures |PartOf(rel[..n + 1], z, c)| == |PartOf(rel[..n], z, c)| + if c == idx then 1 else 0
    {
      PlaceOne(out, rel, z, pad, base, dst[idx], n, c);
    }
  }

  lemma PlaceOne(out: seq<Tuple>, rel: seq<Tuple>, z: Radix, pad: nat, base: nat, at: nat, n: nat, c: nat)
    requires n < |rel| && c < z.fan && base + at < |out|
    requires var idx := z.Digit(rel[n].key); at == Start(rel, z, pad, idx) + |PartOf(rel[..n], z, idx)|
    requires Placed(out, PartOf(rel[..n], z, c), base + Start(rel, z, pad, c))
    ensures Placed(out[base + at := rel[n]], PartOf(rel[..n + 1], z, c), base + Start(rel, z, pad, c))
    ensures |PartOf(rel[..n + 1], z, c)| == |PartOf(rel[..n], z, c)| + if c == z.Digit(rel[n].key) then 1 else 0
  {
    hide Radix.Digit, Placed, PartOf, Start;
    var idx := z.Digit(rel[n].key);
    assert rel[..n + 1] == rel[..n] + [rel[n]];
    PartLast(rel[..n], rel[n], z, c);
    PrefixPart(rel, n, z, c);
    PrefixPart(rel, n, z, idx);
    if c == idx {
      PlaceNext(out, PartOf(rel[..n], z, c), base + Start(rel, z, pad, c), rel[n]);
    } else {
      if c < idx { StartMonotone(rel, z, pad, c, idx); } else { StartMonotone(rel, z, pad, idx, c); }
      PlaceOther(out, PartOf(rel[..n], z, c), base + Start(rel, z, pad, c), base + at, rel[n]);
      assert PartOf(rel[..n], z, c) + [] == PartOf(rel[..n], z, c);
    }
  }

  // Memory outside [p, p + n) is unchanged.
  ghost predicate Elsewhere(m: seq<Tuple>, m0: seq<Tuple>, p: nat, n: nat) {
    |m| == |m0| && forall i :: 0 <= i < |m| && (i < p || p + n <= i) ==> m[i] == m0[i]
  }

  // ---- the loops ----

  ghost predicate Counted(hist: seq<nat>, rel: seq<Tuple>, z: Radix) {
    |hist| == z.fan && forall c :: 0 <= c < z.fan ==> hist[c] == |PartOf(rel, z, c)|
  }

  lemma CountStep(hist: seq<nat>, rel: seq<Tuple>, z: Radix, n: nat)
    requires n < |rel| && Counted(hist, rel[..n], z)
    ensures var idx := z.Digit(rel[n].key);
            idx < |hist| && Counted(hist[idx := hist[idx] + 1], rel[..n + 1], z)
  {
    var idx := z.Digit(rel[n].key);
    assert rel[..n + 1] == rel[..n] + [rel[n]];
    forall c | 0 <= c < z.fan ensures |PartOf(rel[..n + 1], z, c)| == |PartOf(rel[..n], z, c)| + if c == idx then 1 else 0 {
      PartLast(rel[..n], rel[n], z, c);
    }
  }

  // The histogram.
  method CountClasses(rel: seq<Tuple>, z: Radix, hist: array<nat>)
    requires hist.Length == z.fan && forall c :: 0 <= c < hist.Length ==> hist[c] == 0
    modifies hist
    ensures Counted(hist[..], rel, z)
  {
    assert rel[..0] == [];
    var i := 0;
    while i < |rel|
      invariant i <= |rel| && Counted(hist[..], rel[..i], z)
    {
      CountStep(hist[..], rel, z, i);
      var idx := z.Digit(rel[i].key);
      hist[idx] := hist[idx] + 1;
      i := i + 1;
    }
    assert rel[..i] == rel;
  }

  lemma StartZero(rel: seq<Tuple>, z: Radix, pad: nat)
    ensures Start(rel, z, pad, 0) == 0 && 0 * pad == 0
    ensures forall c :: 0 <= c < z.fan ==> |PartOf(rel[..0], z, c)| == 0
  {
  }

  lemma StartNext(rel: seq<Tuple>, z: Radix, pad: nat, i: nat)
    ensures Start(rel, z, pad, i + 1) == Start(rel, z, pad, i) + |PartOf(rel, z, i)| + pad
    ensures (i + 1) * pad == i * pad + pad
  {
  }

  // The start of every cluster, from the counts.
  method ClusterStarts(ghost rel: seq<Tuple>, z: Radix, pad: nat, hist: array<nat>) returns (dst: array<nat>)
    requires Counted(hist[..], rel, z)
    ensures fresh(dst) && dst.Length == z.fan && Cursors(dst[..], rel, z, pad, 0)
  {
    hide Radix.Digit, PartOf, Start;
    dst := new nat[z.fan];
    var offset, i := 0, 0;
    StartZero(rel, z, pad);
    while i < z.fan
      invariant i <= z.fan && offset + i * pad == Start(rel, z, pad, i)
      invariant forall c :: 0 <= c < i ==> dst[c] == Start(rel, z, pad, c)
      invariant hist[..] == old(hist[..])
    {
      dst[i] := offset + i * pad;
      assert hist[..][i] == hist[i];
      StartNext(rel, z, pad, i);
      offset := offset + hist[i];
      i := i + 1;
    }
  }

  // radix_cluster with pad > 0, radix_cluster_nopadding with pad == 0: cluster rel into `out` from `base`.
  method RadixCluster(rel: seq<Tuple>, z: Radix, pad: nat, out: array<Tuple>, base: nat, hist: array<nat>)
    requires hist.Length == z.fan && forall c :: 0 <= c < hist.Length ==> hist[c] == 0
    requires base + |rel| + z.fan * pad <= out.Length
    modifies hist, out
    ensures Counted(hist[..], rel, z)
    ensures AllPlaced(out[..], rel, z, pad, base, |rel|)
    ensures Elsewhere(out[..], old(out[..]), base, |rel| + z.fan * pad)
  {
    hide Counted, Cursors, AllPlaced;
    CountClasses(rel, z, hist);
    var dst := ClusterStarts(rel, z, pad, hist);
    StartTotal(rel, z, pad);
    NothingPlaced(out[..], rel, z, pad, base);
    var i := 0;
    while i < |rel|
      invariant i <= |rel| && dst.Length == z.fan && Cursors(dst[..], rel, z, pad, i)
      invariant AllPlaced(out[..], rel, z, pad, base, i) && Counted(hist[..], rel, z)
      invariant Elsewhere(out[..], old(out[..]), base, |rel| + z.fan * pad)
    {
      ScatterStep(out[..], rel, z, pad, base, dst[..], i);
      var idx := z.Digit(rel[i].key);
      out[base + dst[idx]] := rel[i];
      dst[idx] := dst[idx] + 1;
      i := i + 1;
    }
  }

  lemma NothingPlaced(out: seq<Tuple>, rel: seq<Tuple>, z: Radix, pad: nat, base: nat)
    requires base + Start(rel, z, pad, z.fan) <= |out|
    ensures AllPlaced(out, rel, z, pad, base, 0)
  {
    assert rel[..0] == [];
    forall c | 0 <= c < z.fan ensures Placed(out, PartOf(rel[..0], z, c), base + Start(rel, z, pad, c)) {
      StartMonotone(rel, z, pad, c, z.fan);
    }
  }

  // The memory the method leaves, as a value.
  lemma {:induction false} ScatterExists(out0: seq<Tuple>, rel: seq<Tuple>, z: Radix, pad: nat, base: nat, n: nat)
    returns (out: seq<Tuple>, dst: seq<nat>)
    requires n <= |rel| && base + |rel| + z.fan * pad <= |out0|
    ensures AllPlaced(out, rel, z, pad, base, n) && Cursors(dst, rel, z, pad, n)
    ensures Elsewhere(out, out0, base, |rel| + z.fan * pad)
    decreases n
  {
    hide Radix.Digit, PartOf, Start, AllPlaced;
    StartTotal(rel, z, pad);
    if n == 0 {
      StartZero(rel, z, pad);
      NothingPlaced(out0, rel, z, pad, base);
      out, dst := out0, seq(z.fan, c requires 0 <= c < z.fan => Start(rel, z, pad, c));
    } else {
      var before, cursors := ScatterExists(out0, rel, z, pad, base, n - 1);
      ScatterStep(before, rel, z, pad, base, cursors, n - 1);
      var idx := z.Digit(rel[n - 1].key);
      out, dst := before[base + cursors[idx] := rel[n - 1]], cursors[idx := cursors[idx] + 1];
    }
  }

  // Without padding the clusters lie one behind the other.
  lemma {:induction false} Adjoining(out: seq<Tuple>, rel: seq<Tuple>, z: Radix, base: nat, n: nat)
    requires n <= z.fan && AllPlaced(out, rel, z, 0, base, |rel|) && base <= |out|
    ensures Placed(out, Parts(rel, z, n), base)
    decreases n
  {
    hide Radix.Digit, PartOf, Start, Placed;
    if n == 0 {
      PlacedNone(out, base);
    } else {
      Adjoining(out, rel, z, base, n - 1);
      StartIs(rel, z, 0, n - 1);
      assert rel[..|rel|] == rel && (n - 1) * 0 == 0;
      assert Placed(out, PartOf(rel[..|rel|], z, n - 1), base + Start(rel, z, 0, n - 1));
      PlacedJoin(out, Parts(rel, z, n - 1), PartOf(rel, z, n - 1), base);
    }
  }

  lemma PlacedNone(out: seq<Tuple>, at: nat)
    requires at <= |out|
    ensures Placed(out, [], at)
  {
  }

  lemma PlacedJoin(out: seq<Tuple>, a: seq<Tuple>, b: seq<Tuple>, at: nat)
    requires Placed(out, a, at) && Placed(out, b, at + |a|)
    ensures Placed(out, a + b, at)
  {
  }
}

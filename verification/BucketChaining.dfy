// bucket_chaining_join (hashing/joins/parallel_radix_join.cpp:291-354): chains of positions in two integer
// arrays, built over R and walked for every tuple of S.
module BucketChaining {
  import opened Powers
  import opened Joins

  // Bits 8 and up of the key choose the bucket.
  function Buckets(numR: Pos): Radix { Radix(256, CeilToPow2(numR)) }

  // Their number is a power of two, so that the mask selects a digit, and there is a bucket for every tuple.
  lemma BucketsFit(numR: Pos)
    ensures Buckets(numR).shift == 256 && IsPowerOfTwo(Buckets(numR).fan) && numR <= Buckets(numR).fan < 2 * numR
  {
  }

  // Position p > 0 stands for tuple p - 1; a chain leads from there to earlier tuples only.
  predicate Linked(next: seq<int>, n: nat) {
    n <= |next| && forall i :: 0 <= i < n ==> 0 <= next[i] <= i
  }

  // How many tuples with key k the chain from `hit` holds.
  function ChainCount(r: seq<Tuple>, next: seq<int>, n: nat, hit: nat, k: int): nat
    requires Linked(next, n) && n <= |r| && hit <= n
    decreases hit
  {
    if hit == 0 then 0 else (if r[hit - 1].key == k then 1 else 0) + ChainCount(r, next, n, next[hit - 1], k)
  }

  // After n tuples every chain holds exactly the tuples so far whose keys fall into its bucket.
  ghost predicate Built(r: seq<Tuple>, next: seq<int>, bucket: seq<int>, z: Radix, n: nat) {
    && n <= |r| && Linked(next, n) && |bucket| == z.fan
    && (forall b :: 0 <= b < |bucket| ==> 0 <= bucket[b] <= n)
    && (forall b :: 0 <= b < |bucket| ==> Holds(r, next, bucket[b], z, n, b))
  }

  // The chain from `hit` holds the tuples of bucket b.
  ghost predicate Holds(r: seq<Tuple>, next: seq<int>, hit: nat, z: Radix, n: nat, b: nat)
    requires n <= |r| && Linked(next, n) && hit <= n
  {
    forall k :: ChainCount(r, next, n, hit, k) == CountKey(PartOf(r[..n], z, b), k)
  }

  lemma {:induction false} ChainFrame(r: seq<Tuple>, next: seq<int>, next': seq<int>, n: nat, n': nat, hit: nat, k: int)
    requires Linked(next, n) && Linked(next', n') && n <= n' <= |r| && hit <= n
    requires forall i :: 0 <= i < n ==> next'[i] == next[i]
    ensures ChainCount(r, next', n', hit, k) == ChainCount(r, next, n, hit, k)
    decreases hit
  {
    if hit > 0 { ChainFrame(r, next, next', n, n', next[hit - 1], k); }
  }

  // The new tuple goes in front of its bucket's chain.
  lemma Extend(r: seq<Tuple>, next: seq<int>, bucket: seq<int>, z: Radix, n: nat)
    requires n < |r| && n < |next| && Built(r, next, bucket, z, n)
    ensures var idx := z.Digit(r[n].key);
            idx < |bucket| && Built(r, next[n := bucket[idx]], bucket[idx := n + 1], z, n + 1)
  {
    var idx := z.Digit(r[n].key);
    var next', bucket' := next[n := bucket[idx]], bucket[idx := n + 1];
    assert Linked(next', n + 1);
    forall b | 0 <= b < |bucket'| ensures Holds(r, next', bucket'[b], z, n + 1, b) {
      assert Holds(r, next, bucket[b], z, n, b);
      var n', hit' := n + 1, bucket'[b];
      forall k ensures ChainCount(r, next', n', hit', k) == CountKey(PartOf(r[..n'], z, b), k) {
        ExtendChain(r, next, next', bucket[b], z, n, b, k);
      }
    }
  }

  lemma ExtendChain(r: seq<Tuple>, next: seq<int>, next': seq<int>, hit: nat, z: Radix, n: nat, b: nat, k: int)
    requires n < |r| && Linked(next, n) && Linked(next', n + 1) && (forall i :: 0 <= i < n ==> next'[i] == next[i])
    requires hit <= n && (z.Digit(r[n].key) == b ==> next'[n] == hit)
    requires ChainCount(r, next, n, hit, k) == CountKey(PartOf(r[..n], z, b), k)
    ensures var hit' := if z.Digit(r[n].key) == b then n + 1 else hit;
            ChainCount(r, next', n + 1, hit', k) == CountKey(PartOf(r[..n + 1], z, b), k)
  {
    ChainFrame(r, next, next', n, n + 1, hit, k);
    assert r[..n + 1] == r[..n] + [r[n]];
    PartLast(r[..n], r[n], z, b);
    if z.Digit(r[n].key) == b {
      CountAppend(PartOf(r[..n], z, b), [r[n]], k);
      CountOne(r[n], k);
    } else {
      assert PartOf(r[..n], z, b) + [] == PartOf(r[..n], z, b);
    }
  }

  method Build(r: seq<Tuple>, next: array<int>, bucket: array<int>)
    requires |r| > 0 && next.Length == |r| && bucket.Length == Buckets(|r|).fan && next != bucket
    requires forall b :: 0 <= b < bucket.Length ==> bucket[b] == 0
    modifies next, bucket
    ensures Built(r, next[..], bucket[..], Buckets(|r|), |r|)
  {
    var z := Buckets(|r|);
    assert r[..0] == [];
    var i := 0;
    while i < |r|
      invariant i <= |r| && Built(r, next[..], bucket[..], z, i)
    {
      Extend(r, next[..], bucket[..], z, i);
      var idx := z.Digit(r[i].key);
      next[i] := bucket[idx];
      bucket[idx] := i + 1;
      i := i + 1;
    }
  }

  // One tuple of S: walk the chain of its bucket.
  method Probe(r: seq<Tuple>, next: array<int>, bucket: array<int>, t: Tuple) returns (matches: nat)
    requires |r| > 0 && Built(r, next[..], bucket[..], Buckets(|r|), |r|)
    ensures matches == CountKey(r, t.key)
  {
    var z := Buckets(|r|);
    var idx := z.Digit(t.key);
    matches := 0;
    ghost var n := |r|;
    var hit := bucket[idx];
    assert hit == bucket[..][idx] && Holds(r, next[..], bucket[..][idx], z, n, idx);
    while hit > 0
      invariant 0 <= hit <= n
      invariant matches + ChainCount(r, next[..], n, hit, t.key) == ChainCount(r, next[..], n, bucket[..][idx], t.key)
      decreases hit
    {
      if t.key == r[hit - 1].key { matches := matches + 1; }
      hit := next[hit - 1];
    }
    assert r[..n] == r;
    CountInPart(r, z, idx, t.key);
  }

  method BucketChainingJoin(r: seq<Tuple>, s: seq<Tuple>) returns (matches: nat)
    requires |r| > 0
    ensures matches == JoinCount(r, s)
  {
    hide Built;
    var next := new int[|r|];
    var bucket := new int[Buckets(|r|).fan](_ => 0);
    Build(r, next, bucket);
    matches := 0;
    var i := 0;
    while i < |s|
      invariant i <= |s| && matches == JoinCount(r, s[..i])
      invariant Built(r, next[..], bucket[..], Buckets(|r|), |r|)
    {
      var found := Probe(r, next, bucket, s[i]);
      assert s[..i + 1][..i] == s[..i];
      matches := matches + found;
      i := i + 1;
    }
    assert s[..i] == s;
  }
}

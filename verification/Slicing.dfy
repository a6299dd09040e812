// The slices of a relation the threads work on: equal lengths, the last thread takes what is left
// (hashing/joins/parallel_radix_join.cpp:1568-1600, hashing/helper/fetcher.h:172-190, 237-255).
module Slicing {
  import opened Joins

  // The slices of the first t threads.
  function Before(slices: seq<seq<Tuple>>, t: nat): seq<Tuple>
    requires t <= |slices|
  {
    if t == 0 then [] else Before(slices, t - 1) + slices[t - 1]
  }

  function PerThread(len: nat, nthreads: nat): nat
    requires nthreads > 0
  {
    len / nthreads
  }

  function SliceStart(len: nat, nthreads: nat, t: nat): nat
    requires nthreads > 0
  {
    t * PerThread(len, nthreads)
  }

  lemma Product(a: nat, b: nat, n: nat)
    requires a <= b
    ensures a * n <= b * n
  {
    assert (b - a) * n >= 0;
  }

  lemma SliceInRange(len: nat, nthreads: nat, t: nat)
    requires t < nthreads
    ensures SliceStart(len, nthreads, t + 1) == SliceStart(len, nthreads, t) + PerThread(len, nthreads) <= len
  {
    var n := len / nthreads;
    Product(t + 1, nthreads, n);
    assert (t + 1) * n == t * n + n;
  }

  function Slice(rel: seq<Tuple>, nthreads: nat, t: nat): seq<Tuple>
    requires t < nthreads
  {
    SliceInRange(|rel|, nthreads, t);
    var start := SliceStart(|rel|, nthreads, t);
    if t == nthreads - 1 then rel[start..] else rel[start..start + PerThread(|rel|, nthreads)]
  }

  function Slices(rel: seq<Tuple>, nthreads: nat): seq<seq<Tuple>> {
    seq(nthreads, t requires 0 <= t < nthreads => Slice(rel, nthreads, t))
  }

  lemma {:induction false} SlicesBefore(rel: seq<Tuple>, nthreads: nat, t: nat)
    requires t < nthreads
    ensures SliceStart(|rel|, nthreads, t) <= |rel|
    ensures Before(Slices(rel, nthreads), t) == rel[..SliceStart(|rel|, nthreads, t)]
    decreases t
  {
    hide SliceStart, PerThread;
    SliceInRange(|rel|, nthreads, t);
    if t == 0 {
      SliceZero(|rel|, nthreads);
    } else {
      SliceInRange(|rel|, nthreads, t - 1);
      SlicesBefore(rel, nthreads, t - 1);
      var lo, hi := SliceStart(|rel|, nthreads, t - 1), SliceStart(|rel|, nthreads, t);
      assert Slices(rel, nthreads)[t - 1] == rel[lo..hi] && rel[..lo] + rel[lo..hi] == rel[..hi];
    }
  }

  lemma SliceZero(len: nat, nthreads: nat)
    requires nthreads > 0
    ensures SliceStart(len, nthreads, 0) == 0
  {
  }

  // Every tuple is in exactly one slice; all slices are equally long, but that the last one takes the remainder too.
  lemma SlicesJoin(rel: seq<Tuple>, nthreads: nat)
    requires nthreads > 0
    ensures |Slices(rel, nthreads)| == nthreads && Before(Slices(rel, nthreads), nthreads) == rel
    ensures forall t :: 0 <= t < nthreads - 1 ==> |Slices(rel, nthreads)[t]| == |rel| / nthreads
    ensures |Slices(rel, nthreads)[nthreads - 1]| == |rel| / nthreads + |rel| % nthreads
  {
    hide SliceStart, PerThread;
    SlicesBefore(rel, nthreads, nthreads - 1);
    SliceInRange(|rel|, nthreads, nthreads - 1);
    forall t | 0 <= t < nthreads - 1 ensures |Slices(rel, nthreads)[t]| == |rel| / nthreads {
      SliceLength(rel, nthreads, t);
    }
    SliceLength(rel, nthreads, nthreads - 1);
  }

  lemma SliceLength(rel: seq<Tuple>, nthreads: nat, t: nat)
    requires t < nthreads
    ensures |Slice(rel, nthreads, t)| == |rel| / nthreads + if t == nthreads - 1 then |rel| % nthreads else 0
  {
    SliceInRange(|rel|, nthreads, t);
    var n := |rel| / nthreads;
    assert |rel| == nthreads * n + |rel| % nthreads && (nthreads - 1) * n == nthreads * n - n;
  }
}

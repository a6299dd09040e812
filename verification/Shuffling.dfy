// Where the shufflers send a tuple (hashing/helper/shuffler.cpp:14-39, 70-73, 101-170): R goes to every thread
// of the key's group, S to one of them.  HashShuffler's groups are single threads.
module Shuffling {
  import opened Joins

  // grpToTh, one list of threads per group
  datatype Shuffler = Shuffler(groups: seq<seq<nat>>)

  // KEY_TO_IDX
  function KeyToIdx(key: int, n: nat): nat
    requires key >= 0 && n > 0
  {
    key % n
  }

  function Group(sh: Shuffler, key: int): seq<nat>
    requires key >= 0 && |sh.groups| > 0
  {
    sh.groups[KeyToIdx(key, |sh.groups|)]
  }

  ghost predicate Distinct(s: seq<nat>) { forall i, j :: 0 <= i < j < |s| ==> s[i] != s[j] }

  // Every group has threads, all different.
  ghost predicate ShufflerOk(sh: Shuffler, nthreads: nat) {
    && |sh.groups| > 0
    && forall g :: 0 <= g < |sh.groups| ==>
         |sh.groups[g]| > 0 && Distinct(sh.groups[g]) && forall i :: 0 <= i < |sh.groups[g]| ==> sh.groups[g][i] < nthreads
  }

  // HashShuffler: key % nthreads names the thread.
  function HashShuffler(nthreads: nat): Shuffler { Shuffler(seq(nthreads, t requires 0 <= t < nthreads => [t])) }

  lemma HashShufflerOk(nthreads: nat, key: int)
    requires nthreads > 0 && key >= 0
    ensures ShufflerOk(HashShuffler(nthreads), nthreads) && Group(HashShuffler(nthreads), key) == [key % nthreads]
  {
  }

  predicate IsAt(sh: Shuffler, g: nat, k: nat, t: nat) { g < |sh.groups| && k < |sh.groups[g]| && sh.groups[g][k] == t }

  // Thread t is in exactly one group, once.
  ghost predicate InOneGroup(sh: Shuffler, t: nat) {
    exists g: nat, k: nat ::
      IsAt(sh, g, k, t) && forall h: nat, l: nat :: IsAt(sh, h, l, t) ==> h == g && l == k
  }

  // ContRandShuffler's constructor.  Groups are allocated for the rounded-down quotient; the loop starts a new
  // group when one is full, so it runs past the allocation when the sizes do not fit (`inBounds` is false).
  method ContRandShuffler(nthreads: nat, groupSize: nat) returns (sh: Shuffler, inBounds: bool)
    requires nthreads > 0 && groupSize > 0
    ensures inBounds <==> groupSize >= nthreads || nthreads % groupSize == 0
    ensures inBounds ==> ShufflerOk(sh, nthreads)
    ensures inBounds ==> |sh.groups| == if groupSize < nthreads then nthreads / groupSize else 1
    ensures inBounds ==> forall t :: 0 <= t < nthreads ==> InOneGroup(sh, t)
    // group g holds the threads from g * groupSize on, all groups are of the same size
    ensures inBounds ==> forall g, k :: 0 <= g < |sh.groups| && 0 <= k < |sh.groups[g]| ==> sh.groups[g][k] == g * groupSize + k
    ensures inBounds ==> forall g :: 0 <= g < |sh.groups| ==> |sh.groups[g]| == if groupSize < nthreads then groupSize else nthreads
  {
    hide InOneGroup, ShufflerOk;
    var quotient := nthreads / groupSize;
    var numGrps := if quotient > 1 then quotient else 1;
    var groups: seq<seq<nat>> := seq(numGrps, _ => []);
    var curGrpId, count := 0, 0;
    inBounds := true;
    var i := 0;
    while i < nthreads && inBounds
      invariant i <= nthreads && |groups| == numGrps && count <= groupSize && (i > 0 ==> count > 0)
      invariant inBounds ==> curGrpId < numGrps && i == curGrpId * groupSize + count
      invariant inBounds ==> Filled(groups, groupSize, curGrpId, count)
      invariant !inBounds ==> numGrps * groupSize < nthreads
    {
      if count < groupSize {
        groups := groups[curGrpId := groups[curGrpId] + [i]];
      } else {
        count := 0;
        curGrpId := curGrpId + 1;
        NextGroup(groupSize, curGrpId, i);
        if curGrpId < numGrps {
          groups := groups[curGrpId := groups[curGrpId] + [i]];
        } else {
          inBounds := false;
        }
      }
      count := count + 1;
      i := i + 1;
    }
    sh := Shuffler(groups);
    FitsIff(nthreads, groupSize, numGrps, curGrpId, count, inBounds);
    if inBounds { AllPlaced(groups, groupSize, nthreads, curGrpId, count); }
  }

  // Groups before the current one are full, the current one has `count` threads, the others are empty.
  ghost predicate Filled(groups: seq<seq<nat>>, groupSize: nat, current: nat, count: nat) {
    && (forall g :: 0 <= g < |groups| ==> |groups[g]| == if g < current then groupSize else if g == current then count else 0)
    && (forall g, k :: 0 <= g < |groups| && 0 <= k < |groups[g]| ==> groups[g][k] == g * groupSize + k)
  }

  lemma NextGroup(size: nat, g: nat, i: nat)
    requires size > 0 && g > 0 && i == (g - 1) * size + size
    ensures i == g * size
  {
  }

  lemma FitsIff(nthreads: nat, size: nat, numGrps: nat, curGrpId: nat, count: nat, inBounds: bool)
    requires size > 0 && nthreads > 0 && numGrps == if nthreads / size > 1 then nthreads / size else 1
    requires inBounds ==> curGrpId < numGrps && nthreads == curGrpId * size + count && count <= size
    requires !inBounds ==> numGrps * size < nthreads
    ensures inBounds <==> size >= nthreads || nthreads % size == 0
  {
    var q, r := nthreads / size, nthreads % size;
    Quotient(nthreads, size);
    if q <= 1 {
      assert numGrps == 1 && (inBounds ==> curGrpId == 0);
      if !inBounds { assert q == 1 && r > 0; }
    } else {
      GroupEnds(size, 1, q);
      if inBounds { GroupEnds(size, curGrpId, q); }
    }
  }

  lemma Quotient(n: nat, size: nat)
    requires size > 0
    ensures n == n / size * size + n % size && n % size < size
    ensures n / size == 0 ==> n < size
    ensures n / size == 1 ==> n == size + n % size
  {
  }

  lemma AllFilled(groups: seq<seq<nat>>, size: nat, nthreads: nat, curGrpId: nat, count: nat)
    requires size > 0 && nthreads > 0 && 0 < count <= size && nthreads == curGrpId * size + count
    requires curGrpId < |groups| == if nthreads / size > 1 then nthreads / size else 1
    requires Filled(groups, size, curGrpId, count)
    ensures ShufflerOk(Shuffler(groups), nthreads)
    ensures forall g :: 0 <= g < |groups| ==> |groups[g]| == if size < nthreads then size else nthreads
  {
    LastGroup(size, nthreads, curGrpId, count, |groups|);
    forall g | 0 <= g < |groups|
      ensures |groups[g]| > 0 && Distinct(groups[g]) && forall i :: 0 <= i < |groups[g]| ==> groups[g][i] < nthreads
    {
      if g < curGrpId { GroupEnds(size, g, curGrpId); }
    }
  }

  lemma AllPlaced(groups: seq<seq<nat>>, size: nat, nthreads: nat, curGrpId: nat, count: nat)
    requires size > 0 && nthreads > 0 && 0 < count <= size && nthreads == curGrpId * size + count
    requires size >= nthreads || nthreads % size == 0
    requires curGrpId < |groups| == if nthreads / size > 1 then nthreads / size else 1
    requires Filled(groups, size, curGrpId, count)
    ensures ShufflerOk(Shuffler(groups), nthreads)
    ensures forall g :: 0 <= g < |groups| ==> |groups[g]| == if size < nthreads then size else nthreads
    ensures forall g, k :: 0 <= g < |groups| && 0 <= k < |groups[g]| ==> groups[g][k] == g * size + k
    ensures |groups| == if size < nthreads then nthreads / size else 1
    ensures forall t :: 0 <= t < nthreads ==> InOneGroup(Shuffler(groups), t)
  {
    hide InOneGroup, ShufflerOk;
    Quotient(nthreads, size);
    AllFilled(groups, size, nthreads, curGrpId, count);
    GroupCount(size, nthreads);
    ThreadsInGroups(Shuffler(groups), size, nthreads);
  }

  lemma GroupCount(size: nat, nthreads: nat)
    requires size > 0 && nthreads > 0 && (size >= nthreads || nthreads % size == 0)
    ensures (if nthreads / size > 1 then nthreads / size else 1) == if size < nthreads then nthreads / size else 1
  {
    Quotient(nthreads, size);
    if size >= nthreads && nthreads / size > 1 { GroupEnds(size, 1, nthreads / size); }
  }

  lemma ThreadsInGroups(sh: Shuffler, size: nat, nthreads: nat)
    requires size > 0 && nthreads > 0 && (nthreads <= size || nthreads % size == 0)
    requires |sh.groups| == if size < nthreads then nthreads / size else 1
    requires forall g :: 0 <= g < |sh.groups| ==> |sh.groups[g]| == if size < nthreads then size else nthreads
    requires forall g, k :: 0 <= g < |sh.groups| && 0 <= k < |sh.groups[g]| ==> sh.groups[g][k] == g * size + k
    ensures forall t :: 0 <= t < nthreads ==> InOneGroup(sh, t)
  {
    hide InOneGroup;
    var n := |sh.groups|;
    Quotient(nthreads, size);
    forall t | 0 <= t < nthreads ensures InOneGroup(sh, t) {
      var g, k := t / size, t % size;
      Quotient(t, size);
      GroupBelow(size, g, k, n);
      OnlyAt(sh, size, g, k, t);
    }
  }

  lemma OnlyAt(sh: Shuffler, size: nat, g: nat, k: nat, t: nat)
    requires size > 0 && g < |sh.groups| && k < |sh.groups[g]| && t == g * size + k
    requires forall h :: 0 <= h < |sh.groups| ==> |sh.groups[h]| <= size
    requires forall h, l :: 0 <= h < |sh.groups| && 0 <= l < |sh.groups[h]| ==> sh.groups[h][l] == h * size + l
    ensures InOneGroup(sh, t)
  {
    assert IsAt(sh, g, k, t);
    forall h: nat, l: nat | IsAt(sh, h, l, t) ensures h == g && l == k {
      SamePlace(size, g, k, h, l);
    }
  }

  lemma SamePlace(size: nat, g: nat, k: nat, h: nat, l: nat)
    requires k < size && l < size && g * size + k == h * size + l
    ensures h == g && l == k
  {
    if g < h { GroupEnds(size, g, h); }
    if h < g { GroupEnds(size, h, g); }
  }

  lemma GroupBelow(size: nat, g: nat, k: nat, n: nat)
    requires g * size + k < n * size
    ensures g < n
  {
    if g > n { GroupEnds(size, n, g); }
  }

  lemma {:induction false} GroupEnds(size: nat, g: nat, h: nat)
    requires g < h
    ensures g * size + size <= h * size
    decreases h
  {
    assert h * size == (h - 1) * size + size;
    if g < h - 1 { GroupEnds(size, g, h - 1); }
  }

  // The loop ends in the last group, which is full unless it is the only one.
  lemma LastGroup(size: nat, nthreads: nat, curGrpId: nat, count: nat, numGrps: nat)
    requires size > 0 && nthreads > 0 && 0 < count <= size && nthreads == curGrpId * size + count
    requires curGrpId < numGrps == if nthreads / size > 1 then nthreads / size else 1
    ensures curGrpId == numGrps - 1 && count == if size < nthreads then size else nthreads
  {
    var q, r := nthreads / size, nthreads % size;
    assert nthreads == q * size + r;
    if curGrpId + 1 < q { GroupEnds(size, curGrpId + 1, q); GroupEnds(size, curGrpId, curGrpId + 1); }
    if curGrpId > 0 { GroupEnds(size, 0, curGrpId); }
    if curGrpId + 1 == q { GroupEnds(size, curGrpId, q); }
  }
}

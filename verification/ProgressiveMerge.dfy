// The sorted runs of the progressive merge join: joining the two halves of a new run, and merging runs while
// joining across them (hashing/helper/pmj_helper.cpp:10-240, hashing/helper/pmj_helper.h:27-130).
module ProgressiveMerge {
  import opened Joins

  ghost predicate SortedByKey(s: seq<Tuple>) { forall i, j :: 0 <= i < j < |s| ==> s[i].key <= s[j].key }

  // A pair of runs; the first posR and posS tuples have been read.
  datatype PairRun = PairRun(R: seq<Tuple>, S: seq<Tuple>, posR: nat, posS: nat)

  predicate RunOk(q: PairRun) { q.posR <= |q.R| && q.posS <= |q.S| }

  ghost predicate RunSorted(q: PairRun) { RunOk(q) && SortedByKey(q.R) && SortedByKey(q.S) }

  // ---- the sweep area ----

  // What a query with key k leaves of the list: it erases the smaller keys on its way.
  function KeepFrom(sx: seq<Tuple>, k: int): seq<Tuple> {
    if |sx| == 0 then [] else KeepFrom(sx[..|sx| - 1], k) + if sx[|sx| - 1].key < k then [] else [sx[|sx| - 1]]
  }

  lemma {:induction false} KeptCounts(sx: seq<Tuple>, k: int, k': int)
    ensures CountKey(KeepFrom(sx, k), k') == if k' < k then 0 else CountKey(sx, k')
    decreases |sx|
  {
    if |sx| > 0 {
      var sx', t := sx[..|sx| - 1], sx[|sx| - 1];
      KeptCounts(sx', k, k');
      CountAppend(KeepFrom(sx', k), [t], k');
      CountOne(t, k');
      assert KeepFrom(sx', k) + [] == KeepFrom(sx', k);
    }
  }

  method Query(sx: seq<Tuple>, t: Tuple) returns (left: seq<Tuple>, found: nat)
    ensures left == KeepFrom(sx, t.key) && found == CountKey(sx, t.key)
  {
    left, found := [], 0;
    var i := 0;
    while i < |sx|
      invariant i <= |sx| && left == KeepFrom(sx[..i], t.key) && found == CountKey(sx[..i], t.key)
    {
      assert sx[..i + 1][..i] == sx[..i];
      if sx[i].key < t.key {
      } else {
        if sx[i].key == t.key { found := found + 1; }
        left := left + [sx[i]];
      }
      i := i + 1;
    }
    assert sx[..i] == sx;
  }

  // The area still holds everything with a key from cur on that has been read.
  ghost predicate AreaOk(area: seq<Tuple>, done: seq<Tuple>, cur: int) {
    forall k :: k >= cur ==> CountKey(area, k) == CountKey(done, k)
  }

  lemma AreaKept(area: seq<Tuple>, done: seq<Tuple>, cur: int, k: int)
    requires AreaOk(area, done, cur) && cur <= k
    ensures AreaOk(KeepFrom(area, k), done, k)
  {
    forall k' | k' >= k ensures CountKey(KeepFrom(area, k), k') == CountKey(done, k') {
      KeptCounts(area, k, k');
    }
  }

  lemma AreaGrows(area: seq<Tuple>, done: seq<Tuple>, cur: int, t: Tuple)
    requires AreaOk(area, done, cur) && cur <= t.key
    ensures AreaOk(area + [t], done + [t], t.key)
  {
    forall k | k >= t.key ensures CountKey(area + [t], k) == CountKey(done + [t], k) {
      CountAppend(area, [t], k);
      CountAppend(done, [t], k);
    }
  }

  // ---- joining the halves of one run ----

  ghost predicate Unread(s: seq<Tuple>, n: nat, cur: int) { forall i :: n <= i < |s| ==> cur <= s[i].key }

  lemma AreaWeaken(area: seq<Tuple>, done: seq<Tuple>, cur: int, k: int)
    requires AreaOk(area, done, cur) && cur <= k
    ensures AreaOk(area, done, k)
  {
  }

  lemma TakeJoinsR(r: seq<Tuple>, s: seq<Tuple>, t: Tuple)
    ensures JoinCount(r + [t], s) == JoinCount(r, s) + CountKey(s, t.key)
  {
    JoinAppendLeft(r, [t], s);
    CountByOne(s, t);
  }

  lemma TakeJoinsS(r: seq<Tuple>, s: seq<Tuple>, t: Tuple)
    ensures JoinCount(r, s + [t]) == JoinCount(r, s) + CountKey(r, t.key)
  {
    JoinAppend(r, s, [t]);
    JoinOne(r, t);
  }

  method EarlyJoinInitialRuns(tupleR: seq<Tuple>, tupleS: seq<Tuple>) returns (matches: nat)
    requires SortedByKey(tupleR) && SortedByKey(tupleS)
    ensures matches == JoinCount(tupleR, tupleS)
  {
    hide JoinCount, CountKey, KeepFrom;
    var r, s := 0, 0;
    var RM: seq<Tuple>, SM: seq<Tuple> := [], [];
    ghost var cur := Lowest(tupleR, tupleS);
    matches := 0;
    JoinNone([]);
    assert tupleR[..0] == [] && tupleS[..0] == [];
    while r < |tupleR| || s < |tupleS|
      invariant r <= |tupleR| && s <= |tupleS| && matches == JoinCount(tupleR[..r], tupleS[..s])
      invariant AreaOk(RM, tupleR[..r], cur) && AreaOk(SM, tupleS[..s], cur)
      invariant Unread(tupleR, r, cur) && Unread(tupleS, s, cur)
      decreases |tupleR| - r + |tupleS| - s
    {
      if s == |tupleS| || (r < |tupleR| && tupleR[r].key <= tupleS[s].key) {
        var tr := tupleR[r];
        assert tupleR[..r + 1] == tupleR[..r] + [tr];
        AreaGrows(RM, tupleR[..r], cur, tr);
        AreaKept(SM, tupleS[..s], cur, tr.key);
        TakeJoinsR(tupleR[..r], tupleS[..s], tr);
        RM := RM + [tr];
        var left, found := Query(SM, tr);
        SM, matches := left, matches + found;
        cur := tr.key;
        r := r + 1;
      } else {
        var ts := tupleS[s];
        assert tupleS[..s + 1] == tupleS[..s] + [ts];
        AreaGrows(SM, tupleS[..s], cur, ts);
        AreaKept(RM, tupleR[..r], cur, ts.key);
        TakeJoinsS(tupleR[..r], tupleS[..s], ts);
        SM := SM + [ts];
        var left, found := Query(RM, ts);
        RM, matches := left, matches + found;
        cur := ts.key;
        s := s + 1;
      }
    }
    assert tupleR[..r] == tupleR && tupleS[..s] == tupleS;
  }

  // A key no greater than any key of two sorted sequences.
  ghost function Lowest(r: seq<Tuple>, s: seq<Tuple>): int {
    if |r| == 0 && |s| == 0 then 0
    else if |r| == 0 then s[0].key
    else if |s| == 0 then r[0].key
    else if r[0].key <= s[0].key then r[0].key
    else s[0].key
  }

  // ---- several runs ----

  // Lists one behind the other.
  function Flat(cs: seq<seq<Tuple>>): seq<Tuple> { if |cs| == 0 then [] else Flat(cs[..|cs| - 1]) + cs[|cs| - 1] }

  // The matches inside the runs.
  function OwnJoin(cr: seq<seq<Tuple>>, cs: seq<seq<Tuple>>, n: nat): nat
    requires n <= |cr| && n <= |cs|
  {
    if n == 0 then 0 else OwnJoin(cr, cs, n - 1) + JoinCount(cr[n - 1], cs[n - 1])
  }

  // Tuples with key k in the first n lists, leaving out list i.
  function SumExcept(cs: seq<seq<Tuple>>, i: int, n: nat, k: int): nat
    requires n <= |cs|
  {
    if n == 0 then 0 else SumExcept(cs, i, n - 1, k) + if n - 1 == i then 0 else CountKey(cs[n - 1], k)
  }

  lemma {:induction false} FlatCounts(cs: seq<seq<Tuple>>, i: nat, k: int)
    requires i < |cs|
    ensures CountKey(Flat(cs), k) == SumExcept(cs, i, |cs|, k) + CountKey(cs[i], k)
    decreases |cs|
  {
    hide CountKey;
    var n := |cs| - 1;
    CountAppend(Flat(cs[..n]), cs[n], k);
    SumExceptPrefix(cs, i, n, k);
    if i < n {
      FlatCounts(cs[..n], i, k);
    } else {
      FlatCountsAll(cs[..n], i, k);
    }
  }

  lemma {:induction false} FlatCountsAll(cs: seq<seq<Tuple>>, i: nat, k: int)
    requires i >= |cs|
    ensures CountKey(Flat(cs), k) == SumExcept(cs, i, |cs|, k)
    decreases |cs|
  {
    if |cs| > 0 {
      var n := |cs| - 1;
      CountAppend(Flat(cs[..n]), cs[n], k);
      SumExceptPrefix(cs, i, n, k);
      FlatCountsAll(cs[..n], i, k);
    }
  }

  lemma {:induction false} SumExceptPrefix(cs: seq<seq<Tuple>>, i: int, n: nat, k: int)
    requires n < |cs|
    ensures SumExcept(cs[..|cs| - 1], i, n, k) == SumExcept(cs, i, n, k)
    decreases n
  {
    hide CountKey;
    if n > 0 { SumExceptPrefix(cs, i, n - 1, k); }
  }

  // One more tuple in one list is one more tuple in all.
  lemma {:induction false} FlatPush(cs: seq<seq<Tuple>>, i: nat, t: Tuple)
    requires i < |cs|
    ensures multiset(Flat(cs[i := cs[i] + [t]])) == multiset(Flat(cs)) + multiset{t}
    decreases |cs|
  {
    var n := |cs| - 1;
    var cs' := cs[i := cs[i] + [t]];
    if i < n {
      FlatPush(cs[..n], i, t);
      assert cs'[..n] == cs[..n][i := cs[..n][i] + [t]];
    } else {
      assert cs'[..n] == cs[..n];
      assert Flat(cs') == Flat(cs[..n]) + (cs[n] + [t]);
    }
  }

  lemma {:induction false} OwnPush(cr: seq<seq<Tuple>>, cs: seq<seq<Tuple>>, i: nat, t: Tuple, n: nat)
    requires n <= |cr| == |cs| && i < |cr|
    ensures OwnJoin(cr[i := cr[i] + [t]], cs, n) == OwnJoin(cr, cs, n) + if i < n then CountKey(cs[i], t.key) else 0
    decreases n
  {
    hide JoinCount, CountKey;
    if n > 0 {
      OwnPush(cr, cs, i, t, n - 1);
      if i == n - 1 { TakeJoinsR(cr[i], cs[i], t); }
    }
  }

  lemma {:induction false} OwnSwap(cr: seq<seq<Tuple>>, cs: seq<seq<Tuple>>, n: nat)
    requires n <= |cr| && n <= |cs|
    ensures OwnJoin(cr, cs, n) == OwnJoin(cs, cr, n)
    decreases n
  {
    hide JoinCount;
    if n > 0 {
      OwnSwap(cr, cs, n - 1);
      JoinSymmetric(cr[n - 1], cs[n - 1]);
    }
  }

  // ---- the state of a merge ----

  ghost predicate AreasOk(areas: seq<seq<Tuple>>, done: seq<seq<Tuple>>, cur: int) {
    |areas| == |done| && forall m :: 0 <= m < |done| ==> AreaOk(areas[m], done[m], cur)
  }

  ghost predicate Merged(out: seq<Tuple>, done: seq<seq<Tuple>>, cur: int) {
    SortedByKey(out) && (forall k :: 0 <= k < |out| ==> out[k].key <= cur) && multiset(out) == multiset(Flat(done))
  }

  // cr and cs have been read; `found` are the matches across runs among them.
  ghost predicate MergeInv(cr: seq<seq<Tuple>>, cs: seq<seq<Tuple>>, RM: seq<seq<Tuple>>, SM: seq<seq<Tuple>>,
                           newR: seq<Tuple>, newS: seq<Tuple>, found: nat, cur: int) {
    && |cr| == |cs| && AreasOk(RM, cr, cur) && AreasOk(SM, cs, cur) && Merged(newR, cr, cur) && Merged(newS, cs, cur)
    && found + OwnJoin(cr, cs, |cr|) == JoinCount(Flat(cr), Flat(cs))
  }

  // After the areas other than i were queried.
  ghost predicate Queried(areas': seq<seq<Tuple>>, areas: seq<seq<Tuple>>, i: nat, k: int) {
    |areas'| == |areas| && forall m :: 0 <= m < |areas| ==> areas'[m] == if m == i then areas[m] else KeepFrom(areas[m], k)
  }

  lemma {:induction false} SameSums(areas: seq<seq<Tuple>>, done: seq<seq<Tuple>>, cur: int, i: int, n: nat, k: int)
    requires AreasOk(areas, done, cur) && cur <= k && n <= |areas|
    ensures SumExcept(areas, i, n, k) == SumExcept(done, i, n, k)
    decreases n
  {
    hide CountKey;
    if n > 0 {
      SameSums(areas, done, cur, i, n - 1, k);
      assert AreaOk(areas[n - 1], done[n - 1], cur);
    }
  }

  lemma QueriedOk(areas': seq<seq<Tuple>>, areas: seq<seq<Tuple>>, done: seq<seq<Tuple>>, i: nat, cur: int, k: int)
    requires AreasOk(areas, done, cur) && Queried(areas', areas, i, k) && cur <= k
    ensures AreasOk(areas', done, k)
  {
    hide AreaOk, KeepFrom;
    forall m | 0 <= m < |done| ensures AreaOk(areas'[m], done[m], k) {
      if m == i { AreaWeaken(areas[m], done[m], cur, k); } else { AreaKept(areas[m], done[m], cur, k); }
    }
  }

  lemma InsertedOk(areas: seq<seq<Tuple>>, done: seq<seq<Tuple>>, i: nat, t: Tuple, cur: int)
    requires AreasOk(areas, done, cur) && i < |done| && cur <= t.key
    ensures AreasOk(areas[i := areas[i] + [t]], done[i := done[i] + [t]], t.key)
  {
    hide AreaOk;
    var areas', done' := areas[i := areas[i] + [t]], done[i := done[i] + [t]];
    forall m | 0 <= m < |done| ensures AreaOk(areas'[m], done'[m], t.key) {
      if m == i { AreaGrows(areas[m], done[m], cur, t); } else { AreaWeaken(areas[m], done[m], cur, t.key); }
    }
  }

  // Reading t from run i of R.
  lemma TakeFromR(cr: seq<seq<Tuple>>, cs: seq<seq<Tuple>>, RM: seq<seq<Tuple>>, SM: seq<seq<Tuple>>, SM': seq<seq<Tuple>>,
                  newR: seq<Tuple>, newS: seq<Tuple>, found: nat, cur: int, i: nat, t: Tuple)
    requires MergeInv(cr, cs, RM, SM, newR, newS, found, cur) && i < |cr| && cur <= t.key && Queried(SM', SM, i, t.key)
    ensures MergeInv(cr[i := cr[i] + [t]], cs, RM[i := RM[i] + [t]], SM', newR + [t], newS,
                     found + SumExcept(SM, i, |SM|, t.key), t.key)
  {
    hide JoinCount, CountKey, AreasOk, Queried, SortedByKey, Flat;
    AreasLength(RM, cr, cur);
    AreasLength(SM, cs, cur);
    InsertedOk(RM, cr, i, t, cur);
    QueriedOk(SM', SM, cs, i, cur, t.key);
    SameSums(SM, cs, cur, i, |cs|, t.key);
    FlatCounts(cs, i, t.key);
    OwnPush(cr, cs, i, t, |cr|);
    FlatPush(cr, i, t);
    assert multiset(Flat(cr) + [t]) == multiset(Flat(cr)) + multiset{t};
    JoinPermutation(Flat(cr[i := cr[i] + [t]]), Flat(cr) + [t], Flat(cs), Flat(cs));
    TakeJoinsR(Flat(cr), Flat(cs), t);
    SortedPush(newR, cur, t);
  }

  lemma AreasLength(areas: seq<seq<Tuple>>, done: seq<seq<Tuple>>, cur: int)
    requires AreasOk(areas, done, cur)
    ensures |areas| == |done|
  {
  }

  lemma SortedPush(out: seq<Tuple>, cur: int, t: Tuple)
    requires SortedByKey(out) && (forall k :: 0 <= k < |out| ==> out[k].key <= cur) && cur <= t.key
    ensures SortedByKey(out + [t]) && forall k :: 0 <= k < |out + [t]| ==> (out + [t])[k].key <= t.key
    ensures multiset(out + [t]) == multiset(out) + multiset{t}
  {
  }

  lemma MergeSwap(cr: seq<seq<Tuple>>, cs: seq<seq<Tuple>>, RM: seq<seq<Tuple>>, SM: seq<seq<Tuple>>,
                  newR: seq<Tuple>, newS: seq<Tuple>, found: nat, cur: int)
    requires MergeInv(cr, cs, RM, SM, newR, newS, found, cur)
    ensures MergeInv(cs, cr, SM, RM, newS, newR, found, cur)
  {
    hide JoinCount, AreasOk, Merged;
    OwnSwap(cr, cs, |cr|);
    JoinSymmetric(Flat(cr), Flat(cs));
  }

  // ---- the merge ----

  ghost function DoneR(Q: seq<PairRun>): (done: seq<seq<Tuple>>)
    requires forall m :: 0 <= m < |Q| ==> RunOk(Q[m])
    ensures |done| == |Q|
  {
    seq(|Q|, m requires 0 <= m < |Q| && RunOk(Q[m]) => Q[m].R[..Q[m].posR])
  }

  ghost function DoneS(Q: seq<PairRun>): (done: seq<seq<Tuple>>)
    requires forall m :: 0 <= m < |Q| ==> RunOk(Q[m])
    ensures |done| == |Q|
  {
    seq(|Q|, m requires 0 <= m < |Q| && RunOk(Q[m]) => Q[m].S[..Q[m].posS])
  }

  ghost function AllR(Q: seq<PairRun>): seq<seq<Tuple>> { seq(|Q|, m requires 0 <= m < |Q| => Q[m].R) }

  ghost function AllS(Q: seq<PairRun>): seq<seq<Tuple>> { seq(|Q|, m requires 0 <= m < |Q| => Q[m].S) }

  ghost predicate QueueOk(Q: seq<PairRun>, cur: int) {
    forall m :: 0 <= m < |Q| ==> RunSorted(Q[m]) && Unread(Q[m].R, Q[m].posR, cur) && Unread(Q[m].S, Q[m].posS, cur)
  }

  // The first run with the smallest unread tuple, for each relation.
  method FindHeads(Q: seq<PairRun>) returns (findI: bool, i: nat, findJ: bool, j: nat)
    requires forall m :: 0 <= m < |Q| ==> RunOk(Q[m])
    ensures findI ==> i < |Q| && Q[i].posR < |Q[i].R|
    ensures findI ==> forall m :: 0 <= m < i && Q[m].posR < |Q[m].R| ==> Q[i].R[Q[i].posR].key < Q[m].R[Q[m].posR].key
    ensures forall m :: 0 <= m < |Q| && Q[m].posR < |Q[m].R| ==> findI && Q[i].R[Q[i].posR].key <= Q[m].R[Q[m].posR].key
    ensures findJ ==> j < |Q| && Q[j].posS < |Q[j].S|
    ensures findJ ==> forall m :: 0 <= m < j && Q[m].posS < |Q[m].S| ==> Q[j].S[Q[j].posS].key < Q[m].S[Q[m].posS].key
    ensures forall m :: 0 <= m < |Q| && Q[m].posS < |Q[m].S| ==> findJ && Q[j].S[Q[j].posS].key <= Q[m].S[Q[m].posS].key
  {
    findI, i, findJ, j := false, 0, false, 0;
    var m := 0;
    while m < |Q|
      invariant m <= |Q|
      invariant findI ==> i < m && Q[i].posR < |Q[i].R|
      invariant findI ==> forall n :: 0 <= n < i && Q[n].posR < |Q[n].R| ==> Q[i].R[Q[i].posR].key < Q[n].R[Q[n].posR].key
      invariant forall n :: 0 <= n < m && Q[n].posR < |Q[n].R| ==> findI && Q[i].R[Q[i].posR].key <= Q[n].R[Q[n].posR].key
      invariant findJ ==> j < m && Q[j].posS < |Q[j].S|
      invariant findJ ==> forall n :: 0 <= n < j && Q[n].posS < |Q[n].S| ==> Q[j].S[Q[j].posS].key < Q[n].S[Q[n].posS].key
      invariant forall n :: 0 <= n < m && Q[n].posS < |Q[n].S| ==> findJ && Q[j].S[Q[j].posS].key <= Q[n].S[Q[n].posS].key
    {
      var q := Q[m];
      assert RunOk(q);
      if q.posR < |q.R| && (!findI || Q[i].R[Q[i].posR].key > q.R[q.posR].key) { findI, i := true, m; }
      if q.posS < |q.S| && (!findJ || Q[j].S[Q[j].posS].key > q.S[q.posS].key) { findJ, j := true, m; }
      m := m + 1;
    }
  }

  // Query every area but one's own.
  method QueryOthers(areas: seq<seq<Tuple>>, i: nat, t: Tuple) returns (left: seq<seq<Tuple>>, found: nat)
    requires i < |areas|
    ensures Queried(left, areas, i, t.key) && found == SumExcept(areas, i, |areas|, t.key)
  {
    hide KeepFrom, CountKey;
    left, found := areas, 0;
    var m := 0;
    while m < |areas|
      invariant m <= |areas| == |left| && found == SumExcept(areas, i, m, t.key)
      invariant forall n :: 0 <= n < m ==> left[n] == if n == i then areas[n] else KeepFrom(areas[n], t.key)
      invariant forall n :: m <= n < |areas| ==> left[n] == areas[n]
    {
      if m != i {
        var kept, hits := Query(areas[m], t);
        left, found := left[m := kept], found + hits;
      }
      m := m + 1;
    }
  }

  ghost predicate Joined(q: PairRun, Q: seq<PairRun>, found: nat) {
    && q.posR == q.posS == 0 && RunSorted(q)
    && multiset(q.R) == multiset(Flat(AllR(Q))) && multiset(q.S) == multiset(Flat(AllS(Q)))
    && found + OwnJoin(AllR(Q), AllS(Q), |Q|) == JoinCount(Flat(AllR(Q)), Flat(AllS(Q)))
  }

  lemma NothingRead(Q: seq<PairRun>, cur: int)
    requires forall m :: 0 <= m < |Q| ==> RunOk(Q[m]) && Q[m].posR == Q[m].posS == 0
    ensures MergeInv(DoneR(Q), DoneS(Q), seq(|Q|, _ => []), seq(|Q|, _ => []), [], [], 0, cur)
  {
    var none: seq<seq<Tuple>> := seq(|Q|, _ => []);
    assert DoneR(Q) == none && DoneS(Q) == none;
    NothingFlat(none);
    NothingJoined(none, |none|);
    JoinNone([]);
  }

  lemma {:induction false} NothingFlat(none: seq<seq<Tuple>>)
    requires forall m :: 0 <= m < |none| ==> none[m] == []
    ensures Flat(none) == []
    decreases |none|
  {
    if |none| > 0 { NothingFlat(none[..|none| - 1]); }
  }

  lemma {:induction false} NothingJoined(none: seq<seq<Tuple>>, n: nat)
    requires n <= |none| && forall m :: 0 <= m < |none| ==> none[m] == []
    ensures OwnJoin(none, none, n) == 0
    decreases n
  {
    if n > 0 {
      NothingJoined(none, n - 1);
      JoinNone([]);
    }
  }

  // A key no greater than any head.
  lemma {:induction false} SomeLow(Q: seq<PairRun>) returns (cur: int)
    requires forall m :: 0 <= m < |Q| ==> RunSorted(Q[m]) && Q[m].posR == Q[m].posS == 0
    ensures QueueOk(Q, cur)
    decreases |Q|
  {
    if |Q| == 0 {
      cur := 0;
    } else {
      var n := |Q| - 1;
      var low := SomeLow(Q[..n]);
      assert RunSorted(Q[n]);
      var own := Lowest(Q[n].R, Q[n].S);
      cur := if low <= own then low else own;
      forall m | 0 <= m < |Q| ensures RunSorted(Q[m]) && Unread(Q[m].R, Q[m].posR, cur) && Unread(Q[m].S, Q[m].posS, cur) {
        if m < n { assert Q[m] == Q[..n][m]; }
      }
    }
  }

  function Remaining(Q: seq<PairRun>): int {
    if |Q| == 0 then 0
    else var q := Q[|Q| - 1]; Remaining(Q[..|Q| - 1]) + (|q.R| - q.posR) + (|q.S| - q.posS)
  }

  lemma {:induction false} ReadOne(Q: seq<PairRun>, i: nat, q: PairRun)
    requires i < |Q| && forall m :: 0 <= m < |Q| ==> RunOk(Q[m])
    requires RunOk(q) && q.R == Q[i].R && q.S == Q[i].S && q.posR + q.posS == Q[i].posR + Q[i].posS + 1
    ensures Remaining(Q[i := q]) == Remaining(Q) - 1 >= 0
    decreases |Q|
  {
    var n := |Q| - 1;
    if i < n {
      ReadOne(Q[..n], i, q);
      assert Q[i := q][..n] == Q[..n][i := q];
    } else {
      assert Q[i := q][..n] == Q[..n];
      NonNegative(Q[..n]);
    }
  }

  lemma {:induction false} NonNegative(Q: seq<PairRun>)
    requires forall m :: 0 <= m < |Q| ==> RunOk(Q[m])
    ensures Remaining(Q) >= 0
    decreases |Q|
  {
    if |Q| > 0 { NonNegative(Q[..|Q| - 1]); }
  }

  // The runs' tuples do not change, only how far they have been read.
  ghost predicate SameRuns(q: seq<PairRun>, Q: seq<PairRun>) {
    |q| == |Q| && forall m :: 0 <= m < |Q| ==> q[m].R == Q[m].R && q[m].S == Q[m].S
  }

  function AdvancedR(q: PairRun): PairRun { q.(posR := q.posR + 1) }

  function AdvancedS(q: PairRun): PairRun { q.(posS := q.posS + 1) }

  // The tuple at the head of run i becomes the current one.
  lemma AdvanceR(q: seq<PairRun>, i: nat, cur: int)
    requires QueueOk(q, cur) && i < |q| && q[i].posR < |q[i].R|
    requires var k := q[i].R[q[i].posR].key;
             forall m :: 0 <= m < |q| ==>
               && (q[m].posR < |q[m].R| ==> k <= q[m].R[q[m].posR].key) && (q[m].posS < |q[m].S| ==> k <= q[m].S[q[m].posS].key)
    ensures var t := q[i].R[q[i].posR]; var q' := q[i := AdvancedR(q[i])];
            && cur <= t.key && QueueOk(q', t.key)
            && DoneR(q') == DoneR(q)[i := DoneR(q)[i] + [t]] && DoneS(q') == DoneS(q)
  {
    assert RunSorted(q[i]);
    var t := q[i].R[q[i].posR];
    var q' := q[i := AdvancedR(q[i])];
    forall m | 0 <= m < |q|
      ensures RunSorted(q'[m]) && Unread(q'[m].R, q'[m].posR, t.key) && Unread(q'[m].S, q'[m].posS, t.key)
    {
      assert RunSorted(q[m]);
    }
    assert q[i].R[..q[i].posR + 1] == q[i].R[..q[i].posR] + [t];
  }

  lemma AdvanceS(q: seq<PairRun>, j: nat, cur: int)
    requires QueueOk(q, cur) && j < |q| && q[j].posS < |q[j].S|
    requires var k := q[j].S[q[j].posS].key;
             forall m :: 0 <= m < |q| ==>
               && (q[m].posR < |q[m].R| ==> k <= q[m].R[q[m].posR].key) && (q[m].posS < |q[m].S| ==> k <= q[m].S[q[m].posS].key)
    ensures var t := q[j].S[q[j].posS]; var q' := q[j := AdvancedS(q[j])];
            && cur <= t.key && QueueOk(q', t.key)
            && DoneS(q') == DoneS(q)[j := DoneS(q)[j] + [t]] && DoneR(q') == DoneR(q)
  {
    assert RunSorted(q[j]);
    var t := q[j].S[q[j].posS];
    var q' := q[j := AdvancedS(q[j])];
    forall m | 0 <= m < |q|
      ensures RunSorted(q'[m]) && Unread(q'[m].R, q'[m].posR, t.key) && Unread(q'[m].S, q'[m].posS, t.key)
    {
      assert RunSorted(q[m]);
    }
    assert q[j].S[..q[j].posS + 1] == q[j].S[..q[j].posS] + [t];
  }

  lemma AllRead(q: seq<PairRun>, Q: seq<PairRun>, cur: int, newR: seq<Tuple>, newS: seq<Tuple>, found: nat,
                RM: seq<seq<Tuple>>, SM: seq<seq<Tuple>>)
    requires QueueOk(q, cur) && SameRuns(q, Q) && MergeInv(DoneR(q), DoneS(q), RM, SM, newR, newS, found, cur)
    requires forall m :: 0 <= m < |q| ==> q[m].posR == |q[m].R| && q[m].posS == |q[m].S|
    ensures Joined(PairRun(newR, newS, 0, 0), Q, found)
  {
    hide AreasOk, JoinCount, Flat, OwnJoin, SortedByKey, Unread;
    forall m | 0 <= m < |q| ensures DoneR(q)[m] == AllR(Q)[m] && DoneS(q)[m] == AllS(Q)[m] {
      assert RunSorted(q[m]);
    }
    assert DoneR(q) == AllR(Q) && DoneS(q) == AllS(Q);
  }

  // The runs, the sweep areas, the new run and the matches so far.
  datatype Merge = Merge(q: seq<PairRun>, RM: seq<seq<Tuple>>, SM: seq<seq<Tuple>>, newR: seq<Tuple>, newS: seq<Tuple>, found: nat)

  ghost predicate StateOk(st: Merge, Q: seq<PairRun>, cur: int) {
    && SameRuns(st.q, Q) && QueueOk(st.q, cur) && (forall m :: 0 <= m < |st.q| ==> RunOk(st.q[m]))
    && MergeInv(DoneR(st.q), DoneS(st.q), st.RM, st.SM, st.newR, st.newS, st.found, cur) && |st.RM| == |st.SM| == |Q|
  }

  // No unread tuple has a smaller key.
  ghost predicate IsLeast(q: seq<PairRun>, k: int) {
    forall m :: 0 <= m < |q| ==>
      && (q[m].posR < |q[m].R| ==> k <= q[m].R[q[m].posR].key) && (q[m].posS < |q[m].S| ==> k <= q[m].S[q[m].posS].key)
  }

  method ReadFromR(st: Merge, ghost Q: seq<PairRun>, ghost cur: int, i: nat) returns (st': Merge, ghost cur': int)
    requires StateOk(st, Q, cur) && i < |st.q| && st.q[i].posR < |st.q[i].R| && IsLeast(st.q, st.q[i].R[st.q[i].posR].key)
    ensures StateOk(st', Q, cur') && Remaining(st'.q) == Remaining(st.q) - 1 >= 0
  {
    hide MergeInv, Queried, SumExcept, DoneR, DoneS, Unread, RunSorted;
    var q := st.q;
    var t := q[i].R[q[i].posR];
    AdvanceR(q, i, cur);
    ReadOne(q, i, AdvancedR(q[i]));
    QueueRuns(q[i := AdvancedR(q[i])], t.key);
    var kept, hits := QueryOthers(st.SM, i, t);
    QueriedLength(kept, st.SM, i, t.key);
    TakeFromR(DoneR(q), DoneS(q), st.RM, st.SM, kept, st.newR, st.newS, st.found, cur, i, t);
    st' := Merge(q[i := AdvancedR(q[i])], st.RM[i := st.RM[i] + [t]], kept, st.newR + [t], st.newS, st.found + hits);
    cur' := t.key;
  }

  method ReadFromS(st: Merge, ghost Q: seq<PairRun>, ghost cur: int, j: nat) returns (st': Merge, ghost cur': int)
    requires StateOk(st, Q, cur) && j < |st.q| && st.q[j].posS < |st.q[j].S| && IsLeast(st.q, st.q[j].S[st.q[j].posS].key)
    ensures StateOk(st', Q, cur') && Remaining(st'.q) == Remaining(st.q) - 1 >= 0
  {
    hide MergeInv, Queried, SumExcept, DoneR, DoneS, Unread, RunSorted;
    var q := st.q;
    var t := q[j].S[q[j].posS];
    AdvanceS(q, j, cur);
    ReadOne(q, j, AdvancedS(q[j]));
    QueueRuns(q[j := AdvancedS(q[j])], t.key);
    var kept, hits := QueryOthers(st.RM, j, t);
    QueriedLength(kept, st.RM, j, t.key);
    MergeSwap(DoneR(q), DoneS(q), st.RM, st.SM, st.newR, st.newS, st.found, cur);
    TakeFromR(DoneS(q), DoneR(q), st.SM, st.RM, kept, st.newS, st.newR, st.found, cur, j, t);
    st' := Merge(q[j := AdvancedS(q[j])], kept, st.SM[j := st.SM[j] + [t]], st.newR, st.newS + [t], st.found + hits);
    cur' := t.key;
    MergeSwap(DoneS(q)[j := DoneS(q)[j] + [t]], DoneR(q), st'.SM, kept, st'.newS, st'.newR, st'.found, t.key);
  }

  lemma QueriedLength(areas': seq<seq<Tuple>>, areas: seq<seq<Tuple>>, i: nat, k: int)
    requires Queried(areas', areas, i, k)
    ensures |areas'| == |areas|
  {
  }

  lemma StateRuns(st: Merge, Q: seq<PairRun>, cur: int)
    requires StateOk(st, Q, cur)
    ensures |st.q| == |Q| && forall m :: 0 <= m < |st.q| ==> RunOk(st.q[m])
  {
  }

  lemma StateEnd(st: Merge, Q: seq<PairRun>, cur: int)
    requires StateOk(st, Q, cur)
    requires forall m :: 0 <= m < |st.q| ==> st.q[m].posR >= |st.q[m].R| && st.q[m].posS >= |st.q[m].S|
    ensures Joined(PairRun(st.newR, st.newS, 0, 0), Q, st.found)
  {
    hide MergeInv, Joined, DoneR, DoneS, RunSorted;
    AllRead(st.q, Q, cur, st.newR, st.newS, st.found, st.RM, st.SM);
  }

  // Merge all runs into one, or do nothing when there are fewer than two.
  method EarlyJoinMergedRuns(Q: seq<PairRun>) returns (left: seq<PairRun>, newRun: PairRun, found: nat)
    requires forall m :: 0 <= m < |Q| ==> RunSorted(Q[m]) && Q[m].posR == Q[m].posS == 0
    ensures |Q| < 2 ==> left == Q && newRun == PairRun([], [], 0, 0) && found == 0
    ensures |Q| >= 2 ==> left == [] && Joined(newRun, Q, found)
  {
    hide StateOk, Joined, MergeInv, RunSorted;
    var st := Merge(Q, seq(|Q|, _ => []), seq(|Q|, _ => []), [], [], 0);
    ghost var cur := StateBegin(Q);
    while true
      invariant StateOk(st, Q, cur) && (|Q| < 2 ==> st.q == Q && st.found == 0)
      decreases Remaining(st.q)
    {
      StateRuns(st, Q, cur);
      var findI, i, findJ, j := false, 0, false, 0;
      if |st.q| >= 2 { findI, i, findJ, j := FindHeads(st.q); }
      if !findI && !findJ {
        if |st.q| < 2 { return st.q, PairRun([], [], 0, 0), st.found; }
        StateEnd(st, Q, cur);
        return [], PairRun(st.newR, st.newS, 0, 0), st.found;
      }
      if !findJ || (findI && st.q[i].R[st.q[i].posR].key <= st.q[j].S[st.q[j].posS].key) {
        st, cur := ReadFromR(st, Q, cur, i);
      } else {
        st, cur := ReadFromS(st, Q, cur, j);
      }
    }
  }

  lemma StateBegin(Q: seq<PairRun>) returns (cur: int)
    requires forall m :: 0 <= m < |Q| ==> RunSorted(Q[m]) && Q[m].posR == Q[m].posS == 0
    ensures StateOk(Merge(Q, seq(|Q|, _ => []), seq(|Q|, _ => []), [], [], 0), Q, cur)
  {
    hide MergeInv;
    cur := SomeLow(Q);
    QueueRuns(Q, cur);
    NothingRead(Q, cur);
  }

  lemma QueueRuns(Q: seq<PairRun>, cur: int)
    requires QueueOk(Q, cur)
    ensures forall m :: 0 <= m < |Q| ==> RunOk(Q[m])
  {
  }

  // ---- the two phases ----

  function Insert(t: Tuple, s: seq<Tuple>): seq<Tuple> {
    if |s| == 0 then [t] else if t.key <= s[0].key then [t] + s else [s[0]] + Insert(t, s[1..])
  }

  lemma {:induction false} InsertKeeps(t: Tuple, s: seq<Tuple>)
    ensures multiset(Insert(t, s)) == multiset(s) + multiset{t}
    decreases |s|
  {
    if |s| > 0 {
      assert s == [s[0]] + s[1..];
      if t.key > s[0].key { InsertKeeps(t, s[1..]); }
    }
  }

  lemma InsertBounds(t: Tuple, s: seq<Tuple>, k: int)
    requires k <= t.key && forall i :: 0 <= i < |s| ==> k <= s[i].key
    ensures forall i :: 0 <= i < |Insert(t, s)| ==> k <= Insert(t, s)[i].key
  {
    var x := Insert(t, s);
    InsertKeeps(t, s);
    forall i | 0 <= i < |x| ensures k <= x[i].key {
      assert x[i] in multiset(x);
    }
  }

  lemma {:induction false} InsertSorts(t: Tuple, s: seq<Tuple>)
    requires SortedByKey(s)
    ensures SortedByKey(Insert(t, s))
    decreases |s|
  {
    if |s| > 0 && t.key > s[0].key {
      InsertSorts(t, s[1..]);
      InsertBounds(t, s[1..], s[0].key);
      SortedCons(s[0], Insert(t, s[1..]));
    } else {
      SortedCons(t, s);
    }
  }

  lemma SortedCons(t: Tuple, s: seq<Tuple>)
    requires SortedByKey(s) && forall i :: 0 <= i < |s| ==> t.key <= s[i].key
    ensures SortedByKey([t] + s)
  {
  }

  // Any sort by key that keeps the tuples will do (AvxSort proves the vectorised one).
  method SortTuples(rel: seq<Tuple>) returns (sorted: seq<Tuple>)
    ensures SortedByKey(sorted) && multiset(sorted) == multiset(rel)
  {
    sorted := [];
    var i := 0;
    while i < |rel|
      invariant i <= |rel| && SortedByKey(sorted) && multiset(sorted) == multiset(rel[..i])
    {
      InsertSorts(rel[i], sorted);
      InsertKeeps(rel[i], sorted);
      assert rel[..i + 1] == rel[..i] + [rel[i]];
      sorted := Insert(rel[i], sorted);
      i := i + 1;
    }
    assert rel[..i] == rel;
  }

  // sorting_phase: sort both halves, join them, keep them as a new run.
  method SortingPhase(relR: seq<Tuple>, relS: seq<Tuple>) returns (q: PairRun, found: nat)
    ensures RunSorted(q) && q.posR == q.posS == 0 && multiset(q.R) == multiset(relR) && multiset(q.S) == multiset(relS)
    ensures found == JoinCount(relR, relS) == JoinCount(q.R, q.S)
  {
    hide JoinCount;
    var outputR := SortTuples(relR);
    var outputS := SortTuples(relS);
    found := EarlyJoinInitialRuns(outputR, outputS);
    JoinPermutation(outputR, relR, outputS, relS);
    q := PairRun(outputR, outputS, 0, 0);
  }

  // All tuples of the runs, joined, in one run.
  ghost predicate Complete(q: seq<PairRun>, Q: seq<PairRun>, found: nat) {
    |q| == 1 && Joined(q[0], Q, found)
  }

  // merging_phase; one run alone is merged with the empty run the first round adds.
  method MergingPhase(Q: seq<PairRun>) returns (q: seq<PairRun>, found: nat)
    requires forall m :: 0 <= m < |Q| ==> RunSorted(Q[m]) && Q[m].posR == Q[m].posS == 0
    ensures Complete(q, Q, found)
  {
    hide Joined, RunSorted;
    var left, newRun, hits := EarlyJoinMergedRuns(Q);
    q, found := left + [newRun], hits;
    if |Q| >= 2 { JoinedSorted(newRun, Q, found); }
    EmptyRun();
    while |q| > 1
      invariant 1 <= |q| <= 2 && forall m :: 0 <= m < |q| ==> RunSorted(q[m]) && q[m].posR == q[m].posS == 0
      invariant |q| == 1 && |Q| >= 2 ==> Complete(q, Q, found)
      invariant |Q| == 0 ==> q == [PairRun([], [], 0, 0)] && found == 0
      invariant |Q| == 1 ==> (q == Q + [PairRun([], [], 0, 0)] && found == 0) || Joined(q[0], Q + [PairRun([], [], 0, 0)], found)
      invariant |q| == 2 ==> |Q| == 1 && q == Q + [PairRun([], [], 0, 0)] && found == 0
      decreases |q|
    {
      ghost var before := q;
      left, newRun, hits := EarlyJoinMergedRuns(q);
      JoinedSorted(newRun, q, hits);
      q, found := left + [newRun], found + hits;
    }
    if |Q| == 0 { NoRuns(found); }
    if |Q| == 1 { JoinedWithEmpty(q[0], Q, found); }
  }

  lemma EmptyRun()
    ensures RunSorted(PairRun([], [], 0, 0))
  {
  }

  lemma JoinedSorted(q: PairRun, Q: seq<PairRun>, found: nat)
    requires Joined(q, Q, found)
    ensures RunSorted(q) && q.posR == q.posS == 0
  {
  }

  lemma NoRuns(found: nat)
    requires found == 0
    ensures Joined(PairRun([], [], 0, 0), [], found)
  {
    JoinNone([]);
  }

  lemma JoinedWithEmpty(q: PairRun, Q: seq<PairRun>, found: nat)
    requires |Q| == 1 && Joined(q, Q + [PairRun([], [], 0, 0)], found)
    ensures Joined(q, Q, found)
  {
    hide JoinCount;
    var Q' := Q + [PairRun([], [], 0, 0)];
    assert AllR(Q) == [AllR(Q')[0]] && AllS(Q) == [AllS(Q')[0]] && AllR(Q')[1] == AllS(Q')[1] == [];
    FlatTwo(AllR(Q'), AllR(Q));
    FlatTwo(AllS(Q'), AllS(Q));
    OwnTwo(AllR(Q'), AllS(Q'), AllR(Q), AllS(Q));
  }

  lemma FlatTwo(c: seq<seq<Tuple>>, c': seq<seq<Tuple>>)
    requires |c| == 2 && c[1] == [] && c' == [c[0]]
    ensures Flat(c) == Flat(c')
  {
    assert c[..1] == c';
    assert Flat(c) == Flat(c') + [];
  }

  lemma OwnTwo(cr: seq<seq<Tuple>>, cs: seq<seq<Tuple>>, cr': seq<seq<Tuple>>, cs': seq<seq<Tuple>>)
    requires |cr| == |cs| == 2 && cr[1] == cs[1] == [] && cr' == [cr[0]] && cs' == [cs[0]]
    ensures OwnJoin(cr, cs, 2) == OwnJoin(cr', cs', 1)
  {
    JoinNone([]);
    assert OwnJoin(cr, cs, 1) == OwnJoin(cr', cs', 1) by { assert OwnJoin(cr, cs, 0) == OwnJoin(cr', cs', 0); }
  }
}

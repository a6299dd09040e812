// build_hashtable_mt (hashing/joins/common_functions.cpp:350-400) as a machine of threads: each inserts the
// tuples of its slice under the latch of the tuple's bucket.  Taking the latch, reading the chain, writing and
// releasing are separate steps; overflow buckets come from the thread's own buffer.
module LatchedBuild {
  import opened Joins
  import opened HashTables

  datatype Pc =
    | Locking(i: nat)
    | Reading(i: nat)
    | Writing(i: nat, count: nat, nxt: int, nxtCount: nat)
    | Unlocking(i: nat)

  datatype State = State(table: Table, latch: seq<bool>, pcs: seq<Pc>, arrived: seq<Tuple>)

  predicate InRange(slices: seq<seq<Tuple>>, s: State) {
    && |s.pcs| == |slices| && |s.latch| == s.table.num && Shaped(s.table)
    && forall t :: 0 <= t < |slices| ==>
         match s.pcs[t]
         case Locking(i) => i <= |slices[t]|
         case Reading(i) => i < |slices[t]|
         case Unlocking(i) => i < |slices[t]|
         case Writing(i, count, nxt, nxtCount) => i < |slices[t]|
  }

  // The bucket whose latch thread t holds.
  function Held(slices: seq<seq<Tuple>>, s: State, t: nat): int
    requires InRange(slices, s) && t < |slices|
  {
    if s.pcs[t].Locking? then -1 else Hash(s.table).Digit(slices[t][s.pcs[t].i].key)
  }

  // The write, from what was read before.
  function Write(tb: Table, idx: nat, t: Tuple, count: nat, nxt: int, nxtCount: nat): Table
    requires Shaped(tb) && idx < tb.num
  {
    if count == BUCKET_SIZE then
      if nxt == NULL || nxtCount == BUCKET_SIZE then
        tb.(buckets := tb.buckets[idx := tb.buckets[idx].(next := |tb.buckets|)] + [Bucket(1, [t, Tuple(0, 0)], nxt)])
      else if 0 <= nxt < |tb.buckets| && nxtCount < |tb.buckets[nxt].tuples| then
        var b := tb.buckets[nxt];
        tb.(buckets := tb.buckets[nxt := b.(count := b.count + 1, tuples := b.tuples[nxtCount := t])])
      else tb
    else if count < |tb.buckets[idx].tuples| then
      var b := tb.buckets[idx];
      tb.(buckets := tb.buckets[idx := b.(count := b.count + 1, tuples := b.tuples[count := t])])
    else tb
  }

  function Step(slices: seq<seq<Tuple>>, s: State, t: nat): State
    requires InRange(slices, s) && t < |slices|
  {
    match s.pcs[t]
    case Locking(i) =>
      if i == |slices[t]| then s
      else
        var idx := Hash(s.table).Digit(slices[t][i].key);
        if s.latch[idx] then s else s.(latch := s.latch[idx := true], pcs := s.pcs[t := Reading(i)])
    case Reading(i) =>
      var idx := Hash(s.table).Digit(slices[t][i].key);
      var curr := s.table.buckets[idx];
      assert NextOk(s.table, idx);
      s.(pcs := s.pcs[t := Writing(i, curr.count, curr.next, if curr.next == NULL then 0 else s.table.buckets[curr.next].count)])
    case Writing(i, count, nxt, nxtCount) =>
      var idx := Hash(s.table).Digit(slices[t][i].key);
      s.(table := Write(s.table, idx, slices[t][i], count, nxt, nxtCount), pcs := s.pcs[t := Unlocking(i)],
         arrived := s.arrived + [slices[t][i]])
    case Unlocking(i) =>
      var idx := Hash(s.table).Digit(slices[t][i].key);
      s.(latch := s.latch[idx := false], pcs := s.pcs[t := Locking(i + 1)])
  }

  // How many tuples of its slice thread t has written.
  function Written(pc: Pc): nat { if pc.Unlocking? then pc.i + 1 else pc.i }

  function Prefix(slice: seq<Tuple>, n: nat): seq<Tuple> { if n <= |slice| then slice[..n] else slice }

  function AllWritten(slices: seq<seq<Tuple>>, pcs: seq<Pc>, n: nat): multiset<Tuple>
    requires n <= |slices| == |pcs|
  {
    if n == 0 then multiset{} else AllWritten(slices, pcs, n - 1) + multiset(Prefix(slices[n - 1], Written(pcs[n - 1])))
  }

  function AllTuples(slices: seq<seq<Tuple>>, n: nat): multiset<Tuple>
    requires n <= |slices|
  {
    if n == 0 then multiset{} else AllTuples(slices, n - 1) + multiset(slices[n - 1])
  }

  // What a thread about to write has read is still so: nobody else has the latch.
  ghost predicate ReadOk(slices: seq<seq<Tuple>>, s: State, t: nat)
    requires InRange(slices, s) && t < |slices|
  {
    s.pcs[t].Writing? ==>
      var curr := s.table.buckets[Hash(s.table).Digit(slices[t][s.pcs[t].i].key)];
      && s.pcs[t].count == curr.count && s.pcs[t].nxt == curr.next
      && (0 <= curr.next < |s.table.buckets| ==> s.pcs[t].nxtCount == s.table.buckets[curr.next].count)
  }

  predicate LatchesApart(slices: seq<seq<Tuple>>, s: State, t: nat, u: nat)
    requires InRange(slices, s) && t < |slices| && u < |slices|
  {
    Held(slices, s, t) < 0 || Held(slices, s, t) != Held(slices, s, u)
  }

  // A latch that is taken has a holder.
  predicate TakenOk(slices: seq<seq<Tuple>>, s: State, idx: nat)
    requires InRange(slices, s) && idx < |s.latch|
  {
    s.latch[idx] ==> exists t :: 0 <= t < |slices| && Held(slices, s, t) == idx
  }

  ghost predicate InvWith(slices: seq<seq<Tuple>>, s: State, owner: seq<nat>) {
    && InRange(slices, s) && HoldsWith(s.table, owner, s.arrived)
    && (forall t :: 0 <= t < |slices| ==> (Held(slices, s, t) >= 0 ==> s.latch[Held(slices, s, t)]) && ReadOk(slices, s, t))
    && (forall t, u :: 0 <= t < |slices| && 0 <= u < |slices| && t != u ==> LatchesApart(slices, s, t, u))
    && (forall idx :: 0 <= idx < |s.latch| ==> TakenOk(slices, s, idx))
    && multiset(s.arrived) == AllWritten(slices, s.pcs, |slices|)
  }

  ghost predicate Inv(slices: seq<seq<Tuple>>, s: State) { exists owner :: InvWith(slices, s, owner) }

  // With fresh readings the write is the insertion of HashTables.
  lemma WriteIsInsert(tb: Table, t: Tuple)
    requires Shaped(tb)
    ensures var idx := Hash(tb).Digit(t.key);
            var curr := tb.buckets[idx];
            var nxtCount := if 0 <= curr.next < |tb.buckets| then tb.buckets[curr.next].count else 0;
            Write(tb, idx, t, curr.count, curr.next, nxtCount) == Insert(tb, t)
  {
    hide Radix.Digit;
    var idx := Hash(tb).Digit(t.key);
    assert BucketOk(tb.buckets[idx]) && NextOk(tb, idx);
    if tb.buckets[idx].next != NULL { assert BucketOk(tb.buckets[tb.buckets[idx].next]); }
  }

  lemma {:induction false} WrittenSame(slices: seq<seq<Tuple>>, pcs: seq<Pc>, t: nat, pc: Pc, n: nat)
    requires n <= |slices| == |pcs| && t < |slices| && Written(pc) == Written(pcs[t])
    ensures AllWritten(slices, pcs[t := pc], n) == AllWritten(slices, pcs, n)
    decreases n
  {
    hide Prefix, Written;
    if n > 0 {
      WrittenSame(slices, pcs, t, pc, n - 1);
      assert Written(pcs[t := pc][n - 1]) == Written(pcs[n - 1]);
    }
  }

  lemma PrefixNext(slice: seq<Tuple>, k: nat)
    requires k < |slice|
    ensures multiset(Prefix(slice, k + 1)) == multiset(Prefix(slice, k)) + multiset{slice[k]}
  {
    assert slice[..k + 1] == slice[..k] + [slice[k]];
  }

  lemma SumGrows(a: multiset<Tuple>, a': multiset<Tuple>, b: multiset<Tuple>, b': multiset<Tuple>, x: multiset<Tuple>,
                 left: bool, right: bool)
    requires !(left && right) && a' == a + (if left then x else multiset{}) && b' == b + if right then x else multiset{}
    ensures a' + b' == a + b + if left || right then x else multiset{}
  {
  }

  lemma {:induction false} WrittenNext(slices: seq<seq<Tuple>>, pcs: seq<Pc>, t: nat, pc: Pc, n: nat)
    requires n <= |slices| == |pcs| && t < |slices| && Written(pc) == Written(pcs[t]) + 1 <= |slices[t]|
    ensures AllWritten(slices, pcs[t := pc], n) ==
            AllWritten(slices, pcs, n) + if t < n then multiset{slices[t][Written(pcs[t])]} else multiset{}
    decreases n
  {
    hide Prefix, Written;
    if n > 0 {
      WrittenNext(slices, pcs, t, pc, n - 1);
      PrefixNext(slices[t], Written(pcs[t]));
      SumGrows(AllWritten(slices, pcs, n - 1), AllWritten(slices, pcs[t := pc], n - 1),
               multiset(Prefix(slices[n - 1], Written(pcs[n - 1]))), multiset(Prefix(slices[n - 1], Written(pcs[t := pc][n - 1]))),
               multiset{slices[t][Written(pcs[t])]}, t < n - 1, t == n - 1);
    }
  }

  // ---- the steps ----

  // A step that leaves the table alone.
  lemma LatchStep(slices: seq<seq<Tuple>>, s: State, owner: seq<nat>, t: nat)
    requires InvWith(slices, s, owner) && t < |slices| && !s.pcs[t].Writing?
    ensures InvWith(slices, Step(slices, s, t), owner)
  {
    hide Radix.Digit, HoldsWith, Shaped, AllWritten;
    var s' := Step(slices, s, t);
    if s'.pcs[t] != s.pcs[t] {
      assert s'.table == s.table && InRange(slices, s');
      LatchesStay(slices, s, t);
      if s.pcs[t].Reading? { ReadingNow(s.table, Hash(s.table).Digit(slices[t][s.pcs[t].i].key)); }
      WrittenSame(slices, s.pcs, t, s'.pcs[t], |slices|);
      forall u | 0 <= u < |slices|
        ensures (Held(slices, s', u) >= 0 ==> s'.latch[Held(slices, s', u)]) && ReadOk(slices, s', u)
      {
        assert (Held(slices, s, u) >= 0 ==> s.latch[Held(slices, s, u)]) && ReadOk(slices, s, u);
        if u != t { assert LatchesApart(slices, s, t, u) && LatchesApart(slices, s, u, t); }
      }
      forall u, v | 0 <= u < |slices| && 0 <= v < |slices| && u != v ensures LatchesApart(slices, s', u, v) {
        assert LatchesApart(slices, s, u, v);
        assert (Held(slices, s, u) >= 0 ==> s.latch[Held(slices, s, u)]) && (Held(slices, s, v) >= 0 ==> s.latch[Held(slices, s, v)]);
      }
    } else {
      assert s.pcs[t := s.pcs[t]] == s.pcs;
    }
  }

  lemma LatchesStay(slices: seq<seq<Tuple>>, s: State, t: nat)
    requires InRange(slices, s) && t < |slices| && InRange(slices, Step(slices, s, t))
    requires Step(slices, s, t).table.num == s.table.num && forall idx :: 0 <= idx < |s.latch| ==> TakenOk(slices, s, idx)
    ensures var s' := Step(slices, s, t); forall idx :: 0 <= idx < |s'.latch| ==> TakenOk(slices, s', idx)
  {
    hide Radix.Digit, Shaped, Write;
    var s' := Step(slices, s, t);
    forall idx | 0 <= idx < |s'.latch| ensures TakenOk(slices, s', idx) {
      if s'.latch[idx] {
        if s.latch[idx] {
          assert TakenOk(slices, s, idx);
          var u :| 0 <= u < |slices| && Held(slices, s, u) == idx;
          assert Held(slices, s', u) == idx;
        } else {
          assert Held(slices, s', t) == idx;
        }
      }
    }
  }

  lemma HolderOf(slices: seq<seq<Tuple>>, s: State, owner: seq<nat>, idx: nat) returns (t: nat)
    requires InvWith(slices, s, owner) && idx < |s.latch| && s.latch[idx]
    ensures t < |slices| && Held(slices, s, t) == idx
  {
    hide HoldsWith, Held, ReadOk;
    assert TakenOk(slices, s, idx);
    t :| 0 <= t < |slices| && Held(slices, s, t) == idx;
  }

  lemma ReadingNow(tb: Table, idx: nat)
    requires Shaped(tb) && idx < tb.num
    ensures tb.buckets[idx].next == NULL || 0 <= tb.buckets[idx].next < |tb.buckets|
  {
    assert NextOk(tb, idx);
  }

  lemma OverflowOwner(tb: Table, owner: seq<nat>, h: nat)
    requires WellFormed(tb, owner) && h < tb.num
    ensures owner[h] == h
    ensures tb.buckets[h].next == NULL || (0 <= tb.buckets[h].next < |tb.buckets| && owner[tb.buckets[h].next] == h)
  {
    assert NextOk(tb, h) && OwnerOk(tb, owner, h);
  }

  // A write changes only the chain of the latched bucket, so what the other threads have read stays so.
  lemma WriteStep(slices: seq<seq<Tuple>>, s: State, owner: seq<nat>, t: nat)
    requires InvWith(slices, s, owner) && t < |slices| && s.pcs[t].Writing?
    ensures Inv(slices, Step(slices, s, t))
  {
    hide Radix.Digit, Shaped, AllWritten, WellFormed, Chain, Insert, Write;
    var s', x := Step(slices, s, t), slices[t][s.pcs[t].i];
    var idx := Hash(s.table).Digit(x.key);
    WellFormedShape(s.table, owner);
    assert ReadOk(slices, s, t);
    OverflowOwner(s.table, owner, idx);
    FreshWrite(s.table, x, s.pcs[t].count, s.pcs[t].nxt, s.pcs[t].nxtCount);
    var owner' := InsertWellFormed(s.table, owner, x);
    WellFormedShape(s'.table, owner');
    InsertKeeps(s.table, owner, owner', s.arrived, x);
    WrittenNext(slices, s.pcs, t, s'.pcs[t], |slices|);
    forall u | 0 <= u < |slices|
      ensures (Held(slices, s', u) >= 0 ==> s'.latch[Held(slices, s', u)]) && ReadOk(slices, s', u)
    {
      assert (Held(slices, s, u) >= 0 ==> s.latch[Held(slices, s, u)]) && ReadOk(slices, s, u);
      if u != t && s.pcs[u].Writing? {
        OverflowOwner(s.table, owner, Held(slices, s, u));
        assert LatchesApart(slices, s, u, t);
      }
    }
    forall u, v | 0 <= u < |slices| && 0 <= v < |slices| && u != v ensures LatchesApart(slices, s', u, v) {
      assert LatchesApart(slices, s, u, v);
    }
    LatchesStay(slices, s, t);
    assert InvWith(slices, s', owner');
  }

  lemma FreshWrite(tb: Table, t: Tuple, count: nat, nxt: int, nxtCount: nat)
    requires Shaped(tb)
    requires var curr := tb.buckets[Hash(tb).Digit(t.key)];
             && count == curr.count && nxt == curr.next
             && (0 <= curr.next < |tb.buckets| ==> nxtCount == tb.buckets[curr.next].count)
    ensures Write(tb, Hash(tb).Digit(t.key), t, count, nxt, nxtCount) == Insert(tb, t)
  {
    hide Radix.Digit, Insert;
    WriteIsInsert(tb, t);
    ReadingNow(tb, Hash(tb).Digit(t.key));
  }

  lemma InsertKeeps(tb: Table, owner: seq<nat>, owner': seq<nat>, arrived: seq<Tuple>, t: Tuple)
    requires HoldsWith(tb, owner, arrived) && Shaped(tb) && WellFormed(Insert(tb, t), owner')
    requires Insert(tb, t).num == tb.num && |tb.buckets| <= |Insert(tb, t).buckets|
    requires forall k :: 0 <= k < |tb.buckets| && owner[k] != Hash(tb).Digit(t.key) ==> Insert(tb, t).buckets[k] == tb.buckets[k]
    ensures HoldsWith(Insert(tb, t), owner', arrived + [t])
  {
    hide Radix.Digit, Insert, Chain, WellFormed;
    WellFormedShape(Insert(tb, t), owner');
    WellFormedShape(tb, owner);
    InsertChains(tb, owner, arrived, t);
  }

  lemma KeepsInv(slices: seq<seq<Tuple>>, s: State, t: nat)
    requires Inv(slices, s) && t < |slices|
    ensures Inv(slices, Step(slices, s, t))
  {
    hide InvWith, Step;
    var owner :| InvWith(slices, s, owner);
    InvRange(slices, s, owner);
    if s.pcs[t].Writing? { WriteStep(slices, s, owner, t); } else { LatchStep(slices, s, owner, t); }
  }

  lemma InvRange(slices: seq<seq<Tuple>>, s: State, owner: seq<nat>)
    requires InvWith(slices, s, owner)
    ensures InRange(slices, s)
  {
  }

  // ---- every run ----

  function Start(nbuckets: Pos, nthreads: nat): State {
    var table := Allocate(nbuckets);
    State(table, seq(table.num, _ => false), seq(nthreads, _ => Locking(0)), [])
  }

  lemma {:induction false} NothingWritten(slices: seq<seq<Tuple>>, pcs: seq<Pc>, n: nat)
    requires n <= |slices| == |pcs| && forall t :: 0 <= t < |pcs| ==> pcs[t] == Locking(0)
    ensures AllWritten(slices, pcs, n) == multiset{}
    decreases n
  {
    if n > 0 { NothingWritten(slices, pcs, n - 1); }
  }

  lemma StartInv(slices: seq<seq<Tuple>>, nbuckets: Pos)
    ensures Inv(slices, Start(nbuckets, |slices|))
  {
    hide HoldsWith, Allocate;
    AllocateHolds(nbuckets);
    var s := Start(nbuckets, |slices|);
    var owner :| HoldsWith(s.table, owner, []);
    HoldsShape(s.table, owner, []);
    NothingWritten(slices, s.pcs, |slices|);
    assert InvWith(slices, s, owner);
  }

  ghost function Run(slices: seq<seq<Tuple>>, s: State, schedule: seq<nat>): (r: State)
    requires Inv(slices, s)
    ensures Inv(slices, r)
  {
    if |schedule| == 0 then s
    else
      var before, t := Run(slices, s, schedule[..|schedule| - 1]), schedule[|schedule| - 1];
      if t < |slices| then
        KeepsInv(slices, before, t);
        InvIn(slices, before);
        Step(slices, before, t)
      else before
  }

  lemma InvIn(slices: seq<seq<Tuple>>, s: State)
    requires Inv(slices, s)
    ensures InRange(slices, s)
  {
  }

  lemma {:induction false} EverythingWritten(slices: seq<seq<Tuple>>, pcs: seq<Pc>, n: nat)
    requires n <= |slices| == |pcs| && forall t :: 0 <= t < |pcs| ==> pcs[t] == Locking(|slices[t]|)
    ensures AllWritten(slices, pcs, n) == AllTuples(slices, n)
    decreases n
  {
    if n > 0 {
      EverythingWritten(slices, pcs, n - 1);
      assert slices[n - 1][..|slices[n - 1]|] == slices[n - 1];
    }
  }

  // When every thread is through its slice, the table holds all the tuples, each in its own chain: the same
  // contents one thread would have built.
  lemma EveryRunBuilds(slices: seq<seq<Tuple>>, nbuckets: Pos, schedule: seq<nat>)
    ensures Inv(slices, Start(nbuckets, |slices|))
    ensures var s := Run(slices, Start(nbuckets, |slices|), schedule);
            && Holds(s.table, s.arrived)
            && (|s.pcs| == |slices| && (forall t :: 0 <= t < |slices| ==> s.pcs[t] == Locking(|slices[t]|)) ==>
                  multiset(s.arrived) == AllTuples(slices, |slices|))
  {
    hide HoldsWith, Run;
    StartInv(slices, nbuckets);
    var s := Run(slices, Start(nbuckets, |slices|), schedule);
    var owner :| InvWith(slices, s, owner);
    if |s.pcs| == |slices| && (forall t :: 0 <= t < |slices| ==> s.pcs[t] == Locking(|slices[t]|)) {
      EverythingWritten(slices, s.pcs, |slices|);
    }
  }

  // A latch is held by one thread at a time.
  lemma LatchIsExclusive(slices: seq<seq<Tuple>>, s: State, t: nat, u: nat)
    requires Inv(slices, s) && t < |slices| && u < |slices| && t != u
    ensures InRange(slices, s) && (Held(slices, s, t) < 0 || Held(slices, s, t) != Held(slices, s, u))
  {
    hide HoldsWith, Held;
    var owner :| InvWith(slices, s, owner);
    assert LatchesApart(slices, s, t, u);
  }

  // ---- every run can end ----

  function Work(pc: Pc, slice: seq<Tuple>): int {
    4 * (|slice| - pc.i) - match pc
                           case Locking(_) => 0
                           case Reading(_) => 1
                           case Writing(_, _, _, _) => 2
                           case Unlocking(_) => 3
  }

  // The steps all threads still have to take, not counting those that find the latch taken.
  function Left(slices: seq<seq<Tuple>>, pcs: seq<Pc>, n: nat): int
    requires n <= |slices| == |pcs|
  {
    if n == 0 then 0 else Left(slices, pcs, n - 1) + Work(pcs[n - 1], slices[n - 1])
  }

  lemma {:induction false} LeftUpdate(slices: seq<seq<Tuple>>, pcs: seq<Pc>, t: nat, pc: Pc, n: nat)
    requires n <= |slices| == |pcs| && t < |slices|
    ensures Left(slices, pcs[t := pc], n) ==
            Left(slices, pcs, n) + if t < n then Work(pc, slices[t]) - Work(pcs[t], slices[t]) else 0
    decreases n
  {
    hide Work;
    if n > 0 { LeftUpdate(slices, pcs, t, pc, n - 1); }
  }

  lemma {:induction false} LeftNat(slices: seq<seq<Tuple>>, s: State, n: nat)
    requires InRange(slices, s) && n <= |slices|
    ensures Left(slices, s.pcs, n) >= 0
    decreases n
  {
    if n > 0 { LeftNat(slices, s, n - 1); }
  }

  // A step that does anything leaves one less to take ...
  lemma StepCounts(slices: seq<seq<Tuple>>, s: State, t: nat)
    requires Inv(slices, s) && t < |slices|
    ensures InRange(slices, s) && Inv(slices, Step(slices, s, t)) && |Step(slices, s, t).pcs| == |slices|
    ensures 0 <= Left(slices, Step(slices, s, t).pcs, |slices|)
    ensures Step(slices, s, t) == s || Left(slices, Step(slices, s, t).pcs, |slices|) == Left(slices, s.pcs, |slices|) - 1
  {
    hide InvWith, Radix.Digit, Write;
    InvIn(slices, s);
    KeepsInv(slices, s, t);
    var s' := Step(slices, s, t);
    InvIn(slices, s');
    LeftNat(slices, s', |slices|);
    LeftUpdate(slices, s.pcs, t, s'.pcs[t], |slices|);
    assert s'.pcs == s.pcs[t := s'.pcs[t]];
  }

  // ... and until all are through their slices some thread's step does something: a latch found taken is held by
  // a thread that can go on.
  lemma SomeoneMoves(slices: seq<seq<Tuple>>, s: State) returns (t: nat)
    requires Inv(slices, s) && |s.pcs| == |slices| && exists u :: 0 <= u < |slices| && s.pcs[u] != Locking(|slices[u]|)
    ensures InRange(slices, s) && t < |slices| && Step(slices, s, t) != s
  {
    hide HoldsWith, Radix.Digit, Write, ReadOk;
    var u :| 0 <= u < |slices| && s.pcs[u] != Locking(|slices[u]|);
    t := u;
    var owner :| InvWith(slices, s, owner);
    if s.pcs[u].Locking? {
      var idx := Hash(s.table).Digit(slices[u][s.pcs[u].i].key);
      if s.latch[idx] { t := HolderOf(slices, s, owner, idx); }
    }
    assert Step(slices, s, t).pcs[t] != s.pcs[t];
  }
}

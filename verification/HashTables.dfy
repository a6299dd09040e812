// The chained hash table of the symmetric hash join and of the no-partitioning join
// (hashing/joins/common_functions.cpp:77-104, 172-206, 237-280, 350-400).  Buckets live in one pool: the first
// `num` are the heads, overflow buckets follow in the order of their allocation.
module HashTables {
  import opened Joins
  import opened Powers

  const BUCKET_SIZE: nat := 2
  const NULL: int := -1

  datatype Bucket = Bucket(count: nat, tuples: seq<Tuple>, next: int)

  datatype Table = Table(num: Pos, buckets: seq<Bucket>)

  // HASH with no skipped bits: num is a power of two.
  function Hash(tb: Table): Radix { Radix(1, tb.num) }

  // allocate_hashtable
  function Allocate(nbuckets: Pos): Table {
    var num := CeilToPow2(nbuckets);
    Table(num, seq(num, _ => Bucket(0, [Tuple(0, 0), Tuple(0, 0)], NULL)))
  }

  predicate BucketOk(b: Bucket) { b.count <= BUCKET_SIZE == |b.tuples| }

  // A chain goes from its head to overflow buckets, from later to earlier ones.
  predicate NextOk(tb: Table, i: nat)
    requires i < |tb.buckets|
  {
    tb.buckets[i].next == NULL || tb.num <= tb.buckets[i].next < (if i < tb.num then |tb.buckets| else i)
  }

  predicate Shaped(tb: Table) {
    && tb.num <= |tb.buckets|
    && forall i :: 0 <= i < |tb.buckets| ==> BucketOk(tb.buckets[i]) && NextOk(tb, i)
  }

  // A bucket with t put in the next free slot.
  function Fill(b: Bucket, t: Tuple): Bucket
    requires b.count < |b.tuples|
  {
    b.(count := b.count + 1, tuples := b.tuples[b.count := t])
  }

  // build_hashtable_single
  function Insert(tb: Table, t: Tuple): Table
    requires Shaped(tb)
  {
    var idx := Hash(tb).Digit(t.key);
    var curr := tb.buckets[idx];
    var nxt := curr.next;
    assert BucketOk(curr) && NextOk(tb, idx);
    if curr.count == BUCKET_SIZE then
      if nxt == NULL || tb.buckets[nxt].count == BUCKET_SIZE then
        var b := Bucket(1, [t, Tuple(0, 0)], nxt);
        tb.(buckets := tb.buckets[idx := curr.(next := |tb.buckets|)] + [b])
      else
        assert BucketOk(tb.buckets[nxt]);
        tb.(buckets := tb.buckets[nxt := Fill(tb.buckets[nxt], t)])
    else tb.(buckets := tb.buckets[idx := Fill(curr, t)])
  }

  // ---- what a table holds ----

  function Items(b: Bucket): seq<Tuple>
    requires BucketOk(b)
  {
    b.tuples[..b.count]
  }

  // The tuples of the overflow buckets from i on.
  function Tail(tb: Table, i: int): seq<Tuple>
    requires Shaped(tb) && (i == NULL || tb.num <= i < |tb.buckets|)
    decreases i
  {
    if i == NULL then []
    else
      assert BucketOk(tb.buckets[i]) && NextOk(tb, i);
      Items(tb.buckets[i]) + Tail(tb, tb.buckets[i].next)
  }

  function Chain(tb: Table, h: nat): seq<Tuple>
    requires Shaped(tb) && h < tb.num
  {
    assert BucketOk(tb.buckets[h]) && NextOk(tb, h);
    Items(tb.buckets[h]) + Tail(tb, tb.buckets[h].next)
  }

  // No bucket is in two chains: `owner` names the head of every bucket's chain.
  predicate OwnerOk(tb: Table, owner: seq<nat>, i: nat)
    requires i < |tb.buckets| == |owner|
  {
    && owner[i] < tb.num && (i < tb.num ==> owner[i] == i)
    && (0 <= tb.buckets[i].next < |owner| ==> owner[tb.buckets[i].next] == owner[i])
  }

  // From the third bucket on all are full; a head with an overflow bucket is full.
  predicate FullOk(tb: Table, i: nat)
    requires i < |tb.buckets|
  {
    var b := tb.buckets[i];
    && (i >= tb.num ==> b.count >= 1)
    && (0 <= b.next < |tb.buckets| ==> if i < tb.num then b.count == BUCKET_SIZE else tb.buckets[b.next].count == BUCKET_SIZE)
  }

  ghost predicate WellFormed(tb: Table, owner: seq<nat>) {
    && Shaped(tb) && |owner| == |tb.buckets|
    && forall i :: 0 <= i < |tb.buckets| ==> OwnerOk(tb, owner, i) && FullOk(tb, i)
  }

  // The chain of every head holds exactly the tuples of its class that have arrived.
  ghost predicate HoldsWith(tb: Table, owner: seq<nat>, arrived: seq<Tuple>) {
    && WellFormed(tb, owner)
    && forall h :: 0 <= h < tb.num ==> multiset(Chain(tb, h)) == multiset(PartOf(arrived, Hash(tb), h))
  }

  ghost predicate Holds(tb: Table, arrived: seq<Tuple>) { exists owner :: HoldsWith(tb, owner, arrived) }

  // Chains whose buckets have not changed.
  lemma {:induction false} TailFrame(tb: Table, tb': Table, i: int)
    requires Shaped(tb) && Shaped(tb') && tb'.num == tb.num && |tb.buckets| <= |tb'.buckets|
    requires i == NULL || tb.num <= i < |tb.buckets|
    requires forall k :: tb.num <= k <= i ==> tb'.buckets[k] == tb.buckets[k]
    ensures Tail(tb', i) == Tail(tb, i)
    decreases i
  {
    if i != NULL {
      assert NextOk(tb, i);
      TailFrame(tb, tb', tb.buckets[i].next);
    }
  }

  lemma {:induction false} TailOther(tb: Table, tb': Table, owner: seq<nat>, h: nat, i: int)
    requires WellFormed(tb, owner) && Shaped(tb') && tb'.num == tb.num && |tb.buckets| <= |tb'.buckets|
    requires i == NULL || (tb.num <= i < |tb.buckets| && owner[i] != h)
    requires forall k :: 0 <= k < |tb.buckets| && owner[k] != h ==> tb'.buckets[k] == tb.buckets[k]
    ensures Tail(tb', i) == Tail(tb, i)
    decreases i
  {
    if i != NULL {
      assert NextOk(tb, i) && OwnerOk(tb, owner, i);
      TailOther(tb, tb', owner, h, tb.buckets[i].next);
    }
  }

  lemma FillItems(b: Bucket, t: Tuple)
    requires BucketOk(b) && b.count < BUCKET_SIZE
    ensures BucketOk(Fill(b, t)) && Items(Fill(b, t)) == Items(b) + [t]
  {
  }

  // The tuple is in its own chain, the other chains are as before.
  lemma InsertWellFormed(tb: Table, owner: seq<nat>, t: Tuple) returns (owner': seq<nat>)
    requires WellFormed(tb, owner)
    ensures Insert(tb, t).num == tb.num && WellFormed(Insert(tb, t), owner') && owner <= owner'
    ensures forall k :: 0 <= k < |tb.buckets| && owner[k] != Hash(tb).Digit(t.key) ==> Insert(tb, t).buckets[k] == tb.buckets[k]
    ensures |Insert(tb, t).buckets| >= |tb.buckets|
  {
    hide Radix.Digit;
    var idx := Hash(tb).Digit(t.key);
    var tb' := Insert(tb, t);
    var curr := tb.buckets[idx];
    assert BucketOk(curr) && NextOk(tb, idx) && OwnerOk(tb, owner, idx) && FullOk(tb, idx);
    owner' := if |tb'.buckets| > |tb.buckets| then owner + [idx] else owner;
    if curr.next != NULL {
      assert BucketOk(tb.buckets[curr.next]) && OwnerOk(tb, owner, curr.next) && FullOk(tb, curr.next);
    }
    forall i | 0 <= i < |tb'.buckets|
      ensures BucketOk(tb'.buckets[i]) && NextOk(tb', i) && OwnerOk(tb', owner', i) && FullOk(tb', i)
    {
      if i < |tb.buckets| { assert BucketOk(tb.buckets[i]) && NextOk(tb, i) && OwnerOk(tb, owner, i) && FullOk(tb, i); }
    }
  }

  lemma InsertChain(tb: Table, owner: seq<nat>, t: Tuple)
    requires WellFormed(tb, owner) && Shaped(Insert(tb, t)) && Insert(tb, t).num == tb.num
    ensures var idx := Hash(tb).Digit(t.key);
            multiset(Chain(Insert(tb, t), idx)) == multiset(Chain(tb, idx)) + multiset{t}
  {
    hide Radix.Digit, Tail, Chain, WellFormed, OwnerOk, FullOk;
    WellFormedShape(tb, owner);
    var idx := Hash(tb).Digit(t.key);
    var tb' := Insert(tb, t);
    var curr := tb.buckets[idx];
    var nxt := curr.next;
    assert BucketOk(curr) && NextOk(tb, idx);
    ChainIs(tb, idx);
    ChainIs(tb', idx);
    if curr.count == BUCKET_SIZE {
      if nxt == NULL || tb.buckets[nxt].count == BUCKET_SIZE {
        TailFrame(tb, tb', nxt);
        TailIs(tb', |tb.buckets|);
        assert Items(tb'.buckets[|tb.buckets|]) == [t];
      } else {
        assert BucketOk(tb.buckets[nxt]) && NextOk(tb, nxt);
        FillItems(tb.buckets[nxt], t);
        TailFrame(tb, tb', tb.buckets[nxt].next);
        TailIs(tb, nxt);
        TailIs(tb', nxt);
      }
    } else {
      FillItems(curr, t);
      TailFrame(tb, tb', nxt);
    }
  }

  lemma ChainIs(tb: Table, h: nat)
    requires Shaped(tb) && h < tb.num
    ensures BucketOk(tb.buckets[h]) && NextOk(tb, h)
    ensures Chain(tb, h) == Items(tb.buckets[h]) + Tail(tb, tb.buckets[h].next)
  {
    assert BucketOk(tb.buckets[h]) && NextOk(tb, h);
  }

  lemma TailIs(tb: Table, i: nat)
    requires Shaped(tb) && tb.num <= i < |tb.buckets|
    ensures BucketOk(tb.buckets[i]) && NextOk(tb, i)
    ensures Tail(tb, i) == Items(tb.buckets[i]) + Tail(tb, tb.buckets[i].next)
  {
    assert BucketOk(tb.buckets[i]) && NextOk(tb, i);
  }

  lemma InsertHolds(tb: Table, arrived: seq<Tuple>, t: Tuple)
    requires Holds(tb, arrived)
    ensures Shaped(tb) && Holds(Insert(tb, t), arrived + [t])
  {
    hide Radix.Digit, Insert, Chain, Tail, WellFormed;
    var owner :| HoldsWith(tb, owner, arrived);
    WellFormedShape(tb, owner);
    var owner' := InsertWellFormed(tb, owner, t);
    WellFormedShape(Insert(tb, t), owner');
    InsertChains(tb, owner, arrived, t);
    assert HoldsWith(Insert(tb, t), owner', arrived + [t]);
  }

  lemma InsertChains(tb: Table, owner: seq<nat>, arrived: seq<Tuple>, t: Tuple)
    requires HoldsWith(tb, owner, arrived)
    requires Shaped(Insert(tb, t)) && Insert(tb, t).num == tb.num && |tb.buckets| <= |Insert(tb, t).buckets|
    requires forall k :: 0 <= k < |tb.buckets| && owner[k] != Hash(tb).Digit(t.key) ==> Insert(tb, t).buckets[k] == tb.buckets[k]
    ensures forall h :: 0 <= h < tb.num ==>
                          multiset(Chain(Insert(tb, t), h)) == multiset(PartOf(arrived + [t], Hash(tb), h))
  {
    hide Radix.Digit, Insert, Chain, Tail, WellFormed;
    WellFormedShape(tb, owner);
    var tb', idx := Insert(tb, t), Hash(tb).Digit(t.key);
    forall h | 0 <= h < tb.num ensures multiset(Chain(tb', h)) == multiset(PartOf(arrived + [t], Hash(tb), h)) {
      PartLast(arrived, t, Hash(tb), h);
      if h == idx {
        InsertChain(tb, owner, t);
      } else {
        OtherChain(tb, tb', owner, idx, h);
        assert PartOf(arrived, Hash(tb), h) + [] == PartOf(arrived, Hash(tb), h);
      }
    }
  }

  lemma WellFormedShape(tb: Table, owner: seq<nat>)
    requires WellFormed(tb, owner)
    ensures Shaped(tb) && |owner| == |tb.buckets|
  {
  }

  lemma OtherChain(tb: Table, tb': Table, owner: seq<nat>, idx: nat, h: nat)
    requires WellFormed(tb, owner) && Shaped(tb') && tb'.num == tb.num && |tb.buckets| <= |tb'.buckets| && h < tb.num && h != idx
    requires forall k :: 0 <= k < |tb.buckets| && owner[k] != idx ==> tb'.buckets[k] == tb.buckets[k]
    ensures Chain(tb', h) == Chain(tb, h)
  {
    assert NextOk(tb, h) && OwnerOk(tb, owner, h);
    TailOther(tb, tb', owner, idx, tb.buckets[h].next);
  }

  lemma AllocateHolds(nbuckets: Pos)
    ensures Holds(Allocate(nbuckets), [])
    ensures var num := Allocate(nbuckets).num; IsPowerOfTwo(num) && nbuckets <= num < 2 * nbuckets
  {
    var tb := Allocate(nbuckets);
    var owner: seq<nat> := seq(tb.num, i => i);
    forall h | 0 <= h < tb.num ensures Chain(tb, h) == [] && PartOf([], Hash(tb), h) == [] {
    }
    assert HoldsWith(tb, owner, []);
  }

  // ---- looking up ----

  // probe_hashtable_single: the bucket's own slots, then the overflow buckets.
  method Probe(tb: Table, ghost arrived: seq<Tuple>, t: Tuple) returns (matches: nat)
    requires Holds(tb, arrived)
    ensures matches == CountKey(arrived, t.key)
  {
    hide Radix.Digit, HoldsWith, CountKey;
    ghost var owner :| HoldsWith(tb, owner, arrived);
    HoldsShape(tb, owner, arrived);
    var b := Hash(tb).Digit(t.key);
    ghost var idx := b;
    matches := ScanBucket(tb.buckets[b], t);
    var next := tb.buckets[b].next;
    assert NextOk(tb, b);
    CountAppend(Items(tb.buckets[b]), Tail(tb, next), t.key);
    while next != NULL
      invariant next == NULL || tb.num <= next < |tb.buckets|
      invariant matches + CountKey(Tail(tb, next), t.key) == CountKey(Chain(tb, idx), t.key)
      decreases next
    {
      assert BucketOk(tb.buckets[next]) && NextOk(tb, next);
      CountAppend(Items(tb.buckets[next]), Tail(tb, tb.buckets[next].next), t.key);
      var found := ScanBucket(tb.buckets[next], t);
      matches := matches + found;
      next := tb.buckets[next].next;
    }
    CountNone(t.key);
    ChainCounts(tb, owner, arrived, t.key);
  }

  lemma CountNone(k: int)
    ensures CountKey([], k) == 0
  {
  }

  lemma HoldsShape(tb: Table, owner: seq<nat>, arrived: seq<Tuple>)
    requires HoldsWith(tb, owner, arrived)
    ensures Shaped(tb)
  {
  }

  lemma ChainCounts(tb: Table, owner: seq<nat>, arrived: seq<Tuple>, k: int)
    requires HoldsWith(tb, owner, arrived)
    ensures Shaped(tb) && CountKey(Chain(tb, Hash(tb).Digit(k)), k) == CountKey(arrived, k)
  {
    hide Radix.Digit, CountKey, Chain, PartOf;
    var idx := Hash(tb).Digit(k);
    CountPermutation(Chain(tb, idx), PartOf(arrived, Hash(tb), idx), k);
    CountInPart(arrived, Hash(tb), idx, k);
  }

  method ScanBucket(b: Bucket, t: Tuple) returns (matches: nat)
    requires BucketOk(b)
    ensures matches == CountKey(Items(b), t.key)
  {
    matches := 0;
    var i := 0;
    while i < b.count
      invariant i <= b.count && matches == CountKey(b.tuples[..i], t.key)
    {
      assert b.tuples[..i + 1][..i] == b.tuples[..i];
      if t.key == b.tuples[i].key { matches := matches + 1; }
      i := i + 1;
    }
  }
}

// The symmetric hash join (hashing/helper/localjoiner.cpp:33-59, 73-94, 113-122): every tuple goes into the table
// of its own relation and then looks up the other one.
module SymmetricHashJoin {
  import opened Joins
  import opened Powers
  import opened HashTables

  class HashTable {
    var table: Table
    ghost var arrived: seq<Tuple>

    ghost predicate Valid()
      reads this
    {
      Holds(table, arrived)
    }

    // allocate_hashtable
    constructor (nbuckets: Pos)
      ensures Valid() && arrived == []
      ensures IsPowerOfTwo(table.num) && nbuckets <= table.num < 2 * nbuckets
    {
      table := Allocate(nbuckets);
      arrived := [];
      new;
      AllocateHolds(nbuckets);
    }

    // build_hashtable_single
    method Build(t: Tuple)
      requires Valid()
      modifies this
      ensures Valid() && arrived == old(arrived) + [t] && table == Insert(old(table), t)
    {
      hide Radix.Digit, HoldsWith;
      InsertHolds(table, arrived, t);
      var idx := Hash(table).Digit(t.key);
      var curr := table.buckets[idx];
      assert BucketOk(curr) && NextOk(table, idx);
      var nxt := curr.next;
      if curr.count == BUCKET_SIZE {
        if nxt == NULL || table.buckets[nxt].count == BUCKET_SIZE {
          table := table.(buckets := table.buckets[idx := curr.(next := |table.buckets|)]);
          table := table.(buckets := table.buckets + [Bucket(1, [t, Tuple(0, 0)], nxt)]);
        } else {
          assert BucketOk(table.buckets[nxt]);
          table := table.(buckets := table.buckets[nxt := Fill(table.buckets[nxt], t)]);
        }
      } else {
        table := table.(buckets := table.buckets[idx := Fill(curr, t)]);
      }
      arrived := arrived + [t];
    }

    // probe_hashtable_single
    method Lookup(t: Tuple) returns (matches: nat)
      requires Valid()
      ensures matches == CountKey(arrived, t.key)
    {
      matches := Probe(table, arrived, t);
    }
  }

  class SHJJoiner {
    const htR: HashTable
    const htS: HashTable
    var matches: nat

    ghost predicate Valid()
      reads this, htR, htS
    {
      htR != htS && htR.Valid() && htS.Valid() && matches == JoinCount(htR.arrived, htS.arrived)
    }

    constructor (sizeR: nat, sizeS: nat)
      requires sizeR >= BUCKET_SIZE && sizeS >= BUCKET_SIZE
      ensures Valid() && fresh(htR) && fresh(htS) && htR.arrived == [] && htS.arrived == []
      // the heads have room for all tuples but less than a bucket, and not for twice as many
      ensures sizeR - BUCKET_SIZE < BUCKET_SIZE * htR.table.num < 2 * sizeR
      ensures sizeS - BUCKET_SIZE < BUCKET_SIZE * htS.table.num < 2 * sizeS
    {
      htR := new HashTable(sizeR / BUCKET_SIZE);
      htS := new HashTable(sizeS / BUCKET_SIZE);
      matches := 0;
    }

    // The matches grow by the tuple's partners among the other relation's tuples so far.
    method Join(t: Tuple, isR: bool)
      requires Valid()
      modifies this, htR, htS
      ensures Valid()
      ensures htR.arrived == old(htR.arrived) + (if isR then [t] else [])
      ensures htS.arrived == old(htS.arrived) + (if isR then [] else [t])
      ensures matches == old(matches) + CountKey(if isR then old(htS.arrived) else old(htR.arrived), t.key)
    {
      hide Holds, JoinCount, CountKey;
      if isR {
        JoinLeft(htR.arrived, htS.arrived, t);
        htR.Build(t);
        var found := htS.Lookup(t);
        matches := matches + found;
      } else {
        JoinAppend(htR.arrived, htS.arrived, [t]);
        JoinOne(htR.arrived, t);
        htS.Build(t);
        var found := htR.Lookup(t);
        matches := matches + found;
      }
    }
  }

  lemma JoinLeft(r: seq<Tuple>, s: seq<Tuple>, t: Tuple)
    ensures JoinCount(r + [t], s) == JoinCount(r, s) + CountKey(s, t.key)
  {
    JoinAppendLeft(r, [t], s);
    CountByOne(s, t);
  }

  // Any interleaving of the arrivals: after each of them the matches are the pairs so far.
  method JoinAll(sizeR: nat, sizeS: nat, arrivals: seq<Arrival>) returns (matches: nat)
    requires sizeR >= BUCKET_SIZE && sizeS >= BUCKET_SIZE
    ensures matches == JoinCount(Side(arrivals, true), Side(arrivals, false))
  {
    var joiner := new SHJJoiner(sizeR, sizeS);
    assert arrivals[..0] == [];
    var i := 0;
    while i < |arrivals|
      invariant i <= |arrivals| && joiner.Valid() && fresh(joiner) && fresh(joiner.htR) && fresh(joiner.htS)
      invariant joiner.htR.arrived == Side(arrivals[..i], true) && joiner.htS.arrived == Side(arrivals[..i], false)
    {
      assert arrivals[..i + 1][..i] == arrivals[..i];
      joiner.Join(arrivals[i].tuple, arrivals[i].isR);
      i := i + 1;
    }
    assert arrivals[..i] == arrivals;
    return joiner.matches;
  }

  // shj: the relations in turn, tuple by tuple, until both are used up.
  method JoinRelations(R: seq<Tuple>, S: seq<Tuple>) returns (matches: nat)
    requires |R| >= BUCKET_SIZE && |S| >= BUCKET_SIZE
    ensures matches == JoinCount(R, S)
  {
    hide JoinCount, Holds;
    var joiner := new SHJJoiner(|R|, |S|);
    var i, j := 0, 0;
    while true
      invariant i <= |R| && j <= |S| && joiner.Valid() && fresh(joiner) && fresh(joiner.htR) && fresh(joiner.htS)
      invariant joiner.htR.arrived == R[..i] && joiner.htS.arrived == S[..j]
      decreases |R| + |S| - i - j
    {
      if i < |R| {
        assert R[..i + 1] == R[..i] + [R[i]];
        joiner.Join(R[i], true);
        i := i + 1;
      }
      if j < |S| {
        assert S[..j + 1] == S[..j] + [S[j]];
        joiner.Join(S[j], false);
        j := j + 1;
      }
      if i >= |R| && j >= |S| {
        assert joiner.htR.arrived == R && joiner.htS.arrived == S;
        return joiner.matches;
      }
    }
  }
}

// RJ_st (hashing/joins/parallel_radix_join.cpp:1719-1844): two stable clustering passes, the second one back
// into the input, then a walk over the clusters of both relations.
module SingleRadixJoin {
  import opened Joins
  import opened Clusters
  import BucketChaining

  // ---- two stable passes order by both digits ----

  // The parts of the n classes from `first` on, one behind the other.
  function PartsFrom(s: seq<Tuple>, z: Radix, first: nat, n: nat): seq<Tuple> {
    if n == 0 then [] else PartsFrom(s, z, first, n - 1) + PartOf(s, z, first + n - 1)
  }

  lemma {:induction false} PartsExtend(s: seq<Tuple>, z: Radix, first: nat, n: nat)
    ensures Parts(s, z, first + n) == Parts(s, z, first) + PartsFrom(s, z, first, n)
    decreases n
  {
    hide PartOf, Radix.Digit;
    if n > 0 {
      PartsExtend(s, z, first, n - 1);
      var a, b, c := Parts(s, z, first), PartsFrom(s, z, first, n - 1), PartOf(s, z, first + n - 1);
      assert (a + b) + c == a + (b + c);
    } else {
      assert Parts(s, z, first) + [] == Parts(s, z, first);
    }
  }

  lemma {:induction false} SecondPass(s: seq<Tuple>, j: nat, n: nat)
    requires j < 16 && n <= 16
    ensures PartOf(Parts(s, PASS1, n), PASS2, j) == PartsFrom(s, BOTH, 16 * j, n)
    decreases n
  {
    hide PartOf, Radix.Digit;
    if n == 0 {
      PartOfNone(PASS2, j);
    } else {
      SecondPass(s, j, n - 1);
      PartAppend(Parts(s, PASS1, n - 1), PartOf(s, PASS1, n - 1), PASS2, j);
      PartOfPart(s, n - 1, j);
    }
  }

  lemma PartOfNone(z: Radix, c: nat)
    ensures PartOf([], z, c) == []
  {
  }

  lemma {:induction false} TwoPasses(s: seq<Tuple>, j: nat)
    requires j <= 16
    ensures Parts(Parts(s, PASS1, 16), PASS2, j) == Parts(s, BOTH, 16 * j)
    decreases j
  {
    hide PartOf, Radix.Digit;
    if j > 0 {
      TwoPasses(s, j - 1);
      SecondPass(s, j - 1, 16);
      PartsExtend(s, BOTH, 16 * (j - 1), 16);
    }
  }

  // Clustering again finds the same clusters.
  lemma {:induction false} PartTwice(s: seq<Tuple>, z: Radix, c: nat, d: nat)
    ensures PartOf(PartOf(s, z, c), z, d) == if c == d then PartOf(s, z, c) else []
    decreases |s|
  {
    if |s| > 0 {
      var s', t := s[..|s| - 1], s[|s| - 1];
      PartTwice(s', z, c, d);
      PartLast(PartOf(s', z, c), t, z, d);
      assert PartOf(s', z, c) + [] == PartOf(s', z, c);
    }
  }

  lemma {:induction false} PartOfParts(s: seq<Tuple>, z: Radix, n: nat, d: nat)
    ensures PartOf(Parts(s, z, n), z, d) == if d < n then PartOf(s, z, d) else []
    decreases n
  {
    hide PartOf, Radix.Digit;
    if n == 0 {
      PartOfNone(z, d);
    } else {
      PartOfParts(s, z, n - 1, d);
      PartAppend(Parts(s, z, n - 1), PartOf(s, z, n - 1), z, d);
      PartTwice(s, z, n - 1, d);
    }
  }

  // Keys in the low eight bits ascend.
  ghost predicate OrderedByDigits(s: seq<Tuple>) {
    forall i, j :: 0 <= i < j < |s| ==> BOTH.Digit(s[i].key) <= BOTH.Digit(s[j].key)
  }

  lemma {:induction false} PartsOrdered(s: seq<Tuple>, n: nat)
    ensures OrderedByDigits(Parts(s, BOTH, n))
    ensures forall i :: 0 <= i < |Parts(s, BOTH, n)| ==> BOTH.Digit(Parts(s, BOTH, n)[i].key) < n
    decreases n
  {
    if n > 0 {
      PartsOrdered(s, n - 1);
      PartClass(s, BOTH, n - 1);
    }
  }

  // ---- the passes ----

  const PADDING: nat := 16 * 408

  method TwoPassCluster(rel: array<Tuple>, n: nat)
    requires n <= rel.Length
    modifies rel
    ensures rel[..n] == Parts(old(rel[..n]), BOTH, 256)
    ensures rel[n..] == old(rel[n..])
  {
    hide PartOf, Radix.Digit, Parts, AllPlaced, Placed;
    ghost var s := rel[..n];
    var out := new Tuple[n + PADDING](_ => Tuple(0, 0));
    var hist := new nat[16](_ => 0);
    RadixCluster(rel[..n], PASS1, 0, out, 0, hist);
    ClusteredWhole(out[..], s, PASS1);
    var mid := out[..n];
    var hist2 := new nat[16](_ => 0);
    RadixCluster(mid, PASS2, 0, rel, 0, hist2);
    ClusteredWhole(rel[..], mid, PASS2);
    TwoPasses(s, 16);
    assert rel[n..] == old(rel[n..]);
  }

  lemma ClusteredWhole(out: seq<Tuple>, rel: seq<Tuple>, z: Radix)
    requires AllPlaced(out, rel, z, 0, 0, |rel|)
    ensures |rel| <= |out| && out[..|rel|] == Parts(rel, z, z.fan) && |Parts(rel, z, z.fan)| == |rel|
  {
    hide PartOf, Radix.Digit, AllPlaced;
    Adjoining(out, rel, z, 0, z.fan);
    PartsKeep(rel, z);
    assert |multiset(Parts(rel, z, z.fan))| == |multiset(rel)|;
  }

  // ---- the walk over the clusters ----

  // Both relations clustered: the part of class i starts behind the parts before it.
  lemma ClusterAt(rel: seq<Tuple>, s: seq<Tuple>, i: nat, n: nat)
    requires rel == Parts(s, BOTH, 256) && i < 256 && n == |PartOf(rel, BOTH, i)|
    ensures |Parts(s, BOTH, i)| + n == |Parts(s, BOTH, i + 1)| <= |rel|
    ensures rel[|Parts(s, BOTH, i)|..|Parts(s, BOTH, i)| + n] == PartOf(s, BOTH, i) && n == |PartOf(s, BOTH, i)|
  {
    hide PartOf, Radix.Digit;
    PartOfParts(s, BOTH, 256, i);
    PartsExtend(s, BOTH, i + 1, 256 - (i + 1));
  }

  lemma JoinEmpty(r: seq<Tuple>, s: seq<Tuple>)
    requires |r| == 0 || |s| == 0
    ensures JoinCount(r, s) == 0
  {
    if |r| == 0 { JoinNone(s); }
  }

  method RadixJoin(relR: array<Tuple>, numR: nat, relS: array<Tuple>, numS: nat) returns (result: nat)
    requires numR <= relR.Length && numS <= relS.Length && relR != relS
    modifies relR, relS
    ensures result == JoinCount(old(relR[..numR]), old(relS[..numS]))
    ensures multiset(relR[..numR]) == multiset(old(relR[..numR])) && OrderedByDigits(relR[..numR])
    ensures multiset(relS[..numS]) == multiset(old(relS[..numS])) && OrderedByDigits(relS[..numS])
  {
    hide PartOf, Radix.Digit, Parts, Counted, OrderedByDigits;
    ghost var R0, S0 := relR[..numR], relS[..numS];
    TwoPassCluster(relR, numR);
    TwoPassCluster(relS, numS);
    assert relR[..numR] == Parts(R0, BOTH, 256);
    var countR := new nat[256](_ => 0);
    var countS := new nat[256](_ => 0);
    CountClasses(relR[..numR], BOTH, countR);
    CountClasses(relS[..numS], BOTH, countS);
    result := WalkClusters(relR[..numR], relS[..numS], countR[..], countS[..], R0, S0);
    PartsKeep(R0, BOTH);
    PartsKeep(S0, BOTH);
    PartsOrdered(R0, 256);
    PartsOrdered(S0, 256);
  }

  lemma CountedAt(hist: seq<nat>, rel: seq<Tuple>, z: Radix, c: nat)
    requires Counted(hist, rel, z) && c < z.fan
    ensures |hist| == z.fan && hist[c] == |PartOf(rel, z, c)|
  {
  }

  method WalkClusters(relR: seq<Tuple>, relS: seq<Tuple>, countR: seq<nat>, countS: seq<nat>,
                      ghost R0: seq<Tuple>, ghost S0: seq<Tuple>) returns (result: nat)
    requires relR == Parts(R0, BOTH, 256) && relS == Parts(S0, BOTH, 256)
    requires Counted(countR, relR, BOTH) && Counted(countS, relS, BOTH)
    ensures result == JoinCount(R0, S0)
  {
    hide PartOf, Radix.Digit, Counted, JoinCount;
    result := 0;
    var r, s, i := 0, 0, 0;
    while i < 256
      invariant i <= 256 && r == |Parts(R0, BOTH, i)| && s == |Parts(S0, BOTH, i)|
      invariant result == JoinOfParts(R0, S0, BOTH, i)
    {
      CountedAt(countR, relR, BOTH, i);
      CountedAt(countS, relS, BOTH, i);
      ClusterAt(relR, R0, i, countR[i]);
      ClusterAt(relS, S0, i, countS[i]);
      if countR[i] > 0 && countS[i] > 0 {
        var found := BucketChaining.BucketChainingJoin(relR[r..r + countR[i]], relS[s..s + countS[i]]);
        result := result + found;
      } else {
        JoinEmpty(PartOf(R0, BOTH, i), PartOf(S0, BOTH, i));
      }
      r := r + countR[i];
      s := s + countS[i];
      i := i + 1;
    }
    JoinSplits(R0, S0, BOTH);
  }
}

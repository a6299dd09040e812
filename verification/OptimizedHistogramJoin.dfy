// histogram_optimized_join (hashing/joins/parallel_radix_join.cpp:451-555): histogram_join with a probe that
// compares two tuples at once.  A tuple is stored payload first (hashing/utils/types.h:67-71), so of the four
// 32-bit lanes of two tuples, lanes 0 and 2, which line 548 adds up, hold the payloads and not the keys.
module OptimizedHistogramJoin {
  import opened Joins
  import opened Clusters
  import HistogramJoin

  const PROBE_BUFFER_SIZE: nat := 4

  function CountPayload(s: seq<Tuple>, k: int): nat {
    if |s| == 0 then 0 else CountPayload(s[..|s| - 1], k) + if s[|s| - 1].payloadID == k then 1 else 0
  }

  // Bucket c of the reordered relation, with the tuple behind it when the bucket's size is odd.
  function Probed(r: seq<Tuple>, z: Radix, beyond: Tuple, c: nat): seq<Tuple>
    requires c < z.fan
  {
    var all := Parts(r, z, z.fan) + [beyond];
    var start, size := |Parts(r, z, c)|, |PartOf(r, z, c)|;
    BucketInside(r, z, c);
    all[start..start + size + size % 2]
  }

  lemma {:induction false} PartsAscend(r: seq<Tuple>, z: Radix, c: nat, d: nat)
    requires c <= d
    ensures |Parts(r, z, c)| <= |Parts(r, z, d)| && Parts(r, z, d)[..|Parts(r, z, c)|] == Parts(r, z, c)
    decreases d
  {
    hide PartOf, Radix.Digit;
    if c < d { PartsAscend(r, z, c, d - 1); }
  }

  lemma BucketInside(r: seq<Tuple>, z: Radix, c: nat)
    requires c < z.fan
    ensures |Parts(r, z, c)| + |PartOf(r, z, c)| == |Parts(r, z, c + 1)| <= |Parts(r, z, z.fan)|
    ensures Parts(r, z, z.fan)[|Parts(r, z, c)|..|Parts(r, z, c + 1)|] == PartOf(r, z, c)
  {
    hide PartOf, Radix.Digit;
    PartsAscend(r, z, c + 1, z.fan);
  }

  // What one tuple of S with key k adds.
  function Hits(r: seq<Tuple>, beyond: Tuple, k: int): nat {
    var z := HistogramJoin.HistBuckets(|r|);
    CountPayload(Probed(r, z, beyond, z.Digit(k)), k)
  }

  function AllHits(r: seq<Tuple>, beyond: Tuple, s: seq<Tuple>): nat {
    if |s| == 0 then 0 else AllHits(r, beyond, s[..|s| - 1]) + Hits(r, beyond, s[|s| - 1].key)
  }

  // ---- the probe ----

  // _mm_cmpeq_epi32 and the subtraction of its result, for the two lanes line 548 extracts.
  function Lane(x: int, k: int): nat { if x == k then 1 else 0 }

  lemma TwoMore(s: seq<Tuple>, n: nat, k: int)
    requires n + 2 <= |s|
    ensures CountPayload(s[..n + 2], k) == CountPayload(s[..n], k) + Lane(s[n].payloadID, k) + Lane(s[n + 1].payloadID, k)
  {
    assert s[..n + 2][..n + 1] == s[..n + 1] && s[..n + 1][..n] == s[..n];
  }

  // The relation is reordered, and the array holds the buckets' bounds.
  ghost predicate Ready(r: seq<Tuple>, z: Radix, hist: seq<nat>, tmp: seq<Tuple>) {
    && |hist| == z.fan + 2 && |r| < |tmp| && tmp[..|r|] == Parts(r, z, z.fan)
    && forall c :: 0 <= c <= z.fan ==> hist[c] == Start(r, z, 0, c)
  }

  // The pairs scanned for class c.
  lemma SeenInMemory(r: seq<Tuple>, z: Radix, hist: seq<nat>, tmp: seq<Tuple>, c: nat)
    requires Ready(r, z, hist, tmp) && c < z.fan
    ensures var seen := Probed(r, z, tmp[|r|], c);
            && |hist| == z.fan + 2 && |seen| % 2 == 0 && hist[c] + |seen| <= |tmp|
            && hist[c + 1] <= hist[c] + |seen| <= hist[c + 1] + 1
            && tmp[hist[c]..hist[c] + |seen|] == seen
  {
    hide PartOf, Radix.Digit, Parts, Start;
    BucketBounds(r, z, c);
    assert tmp[..|r| + 1] == Parts(r, z, z.fan) + [tmp[|r|]];
    var seen := Probed(r, z, tmp[|r|], c);
    SliceOfPrefix(tmp, |r| + 1, hist[c], hist[c] + |seen|);
  }

  lemma SliceOfPrefix(s: seq<Tuple>, n: nat, a: nat, b: nat)
    requires a <= b <= n <= |s|
    ensures s[a..b] == s[..n][a..b]
  {
  }

  // Buckets two tuples at a time, from the start of bucket idx until its end is reached or passed.
  method ScanPairs(r: seq<Tuple>, z: Radix, hist: array<nat>, tmpR: array<Tuple>, k: int) returns (hits: nat)
    requires z == HistogramJoin.HistBuckets(|r|) && |r| < tmpR.Length && Ready(r, z, hist[..], tmpR[..])
    ensures hits == Hits(r, tmpR[|r|], k)
  {
    hide Radix.Digit, Ready, Probed, CountPayload;
    var idx := z.Digit(k);
    ghost var seen := Probed(r, z, tmpR[|r|], idx);
    SeenInMemory(r, z, hist[..], tmpR[..], idx);
    var j, end := hist[idx], hist[idx + 1];
    ghost var start := j;
    hits := 0;
    CountPayloadNone(k);
    while j < end
      invariant start <= j <= start + |seen| && (j - start) % 2 == 0
      invariant hits == CountPayload(seen[..j - start], k)
    {
      assert tmpR[..][start..start + |seen|] == seen;
      assert seen[j - start] == tmpR[j] && seen[j + 1 - start] == tmpR[j + 1];
      TwoMore(seen, j - start, k);
      hits := hits + Lane(tmpR[j].payloadID, k) + Lane(tmpR[j + 1].payloadID, k);
      j := j + 2;
    }
    assert seen[..|seen|] == seen;
  }

  lemma CountPayloadNone(k: int)
    ensures CountPayload([], k) == 0
  {
  }

  lemma BucketBounds(r: seq<Tuple>, z: Radix, c: nat)
    requires c < z.fan
    ensures Start(r, z, 0, c) == |Parts(r, z, c)| && Start(r, z, 0, c + 1) == |Parts(r, z, c)| + |PartOf(r, z, c)| <= |r|
    ensures |Parts(r, z, z.fan)| == |r|
  {
    hide PartOf, Radix.Digit, Parts, Start;
    StartIs(r, z, 0, c);
    StartIs(r, z, 0, c + 1);
    assert c * 0 == 0 && (c + 1) * 0 == 0;
    BucketInside(r, z, c);
    PartsKeep(r, z);
    assert |multiset(Parts(r, z, z.fan))| == |multiset(r)|;
  }

  // The clearing loop counts an unsigned word down to numR, so it ends only when numR is not 0; it clears the
  // key of the one tuple behind the relation.
  method HistogramOptimizedJoin(r: seq<Tuple>, s: seq<Tuple>, tmpR: array<Tuple>) returns (matches: nat)
    requires 0 < |r| < tmpR.Length
    modifies tmpR
    ensures tmpR[|r|] == Tuple(0, old(tmpR[|r|]).payloadID) && tmpR[|r| + 1..] == old(tmpR[|r| + 1..])
    ensures matches == AllHits(r, tmpR[|r|], s)
  {
    hide PartOf, Radix.Digit, Parts, Start, AllPlaced, Hits;
    var z := HistogramJoin.HistBuckets(|r|);
    ghost var last, rest := tmpR[|r|], tmpR[|r| + 1..];
    var hist := new nat[z.fan + 2](_ => 0);
    HistogramJoin.CountShifted(r, z, hist);
    HistogramJoin.PrefixSums(r, z, hist);
    HistogramJoin.Reorder(r, z, hist, tmpR);
    Adjoining(tmpR[..], r, z, 0, z.fan);
    BucketBounds(r, z, 0);
    assert tmpR[|r|..][0] == last && tmpR[|r| + 1..] == tmpR[|r|..][1..];
    var i := |r| + 3;
    while i >= |r|
      invariant tmpR[..][..|r|] == Parts(r, z, z.fan)
      invariant tmpR[|r| + 1..] == rest
      invariant tmpR[|r|].payloadID == last.payloadID && (i < |r| + 3 ==> tmpR[|r|].key == 0)
      invariant forall c :: 0 <= c <= z.fan ==> hist[c] == Start(r, z, 0, c)
    {
      tmpR[|r|] := tmpR[|r|].(key := 0);
      i := i - 1;
    }
    matches := ProbeAll(r, z, hist, tmpR, s);
  }

  // The probe: S in buffers of four, then the rest.
  method ProbeAll(r: seq<Tuple>, z: Radix, hist: array<nat>, tmpR: array<Tuple>, s: seq<Tuple>) returns (matches: nat)
    requires z == HistogramJoin.HistBuckets(|r|) && |r| < tmpR.Length && Ready(r, z, hist[..], tmpR[..])
    ensures matches == AllHits(r, tmpR[|r|], s)
  {
    hide Ready, Hits;
    matches := 0;
    var i := 0;
    while i < |s| / PROBE_BUFFER_SIZE
      invariant i <= |s| / PROBE_BUFFER_SIZE && matches == AllHits(r, tmpR[|r|], s[..4 * i])
    {
      var k := 0;
      while k < PROBE_BUFFER_SIZE
        invariant k <= PROBE_BUFFER_SIZE && matches == AllHits(r, tmpR[|r|], s[..4 * i + k])
      {
        var hits := ScanPairs(r, z, hist, tmpR, s[4 * i + k].key);
        assert s[..4 * i + k + 1][..4 * i + k] == s[..4 * i + k];
        matches := matches + hits;
        k := k + 1;
      }
      i := i + 1;
    }
    i := |s| - |s| % PROBE_BUFFER_SIZE;
    while i < |s|
      invariant i <= |s| && matches == AllHits(r, tmpR[|r|], s[..i])
    {
      var hits := ScanPairs(r, z, hist, tmpR, s[i].key);
      assert s[..i + 1][..i] == s[..i];
      matches := matches + hits;
      i := i + 1;
    }
    assert s[..i] == s;
  }

  // ---- when it counts the join ----

  lemma {:induction false} HitsAreCounts(r: seq<Tuple>, beyond: Tuple, s: seq<Tuple>)
    requires forall i :: 0 <= i < |s| ==> Hits(r, beyond, s[i].key) == CountKey(r, s[i].key)
    ensures AllHits(r, beyond, s) == JoinCount(r, s)
    decreases |s|
  {
    hide Hits, CountKey;
    if |s| > 0 { HitsAreCounts(r, beyond, s[..|s| - 1]); }
  }

  ghost predicate RightForAll(r: seq<Tuple>, beyond: Tuple) { forall s :: AllHits(r, beyond, s) == JoinCount(r, s) }

  // The payloads of class c, and the keys.
  function Payloads(s: seq<Tuple>, z: Radix, c: nat): multiset<int> {
    if |s| == 0 then multiset{}
    else
      var p := s[|s| - 1].payloadID;
      Payloads(s[..|s| - 1], z, c) + if z.Digit(p) == c then multiset{p} else multiset{}
  }

  function Keys(s: seq<Tuple>): multiset<int> {
    if |s| == 0 then multiset{} else Keys(s[..|s| - 1]) + multiset{s[|s| - 1].key}
  }

  lemma {:induction false} PayloadsCount(s: seq<Tuple>, z: Radix, c: nat, k: int)
    ensures Payloads(s, z, c)[k] == if z.Digit(k) == c then CountPayload(s, k) else 0
    decreases |s|
  {
    hide Radix.Digit;
    if |s| > 0 { PayloadsCount(s[..|s| - 1], z, c, k); }
  }

  lemma {:induction false} KeysCount(s: seq<Tuple>, k: int)
    ensures Keys(s)[k] == CountKey(s, k)
    decreases |s|
  {
    if |s| > 0 { KeysCount(s[..|s| - 1], k); }
  }

  // Bucket by bucket, the payloads found in the scanned pairs that fall into the bucket's class are, as often as
  // they occur, the bucket's keys.
  ghost predicate PayloadsStandForKeys(r: seq<Tuple>, beyond: Tuple) {
    var z := HistogramJoin.HistBuckets(|r|);
    forall c: nat :: c < z.fan ==> Payloads(Probed(r, z, beyond, c), z, c) == Keys(PartOf(r, z, c))
  }

  lemma BucketRight(r: seq<Tuple>, beyond: Tuple, k: int)
    ensures var z := HistogramJoin.HistBuckets(|r|);
            var c := z.Digit(k);
            Hits(r, beyond, k) == CountKey(r, k) <==>
            Payloads(Probed(r, z, beyond, c), z, c)[k] == Keys(PartOf(r, z, c))[k]
  {
    hide Radix.Digit, PartOf, Payloads, Keys, CountPayload, CountKey, Probed;
    var z := HistogramJoin.HistBuckets(|r|);
    var c := z.Digit(k);
    PayloadsCount(Probed(r, z, beyond, c), z, c, k);
    KeysCount(PartOf(r, z, c), k);
    CountInPart(r, z, c, k);
  }

  // A key of another class is neither among the payloads of the class nor among its keys.
  lemma OtherClass(r: seq<Tuple>, beyond: Tuple, z: Radix, c: nat, k: int)
    requires c < z.fan && z.Digit(k) != c
    ensures Payloads(Probed(r, z, beyond, c), z, c)[k] == Keys(PartOf(r, z, c))[k] == 0
  {
    hide Radix.Digit, PartOf, Payloads, Keys, CountPayload, CountKey, Probed;
    PayloadsCount(Probed(r, z, beyond, c), z, c, k);
    KeysCount(PartOf(r, z, c), k);
    CountInPart(r, z, c, k);
  }

  lemma OneProbe(r: seq<Tuple>, beyond: Tuple, k: int)
    ensures AllHits(r, beyond, [Tuple(k, 0)]) == Hits(r, beyond, k) && JoinCount(r, [Tuple(k, 0)]) == CountKey(r, k)
  {
    hide Hits;
    assert [Tuple(k, 0)][..0] == [] && AllHits(r, beyond, [Tuple(k, 0)][..0]) == 0;
    JoinOne(r, Tuple(k, 0));
  }

  // The result is the join of r with every relation exactly if, in every bucket, the payloads can stand for the
  // keys: a check of r and of the tuple behind it.
  lemma RightExactly(r: seq<Tuple>, beyond: Tuple)
    ensures RightForAll(r, beyond) <==> PayloadsStandForKeys(r, beyond)
  {
    hide Hits, AllHits, JoinCount, CountKey, Probed, PartOf, Payloads, Keys, Radix.Digit;
    var z := HistogramJoin.HistBuckets(|r|);
    if PayloadsStandForKeys(r, beyond) {
      forall k ensures Hits(r, beyond, k) == CountKey(r, k) {
        BucketRight(r, beyond, k);
        assert Payloads(Probed(r, z, beyond, z.Digit(k)), z, z.Digit(k)) == Keys(PartOf(r, z, z.Digit(k)));
      }
      forall s ensures AllHits(r, beyond, s) == JoinCount(r, s) {
        HitsAreCounts(r, beyond, s);
      }
    }
    if RightForAll(r, beyond) {
      forall c: nat | c < z.fan ensures Payloads(Probed(r, z, beyond, c), z, c) == Keys(PartOf(r, z, c)) {
        forall k ensures Payloads(Probed(r, z, beyond, c), z, c)[k] == Keys(PartOf(r, z, c))[k] {
          OneProbe(r, beyond, k);
          if z.Digit(k) == c { BucketRight(r, beyond, k); } else { OtherClass(r, beyond, z, c, k); }
        }
      }
    }
  }

  lemma {:induction false} PayloadsAreKeys(s: seq<Tuple>, k: int)
    requires forall i :: 0 <= i < |s| ==> s[i].payloadID == s[i].key
    ensures CountPayload(s, k) == CountKey(s, k)
    decreases |s|
  {
    if |s| > 0 { PayloadsAreKeys(s[..|s| - 1], k); }
  }

  // With payloads equal to the keys the probe is right for every key but the payload found behind the
  // relation: the tuple behind an odd bucket belongs to a later bucket, so its key is another one.
  lemma OvershootIsHarmless(r: seq<Tuple>, beyond: Tuple, k: int)
    requires forall i :: 0 <= i < |r| ==> r[i].payloadID == r[i].key
    requires beyond.payloadID != k
    ensures Hits(r, beyond, k) == CountKey(r, k)
  {
    hide PartOf, Radix.Digit, Parts;
    var z := HistogramJoin.HistBuckets(|r|);
    var c := z.Digit(k);
    var part, seen := PartOf(r, z, c), Probed(r, z, beyond, c);
    BucketInside(r, z, c);
    PartKeys(r, z, c);
    PayloadsAreKeys(part, k);
    CountInPart(r, z, c, k);
    if |part| % 2 == 1 {
      var x := seen[|part|];
      assert seen == part + [x] && seen[..|part|] == part;
      BehindBucket(r, z, beyond, c, k);
    } else {
      assert seen == part;
    }
  }

  lemma {:induction false} PartKeys(r: seq<Tuple>, z: Radix, c: nat)
    requires forall i :: 0 <= i < |r| ==> r[i].payloadID == r[i].key
    ensures forall i :: 0 <= i < |PartOf(r, z, c)| ==> PartOf(r, z, c)[i].payloadID == PartOf(r, z, c)[i].key
    decreases |r|
  {
    if |r| > 0 { PartKeys(r[..|r| - 1], z, c); }
  }

  lemma {:induction false} PartsFromLater(r: seq<Tuple>, z: Radix, c: nat, n: nat, i: nat)
    requires |Parts(r, z, c)| <= i < |Parts(r, z, n)|
    ensures z.Digit(Parts(r, z, n)[i].key) >= c
    ensures Parts(r, z, n)[i] in r
    decreases n
  {
    hide Radix.Digit;
    if i < |Parts(r, z, n - 1)| {
      PartsFromLater(r, z, c, n - 1, i);
    } else {
      if n - 1 < c { PartsAscend(r, z, n, c); }
      PartClass(r, z, n - 1);
      PartIn(r, z, n - 1, i - |Parts(r, z, n - 1)|);
    }
  }

  lemma {:induction false} PartIn(r: seq<Tuple>, z: Radix, c: nat, i: nat)
    requires i < |PartOf(r, z, c)|
    ensures PartOf(r, z, c)[i] in r
    decreases |r|
  {
    if i < |PartOf(r[..|r| - 1], z, c)| { PartIn(r[..|r| - 1], z, c, i); }
  }

  lemma BehindBucket(r: seq<Tuple>, z: Radix, beyond: Tuple, c: nat, k: int)
    requires c < z.fan && z.Digit(k) == c && |PartOf(r, z, c)| % 2 == 1 && beyond.payloadID != k
    requires forall i :: 0 <= i < |r| ==> r[i].payloadID == r[i].key
    ensures |Probed(r, z, beyond, c)| > |PartOf(r, z, c)| && Probed(r, z, beyond, c)[|PartOf(r, z, c)|].payloadID != k
  {
    hide PartOf, Radix.Digit, Parts;
    BucketInside(r, z, c);
    var at := |Parts(r, z, c + 1)|;
    if at < |Parts(r, z, z.fan)| {
      PartsFromLater(r, z, c + 1, z.fan, at);
    }
  }

  // With other payloads matches are lost: two tuples with the key looked for, and no hit.
  lemma MatchesLost(beyond: Tuple)
    ensures var r, s := [Tuple(1, 0), Tuple(1, 0)], [Tuple(1, 0)];
            JoinCount(r, s) == 2 && AllHits(r, beyond, s) == 0
  {
    var t, r, s := Tuple(1, 0), [Tuple(1, 0), Tuple(1, 0)], [Tuple(1, 0)];
    assert r[..1] == [t] && [t][..0] == [] && s[..0] == [];
    assert CountKey([t], 1) == 1 && CountKey(r, 1) == 2;
    JoinOne(r, t);
    var z := HistogramJoin.HistBuckets(|r|);
    assert PartOf([t], z, z.Digit(1)) == [t] && PartOf(r, z, z.Digit(1)) == r;
    BucketInside(r, z, z.Digit(1));
    assert Probed(r, z, beyond, z.Digit(1)) == r;
    assert CountPayload([t], 1) == 0 && CountPayload(r, 1) == 0;
    assert AllHits(r, beyond, s[..0]) == 0;
  }
}

// The parallel radix join (hashing/joins/parallel_radix_join.cpp:688-729, 1074-1223, 1409-1417, 1503-1650):
// the first pass is ParallelPartition; here are the partition tasks the first thread makes from it, the second pass, in
// which every task clusters one partition back into the input's memory, and the join of the clusters.
//
// A task is partitioned in one step, and joined in one step: RegionsApart and ClustersApart say why no other
// thread's writes can show in between.
module ParallelRadixJoin {
  import opened Joins
  import opened Clusters
  import opened Slicing
  import Chaining = BucketChaining
  import HistogramJoin
  import OptimizedHistogramJoin
  import ParallelPartition

  const SMALL_PADDING_TUPLES: nat := 24
  const PADDING_TUPLES: nat := 408
  const NUMA_REGIONS: nat := 4

  // The slices given to the threads are the relation.
  lemma SlicesTile(rel: seq<Tuple>, nthreads: nat, pad: nat)
    requires nthreads > 0
    ensures ParallelPartition.Whole(ParallelPartition.Job(Slices(rel, nthreads), PASS1, pad)) == rel
  {
    hide Slices;
    SlicesJoin(rel, nthreads);
  }

  // ---- partition and join tasks ----

  // join_function: bucket_chaining_join, histogram_join or histogram_optimized_join
  datatype Algorithm = BucketChaining | Histogram | HistogramSimd

  // What the first pass leaves: the relations' tuples, the partitioned copies and their bounds, and the node
  // the memory of each partition is on.
  datatype Env = Env(R: seq<Tuple>, S: seq<Tuple>, tmpR: seq<Tuple>, tmpS: seq<Tuple>, outputR: seq<nat>, outputS: seq<nat>,
                     node: seq<nat>, nthreads: nat, algorithm: Algorithm)

  ghost predicate Bounds(rel: seq<Tuple>, tmp: seq<Tuple>, output: seq<nat>) {
    && |output| == 17 && (forall i :: 0 <= i <= 16 ==> output[i] == Start(rel, PASS1, PADDING_TUPLES, i))
    && (forall i :: 0 <= i < 16 ==>
          && output[i + 1] - output[i] - PADDING_TUPLES == |PartOf(rel, PASS1, i)|
          && Placed(tmp, PartOf(rel, PASS1, i), output[i]))
  }

  predicate Shaped(e: Env) { |e.outputR| == 17 && |e.outputS| == 17 && |e.node| == 16 && e.nthreads > 0 }

  ghost predicate EnvOk(e: Env) {
    && Shaped(e) && Bounds(e.R, e.tmpR, e.outputR) && Bounds(e.S, e.tmpS, e.outputS)
    && |e.tmpR| >= |e.R| + 16 * PADDING_TUPLES
    && forall i :: 0 <= i < 16 ==> e.node[i] < NUMA_REGIONS
  }

  // The first pass provides the bounds.
  lemma FirstPassGivesBounds(rel: seq<Tuple>, nthreads: nat, tmp: seq<Tuple>, output: seq<nat>)
    requires nthreads > 0
    requires ParallelPartition.Partitioned(ParallelPartition.Job(Slices(rel, nthreads), PASS1, PADDING_TUPLES), tmp, output)
    ensures Bounds(rel, tmp, output)
  {
    hide Start, PartOf, Placed;
    SlicesTile(rel, nthreads, PADDING_TUPLES);
  }

  // The node of thread t.
  function ThreadNode(t: nat): nat { if t < 64 then t % 4 else 0 }

  // The threads of each node.
  const NUMA: seq<seq<nat>> := [
    [0, 4, 8, 12, 16, 20, 24, 28, 32, 36, 40, 44, 48, 52, 56, 60],
    [1, 5, 9, 13, 17, 21, 25, 29, 33, 37, 41, 45, 49, 53, 57, 61],
    [2, 6, 10, 14, 18, 22, 26, 30, 34, 38, 42, 46, 50, 54, 58, 62],
    [3, 7, 11, 15, 19, 23, 27, 31, 35, 39, 43, 47, 51, 55, 59, 63]]

  lemma NumaAt(i: nat, j: nat)
    requires i < 4 && j < 16
    ensures |NUMA| == 4 && |NUMA[i]| == 16 && NUMA[i][j] == 4 * j + i
  {
  }

  // get_numa_id
  method GetNumaId(tid: nat) returns (ret: nat)
    ensures ret == ThreadNode(tid)
  {
    hide NUMA;
    ret := 0;
    for i := 0 to 4
      invariant ret == if tid < 64 && tid % 4 < i then tid % 4 else 0
    {
      NumaAt(i, 0);
      for j := 0 to 16
        invariant ret == (if tid < 64 && tid % 4 < i then tid % 4 else 0) && !(tid % 4 == i && tid < 4 * j)
      {
        NumaAt(i, j);
        if NUMA[i][j] == tid {
          ret := i;
          break;
        }
      }
    }
  }

  // Partition i of a relation, as its partition task describes it.
  function TaskTuples(tmp: seq<Tuple>, output: seq<nat>, i: nat): seq<Tuple>
    requires i + 1 < |output| && output[i] + PADDING_TUPLES <= output[i + 1] && output[i + 1] - PADDING_TUPLES <= |tmp|
  {
    tmp[output[i]..output[i + 1] - PADDING_TUPLES]
  }

  lemma TaskIsPart(rel: seq<Tuple>, tmp: seq<Tuple>, output: seq<nat>, i: nat)
    requires Bounds(rel, tmp, output) && i < 16
    ensures output[i] + PADDING_TUPLES <= output[i + 1] && output[i + 1] - PADDING_TUPLES <= |tmp|
    ensures TaskTuples(tmp, output, i) == PartOf(rel, PASS1, i)
  {
    hide Start, PartOf;
    assert Placed(tmp, PartOf(rel, PASS1, i), output[i]);
  }

  // One cluster of one partition: where it lies in the two input relations' memory.
  datatype JoinTask = JoinTask(part: nat, cluster: nat, atR: nat, numR: nat, atS: nat, numS: nat, node: nat)

  datatype Pc = Partitioning | AtBarrier | Joining | Finished

  // `scratch` is the partitioned copy of R, which the joins reuse.
  datatype State = State(relR: seq<Tuple>, relS: seq<Tuple>, scratch: seq<Tuple>, parts: seq<nat>, joins: seq<JoinTask>, pcs: seq<Pc>,
                         results: seq<nat>)

  // What thread 0 puts into the bag: the partitions below n that have tuples of both relations.
  ghost function PartTasks(e: Env, n: nat): seq<nat>
    requires Shaped(e) && n <= 16
  {
    if n == 0 then []
    else
      PartTasks(e, n - 1) + if e.outputR[n] - e.outputR[n - 1] - PADDING_TUPLES > 0 && e.outputS[n] - e.outputS[n - 1] - PADDING_TUPLES > 0
                            then [n - 1] else []
  }

  // The join tasks serial_radix_partition adds for the clusters below n.
  function JoinTasks(r: seq<Tuple>, s: seq<Tuple>, i: nat, baseR: nat, baseS: nat, node: nat, n: nat): seq<JoinTask> {
    if n == 0 then []
    else
      var j := n - 1;
      var numR, numS := |PartOf(r, PASS2, j)|, |PartOf(s, PASS2, j)|;
      var offsetR, offsetS := |Parts(r, PASS2, j)|, |Parts(s, PASS2, j)|;
      JoinTasks(r, s, i, baseR, baseS, node, j) +
      if numR > 0 && numS > 0 then
        [JoinTask(i, j, baseR + offsetR + j * SMALL_PADDING_TUPLES, numR, baseS + offsetS + j * SMALL_PADDING_TUPLES, numS, node)]
      else []
  }

  predicate NoneFor(parts: seq<nat>, node: seq<nat>, q: nat) {
    forall k :: 0 <= k < |parts| && parts[k] < |node| ==> node[parts[k]] != q
  }

  predicate NoJoinFor(joins: seq<JoinTask>, q: nat) { forall k :: 0 <= k < |joins| ==> joins[k].node != q }

  function Without<X>(s: seq<X>, k: nat): seq<X>
    requires k < |s|
  {
    s[..k] + s[k + 1..]
  }

  // The memory after radix_cluster has written rel's clusters from `base` on (Clusters.RadixCluster).
  ghost predicate Clustered(m: seq<Tuple>, m0: seq<Tuple>, rel: seq<Tuple>, base: nat) {
    AllPlaced(m, rel, PASS2, SMALL_PADDING_TUPLES, base, |rel|) && Elsewhere(m, m0, base, |rel| + 16 * SMALL_PADDING_TUPLES)
  }

  // Thread t partitions task k of the bag.
  ghost predicate PartitionStep(e: Env, s: State, s': State, t: nat, k: nat)
    requires Shaped(e) && t < |s.pcs|
  {
    && s.pcs[t].Partitioning? && k < |s.parts| && s.parts[k] < 16 && e.node[s.parts[k]] == ThreadNode(t)
    && var i := s.parts[k];
    && e.outputR[i] + PADDING_TUPLES <= e.outputR[i + 1] && e.outputR[i + 1] - PADDING_TUPLES <= |s.scratch|
    && e.outputS[i] + PADDING_TUPLES <= e.outputS[i + 1] && e.outputS[i + 1] - PADDING_TUPLES <= |e.tmpS|
    && var r, q := TaskTuples(s.scratch, e.outputR, i), TaskTuples(e.tmpS, e.outputS, i);
    && Clustered(s'.relR, s.relR, r, e.outputR[i]) && Clustered(s'.relS, s.relS, q, e.outputS[i])
    && s' == s.(relR := s'.relR, relS := s'.relS, parts := Without(s.parts, k),
                joins := s.joins + JoinTasks(r, q, i, e.outputR[i], e.outputS[i], ThreadNode(t), 16))
  }

  // What a join function counts for two clusters, with the tuple it finds behind its scratch region
  // (BucketChaining, HistogramJoin and OptimizedHistogramJoin).
  function TaskCount(algorithm: Algorithm, r: seq<Tuple>, q: seq<Tuple>, behind: Tuple): nat {
    if algorithm.HistogramSimd? then OptimizedHistogramJoin.AllHits(r, Tuple(0, behind.payloadID), q) else JoinCount(r, q)
  }

  // What it does to the scratch memory.
  ghost predicate Scribbled(algorithm: Algorithm, m: seq<Tuple>, m0: seq<Tuple>, at: nat, n: nat)
    requires at + n < |m0|
  {
    match algorithm
    case BucketChaining => m == m0
    case Histogram => Elsewhere(m, m0, at, n)
    case HistogramSimd => Elsewhere(m, m0, at, n + 1) && m[at + n] == Tuple(0, m0[at + n].payloadID)
  }

  // The three functions do so, on a scratch region that begins where the array does.
  method JoinFunction(algorithm: Algorithm, r: seq<Tuple>, q: seq<Tuple>, scratch: array<Tuple>) returns (matches: nat)
    requires 0 < |r| < scratch.Length
    modifies scratch
    ensures matches == TaskCount(algorithm, r, q, old(scratch[|r|]))
    ensures Scribbled(algorithm, scratch[..], old(scratch[..]), 0, |r|)
  {
    hide JoinCount, OptimizedHistogramJoin.AllHits;
    ghost var before := scratch[..];
    match algorithm
    case BucketChaining => matches := Chaining.BucketChainingJoin(r, q);
    case Histogram =>
      matches := HistogramJoin.HistogramJoin(r, q, scratch);
      assert forall i :: |r| <= i < scratch.Length ==> scratch[..][i] == scratch[|r|..][i - |r|] == before[i];
    case HistogramSimd =>
      matches := OptimizedHistogramJoin.HistogramOptimizedJoin(r, q, scratch);
      assert forall i :: |r| < i < scratch.Length ==> scratch[..][i] == scratch[|r| + 1..][i - |r| - 1] == before[i];
  }

  // Thread t joins task k of the bag.
  ghost predicate JoinStep(e: Env, s: State, s': State, t: nat, k: nat)
    requires t < |s.pcs| == |s.results|
  {
    && s.pcs[t].Joining? && k < |s.joins| && s.joins[k].node == ThreadNode(t)
    && var task := s.joins[k];
    && task.atR + task.numR <= |s.relR| && task.atS + task.numS <= |s.relS| && task.atR + task.numR < |s.scratch|
    && Scribbled(e.algorithm, s'.scratch, s.scratch, task.atR, task.numR)
    && s' == s.(joins := Without(s.joins, k), scratch := s'.scratch,
                results := s.results[t := s.results[t] + TaskCount(e.algorithm, s.relR[task.atR..task.atR + task.numR],
                                                                   s.relS[task.atS..task.atS + task.numS],
                                                                   s.scratch[task.atR + task.numR])])
  }

  ghost predicate Next(e: Env, s: State, s': State, t: nat, k: nat)
    requires Shaped(e) && t < |s.pcs| == |s.results|
  {
    || PartitionStep(e, s, s', t, k)
    || (s.pcs[t].Partitioning? && NoneFor(s.parts, e.node, ThreadNode(t)) && s' == s.(pcs := s.pcs[t := AtBarrier]))
    || (s.pcs[t].AtBarrier? && (forall u :: 0 <= u < |s.pcs| ==> !s.pcs[u].Partitioning?) && s' == s.(pcs := s.pcs[t := Joining]))
    || JoinStep(e, s, s', t, k)
    || (s.pcs[t].Joining? && NoJoinFor(s.joins, ThreadNode(t)) && s' == s.(pcs := s.pcs[t := Finished]))
  }

  ghost predicate IsStart(e: Env, s: State)
    requires Shaped(e)
  {
    && |s.relR| >= |e.R| + 16 * PADDING_TUPLES && |s.relS| >= |e.S| + 16 * PADDING_TUPLES
    && s.scratch == e.tmpR && s.parts == PartTasks(e, 16) && s.joins == [] && s.pcs == seq(e.nthreads, _ => Partitioning)
    && s.results == seq(e.nthreads, _ => 0)
  }

  // ---- what the regions of two tasks have in common ----

  // The clusters of partition i, with their padding, lie before partition k's, in the input's memory.
  lemma RegionsApart(rel: seq<Tuple>, tmp: seq<Tuple>, output: seq<nat>, i: nat, k: nat)
    requires Bounds(rel, tmp, output) && i < k <= 16
    ensures output[i] + |PartOf(rel, PASS1, i)| + 16 * SMALL_PADDING_TUPLES <= output[k]
    ensures output[k] <= |rel| + 16 * PADDING_TUPLES
  {
    hide PartOf, Start;
    StartMonotone(rel, PASS1, PADDING_TUPLES, i, k);
    StartTotal(rel, PASS1, PADDING_TUPLES);
    if k < 16 { StartMonotone(rel, PASS1, PADDING_TUPLES, k, 16); }
  }

  // ---- the accounts ----

  function PartR(e: Env, i: nat): seq<Tuple> { PartOf(e.R, PASS1, i) }

  function PartS(e: Env, i: nat): seq<Tuple> { PartOf(e.S, PASS1, i) }

  predicate Served(e: Env, q: nat) { exists t :: 0 <= t < e.nthreads && ThreadNode(t) == q }

  function ClusterR(e: Env, i: nat, c: nat): seq<Tuple> { PartOf(PartR(e, i), PASS2, c) }

  function ClusterS(e: Env, i: nat, c: nat): seq<Tuple> { PartOf(PartS(e, i), PASS2, c) }

  // Where cluster c of partition i of R lies, in the relation's memory and in the scratch memory.
  function ClusterStart(e: Env, i: nat, c: nat): nat
    requires i < |e.outputR|
  {
    e.outputR[i] + |Parts(PartR(e, i), PASS2, c)| + c * SMALL_PADDING_TUPLES
  }

  // The tuple the first pass has left behind the cluster's place in the scratch memory.
  function Behind(e: Env, i: nat, c: nat): Tuple
    requires i < |e.outputR|
  {
    var at := ClusterStart(e, i, c) + |ClusterR(e, i, c)|;
    if at < |e.tmpR| then e.tmpR[at] else Tuple(0, 0)
  }

  // What the join of one cluster counts: clusters without tuples of both relations make no task.
  function ClusterCount(e: Env, i: nat, c: nat): nat
    requires i < |e.outputR|
  {
    var r, q := ClusterR(e, i, c), ClusterS(e, i, c);
    if |r| == 0 || |q| == 0 then 0 else TaskCount(e.algorithm, r, q, Behind(e, i, c))
  }

  function ClusterCounts(e: Env, i: nat, n: nat): nat
    requires i < |e.outputR|
  {
    if n == 0 then 0 else ClusterCounts(e, i, n - 1) + ClusterCount(e, i, n - 1)
  }

  // What the joins of partition i count if some thread looks at its node's queue.
  ghost function PartValue(e: Env, i: nat): nat
    requires i < |e.node| && i < |e.outputR|
  {
    if Served(e, e.node[i]) then ClusterCounts(e, i, 16) else 0
  }

  ghost function PartsValue(e: Env, parts: seq<nat>): nat
    requires forall k :: 0 <= k < |parts| ==> parts[k] < |e.node| && parts[k] < |e.outputR|
  {
    if |parts| == 0 then 0 else PartsValue(e, parts[..|parts| - 1]) + PartValue(e, parts[|parts| - 1])
  }

  function JoinValue(e: Env, task: JoinTask): nat { if task.part < |e.outputR| then ClusterCount(e, task.part, task.cluster) else 0 }

  function JoinsValue(e: Env, joins: seq<JoinTask>): nat {
    if |joins| == 0 then 0 else JoinsValue(e, joins[..|joins| - 1]) + JoinValue(e, joins[|joins| - 1])
  }

  function Sum(results: seq<nat>): nat { if |results| == 0 then 0 else Sum(results[..|results| - 1]) + results[|results| - 1] }

  // What is counted for all partitions below n whose node has a thread.
  ghost function ServedMatches(e: Env, n: nat): nat
    requires n <= |e.node| && n <= |e.outputR|
  {
    if n == 0 then 0 else ServedMatches(e, n - 1) + PartValue(e, n - 1)
  }

  lemma {:induction false} SumUpdate(results: seq<nat>, t: nat, x: nat)
    requires t < |results|
    ensures Sum(results[t := results[t] + x]) == Sum(results) + x
    decreases |results|
  {
    var n := |results| - 1;
    if t < n {
      SumUpdate(results[..n], t, x);
      assert results[t := results[t] + x][..n] == results[..n][t := results[..n][t] + x];
    } else {
      assert results[t := results[t] + x][..n] == results[..n];
    }
  }

  lemma {:induction false} SumZeros(n: nat)
    ensures Sum(seq(n, _ => 0)) == 0
  {
    if n > 0 {
      SumZeros(n - 1);
      var zeros: seq<nat> := seq(n, _ => 0);
      assert zeros[..n - 1] == seq(n - 1, _ => 0);
    }
  }

  lemma {:induction false} PartsValueWithout(e: Env, parts: seq<nat>, k: nat)
    requires k < |parts| && forall a :: 0 <= a < |parts| ==> parts[a] < |e.node| && parts[a] < |e.outputR|
    ensures PartsValue(e, parts) == PartsValue(e, Without(parts, k)) + PartValue(e, parts[k])
    decreases |parts|
  {
    hide PartValue;
    var n := |parts| - 1;
    if k < n {
      PartsValueWithout(e, parts[..n], k);
      assert Without(parts, k)[..n - 1] == Without(parts[..n], k);
    } else {
      assert Without(parts, k) == parts[..n];
    }
  }

  lemma {:induction false} JoinsValueWithout(e: Env, joins: seq<JoinTask>, k: nat)
    requires k < |joins|
    ensures JoinsValue(e, joins) == JoinsValue(e, Without(joins, k)) + JoinValue(e, joins[k])
    decreases |joins|
  {
    hide JoinValue;
    var n := |joins| - 1;
    if k < n {
      JoinsValueWithout(e, joins[..n], k);
      assert Without(joins, k)[..n - 1] == Without(joins[..n], k);
    } else {
      assert Without(joins, k) == joins[..n];
    }
  }

  lemma {:induction false} JoinsValueAppend(e: Env, a: seq<JoinTask>, b: seq<JoinTask>)
    ensures JoinsValue(e, a + b) == JoinsValue(e, a) + JoinsValue(e, b)
    decreases |b|
  {
    hide JoinValue;
    if |b| == 0 {
      assert a + b == a;
    } else {
      JoinsValueAppend(e, a, b[..|b| - 1]);
      assert (a + b)[..|a + b| - 1] == a + b[..|b| - 1];
    }
  }

  // The tasks made from a partition are worth all its clusters; the clusters left out count nothing.
  lemma {:induction false} JoinTasksValue(e: Env, i: nat, baseR: nat, baseS: nat, node: nat, n: nat)
    requires i < |e.outputR|
    ensures JoinsValue(e, JoinTasks(PartR(e, i), PartS(e, i), i, baseR, baseS, node, n)) == ClusterCounts(e, i, n)
    decreases n
  {
    hide PartOf, PartR, PartS, TaskCount, Behind;
    if n > 0 {
      var j := n - 1;
      var r, s := PartR(e, i), PartS(e, i);
      var before := JoinTasks(r, s, i, baseR, baseS, node, j);
      JoinTasksValue(e, i, baseR, baseS, node, j);
      if |PartOf(r, PASS2, j)| == 0 || |PartOf(s, PASS2, j)| == 0 { assert before + [] == before; }
    }
  }

  // A partition without tuples of one relation has no cluster with tuples of both.
  lemma {:induction false} EmptyCounts(e: Env, i: nat, n: nat)
    requires i < |e.outputR| && (|PartR(e, i)| == 0 || |PartS(e, i)| == 0)
    ensures ClusterCounts(e, i, n) == 0
    decreases n
  {
    hide PartR, PartS, TaskCount, Behind;
    if n > 0 { EmptyCounts(e, i, n - 1); }
  }

  lemma NoMatch(r: seq<Tuple>, s: seq<Tuple>)
    requires |r| == 0 || |s| == 0
    ensures JoinCount(r, s) == 0
  {
    if |r| == 0 { JoinNone(s); }
  }

  lemma {:induction false} PartTasksBelow(e: Env, n: nat)
    requires EnvOk(e) && n <= 16
    ensures forall k :: 0 <= k < |PartTasks(e, n)| ==> PartTasks(e, n)[k] < n
    ensures forall a, b :: 0 <= a < b < |PartTasks(e, n)| ==> PartTasks(e, n)[a] != PartTasks(e, n)[b]
    decreases n
  {
    hide Bounds;
    if n > 0 {
      BoundsLength(e.R, e.tmpR, e.outputR);
      BoundsLength(e.S, e.tmpS, e.outputS);
      PartTasksBelow(e, n - 1);
    }
  }

  // A partition is put into the bag exactly if it has tuples of both relations.
  lemma {:induction false} PartTasksExactly(e: Env, n: nat, i: nat)
    requires EnvOk(e) && n <= 16 && i < 16
    ensures i in PartTasks(e, n) <==> i < n && |PartR(e, i)| > 0 && |PartS(e, i)| > 0
    decreases n
  {
    hide PartOf, Start, Placed;
    if n > 0 {
      PartTasksExactly(e, n - 1, i);
      PartSizes(e, n - 1);
    }
  }

  lemma {:induction false} PartTasksValue(e: Env, n: nat)
    requires EnvOk(e) && n <= 16
    ensures forall k :: 0 <= k < |PartTasks(e, n)| ==> PartTasks(e, n)[k] < n
    ensures PartsValue(e, PartTasks(e, n)) == ServedMatches(e, n)
    decreases n
  {
    hide PartOf, ClusterCounts, Start, PartR, PartS;
    PartTasksBelow(e, n);
    BoundsLength(e.R, e.tmpR, e.outputR);
    if n > 0 {
      PartTasksValue(e, n - 1);
      var before := PartTasks(e, n - 1);
      PartSizes(e, n - 1);
      if |PartR(e, n - 1)| == 0 || |PartS(e, n - 1)| == 0 {
        EmptyCounts(e, n - 1, 16);
        assert before + [] == before;
      } else {
        assert (before + [n - 1])[..|before|] == before;
      }
    }
  }

  lemma PartSizes(e: Env, i: nat)
    requires EnvOk(e) && i < 16
    ensures e.outputR[i + 1] - e.outputR[i] - PADDING_TUPLES == |PartR(e, i)|
    ensures e.outputS[i + 1] - e.outputS[i] - PADDING_TUPLES == |PartS(e, i)|
  {
    hide PartOf, Start;
  }

  lemma BoundsLength(rel: seq<Tuple>, tmp: seq<Tuple>, output: seq<nat>)
    requires Bounds(rel, tmp, output)
    ensures |output| == 17
  {
  }

  // ---- the invariant ----

  // A pending join task's clusters lie in memory, the tuple behind its place in the scratch memory still has the
  // payload the first pass left, and its partition is not waiting to be partitioned any more.
  ghost predicate JoinOk(e: Env, s: State, task: JoinTask)
    requires |e.outputR| == 17
  {
    && task.part < 16 && task.cluster < 16 && task.part !in s.parts && Served(e, task.node)
    && Placed(s.relR, ClusterR(e, task.part, task.cluster), task.atR)
    && Placed(s.relS, ClusterS(e, task.part, task.cluster), task.atS)
    && task.numR == |ClusterR(e, task.part, task.cluster)| > 0 && task.numS == |ClusterS(e, task.part, task.cluster)| > 0
    && task.atR == ClusterStart(e, task.part, task.cluster)
    && task.atR + task.numR < |s.scratch| == |e.tmpR|
    && s.scratch[task.atR + task.numR].payloadID == e.tmpR[task.atR + task.numR].payloadID
    && Within(task.atR, task.numR, e.outputR, |PartR(e, task.part)|, task.part)
    && Within(task.atS, task.numS, e.outputS, |PartS(e, task.part)|, task.part)
  }

  // The region of a cluster lies in its partition's region.
  predicate Within(at: nat, num: nat, output: seq<nat>, size: nat, i: nat) {
    i < |output| && output[i] <= at && at + num <= output[i] + size + 16 * SMALL_PADDING_TUPLES
  }

  ghost predicate PartsOk(s: State) {
    && (forall k :: 0 <= k < |s.parts| ==> s.parts[k] < 16)
    && (forall a, b :: 0 <= a < b < |s.parts| ==> s.parts[a] != s.parts[b])
  }

  // No two pending tasks are for the same cluster.
  predicate JoinsApart(joins: seq<JoinTask>) {
    forall a, b :: 0 <= a < b < |joins| ==> joins[a].part != joins[b].part || joins[a].cluster != joins[b].cluster
  }

  // Nothing is scribbled over while partitions are still read.
  predicate ScratchOk(e: Env, s: State) {
    |s.scratch| == |e.tmpR| && ((exists u :: 0 <= u < |s.pcs| && s.pcs[u].Partitioning?) ==> s.scratch == e.tmpR)
  }

  // A thread leaves a queue only when it is empty, and nobody adds to it any more.
  ghost predicate LeftOk(e: Env, s: State)
    requires |e.node| == 16
  {
    forall t :: 0 <= t < |s.pcs| ==>
      && (!s.pcs[t].Partitioning? ==> NoneFor(s.parts, e.node, ThreadNode(t)))
      && (s.pcs[t].Joining? || s.pcs[t].Finished? ==> forall u :: 0 <= u < |s.pcs| ==> !s.pcs[u].Partitioning?)
      && (s.pcs[t].Finished? ==> NoJoinFor(s.joins, ThreadNode(t)))
  }

  ghost predicate Inv(e: Env, s: State)
    requires EnvOk(e)
  {
    && |s.pcs| == |s.results| == e.nthreads
    && |s.relR| >= |e.R| + 16 * PADDING_TUPLES && |s.relS| >= |e.S| + 16 * PADDING_TUPLES
    && PartsOk(s) && LeftOk(e, s) && ScratchOk(e, s) && JoinsApart(s.joins)
    && (forall k :: 0 <= k < |s.joins| ==> JoinOk(e, s, s.joins[k]))
    && Sum(s.results) + JoinsValue(e, s.joins) + PartsValue(e, s.parts) == ServedMatches(e, 16)
  }

  // Clustering one partition leaves the other partitions' clusters in place.
  lemma OthersKept(rel: seq<Tuple>, tmp: seq<Tuple>, output: seq<nat>, m: seq<Tuple>, m': seq<Tuple>, i: nat,
                   part: seq<Tuple>, at: nat, k: nat)
    requires Bounds(rel, tmp, output) && i < 16 && k < 16 && i != k
    requires Elsewhere(m', m, output[i], |PartOf(rel, PASS1, i)| + 16 * SMALL_PADDING_TUPLES)
    requires Placed(m, part, at) && Within(at, |part|, output, |PartOf(rel, PASS1, k)|, k)
    ensures Placed(m', part, at)
  {
    hide PartOf, Start;
    if i < k { RegionsApart(rel, tmp, output, i, k); } else { RegionsApart(rel, tmp, output, k, i); }
  }

  // The new join tasks describe the clusters just written.
  lemma {:induction false} NewTasks(r: seq<Tuple>, s: seq<Tuple>, i: nat, baseR: nat, baseS: nat, node: nat, n: nat,
                                    mR: seq<Tuple>, mS: seq<Tuple>, k: nat)
    requires n <= 16 && k < |JoinTasks(r, s, i, baseR, baseS, node, n)|
    requires AllPlaced(mR, r, PASS2, SMALL_PADDING_TUPLES, baseR, |r|) && AllPlaced(mS, s, PASS2, SMALL_PADDING_TUPLES, baseS, |s|)
    ensures var task := JoinTasks(r, s, i, baseR, baseS, node, n)[k];
            && task.part == i && task.cluster < n && task.node == node
            && Placed(mR, PartOf(r, PASS2, task.cluster), task.atR) && Placed(mS, PartOf(s, PASS2, task.cluster), task.atS)
            && task.numR == |PartOf(r, PASS2, task.cluster)| > 0 && task.numS == |PartOf(s, PASS2, task.cluster)| > 0
            && task.atR == baseR + |Parts(r, PASS2, task.cluster)| + task.cluster * SMALL_PADDING_TUPLES
            && baseR <= task.atR && task.atR + task.numR <= baseR + |r| + 16 * SMALL_PADDING_TUPLES
            && baseS <= task.atS && task.atS + task.numS <= baseS + |s| + 16 * SMALL_PADDING_TUPLES
    decreases n
  {
    hide PartOf, Placed, Start;
    var j := n - 1;
    var before := JoinTasks(r, s, i, baseR, baseS, node, j);
    if k < |before| {
      NewTasks(r, s, i, baseR, baseS, node, j, mR, mS, k);
    } else {
      ClusterAt(mR, r, baseR, j);
      ClusterAt(mS, s, baseS, j);
    }
  }

  // One task a cluster.
  lemma {:induction false} NewTasksApart(r: seq<Tuple>, s: seq<Tuple>, i: nat, baseR: nat, baseS: nat, node: nat, n: nat)
    ensures forall k :: 0 <= k < |JoinTasks(r, s, i, baseR, baseS, node, n)| ==>
                          var task := JoinTasks(r, s, i, baseR, baseS, node, n)[k]; task.part == i && task.cluster < n
    ensures JoinsApart(JoinTasks(r, s, i, baseR, baseS, node, n))
    decreases n
  {
    hide PartOf, Parts;
    if n > 0 { NewTasksApart(r, s, i, baseR, baseS, node, n - 1); }
  }

  // Tasks for a partition that had none.
  lemma AppendApart(joins: seq<JoinTask>, more: seq<JoinTask>, i: nat)
    requires JoinsApart(joins) && JoinsApart(more)
    requires forall k :: 0 <= k < |joins| ==> joins[k].part != i
    requires forall k :: 0 <= k < |more| ==> more[k].part == i
    ensures JoinsApart(joins + more)
  {
  }

  // Distinct clusters, with the padding behind them, are apart, in the relation's memory and in the scratch memory;
  // all lie inside.
  lemma ClustersApart(e: Env, i: nat, c: nat, k: nat, d: nat)
    requires EnvOk(e) && i < 16 && k < 16 && c < 16 && d < 16 && (i < k || (i == k && c < d))
    ensures |e.outputR| == 17
    ensures ClusterStart(e, i, c) + |ClusterR(e, i, c)| + SMALL_PADDING_TUPLES <= ClusterStart(e, k, d)
  {
    hide PartOf, Start, Parts;
    BoundsLength(e.R, e.tmpR, e.outputR);
    if i < k {
      ClusterInPart(e, i, c);
      RegionsApart(e.R, e.tmpR, e.outputR, i, k);
    } else {
      StartIs(PartR(e, i), PASS2, SMALL_PADDING_TUPLES, c);
      StartIs(PartR(e, i), PASS2, SMALL_PADDING_TUPLES, d);
      StartMonotone(PartR(e, i), PASS2, SMALL_PADDING_TUPLES, c, d);
    }
  }

  lemma ClusterInPart(e: Env, i: nat, c: nat)
    requires |e.outputR| == 17 && i < 16 && c < 16
    ensures e.outputR[i] <= ClusterStart(e, i, c)
    ensures ClusterStart(e, i, c) + |ClusterR(e, i, c)| + SMALL_PADDING_TUPLES <=
            e.outputR[i] + |PartR(e, i)| + 16 * SMALL_PADDING_TUPLES
  {
    hide PartOf, Start, Parts;
    StartIs(PartR(e, i), PASS2, SMALL_PADDING_TUPLES, c);
    StartMonotone(PartR(e, i), PASS2, SMALL_PADDING_TUPLES, c, 16);
    StartTotal(PartR(e, i), PASS2, SMALL_PADDING_TUPLES);
  }

  lemma ClusterFits(e: Env, i: nat, c: nat)
    requires EnvOk(e) && i < 16 && c < 16
    ensures |e.outputR| == 17 && ClusterStart(e, i, c) + |ClusterR(e, i, c)| < |e.tmpR|
  {
    hide PartOf, Start, Parts;
    BoundsLength(e.R, e.tmpR, e.outputR);
    ClusterInPart(e, i, c);
    RegionsApart(e.R, e.tmpR, e.outputR, i, 16);
  }

  lemma ClusterAt(m: seq<Tuple>, r: seq<Tuple>, base: nat, j: nat)
    requires j < 16 && AllPlaced(m, r, PASS2, SMALL_PADDING_TUPLES, base, |r|)
    ensures Placed(m, PartOf(r, PASS2, j), base + |Parts(r, PASS2, j)| + j * SMALL_PADDING_TUPLES)
    ensures |Parts(r, PASS2, j)| + j * SMALL_PADDING_TUPLES + |PartOf(r, PASS2, j)| <= |r| + 16 * SMALL_PADDING_TUPLES
  {
    hide PartOf, Placed, Start;
    StartIs(r, PASS2, SMALL_PADDING_TUPLES, j);
    StartMonotone(r, PASS2, SMALL_PADDING_TUPLES, j, 16);
    StartTotal(r, PASS2, SMALL_PADDING_TUPLES);
    assert r[..|r|] == r;
    assert Placed(m, PartOf(r[..|r|], PASS2, j), base + Start(r, PASS2, SMALL_PADDING_TUPLES, j));
  }

  lemma PartitionKeepsInv(e: Env, s: State, s': State, t: nat, k: nat)
    requires EnvOk(e) && Inv(e, s) && t < |s.pcs| && PartitionStep(e, s, s', t, k)
    ensures Inv(e, s')
  {
    hide PartOf, Start, JoinCount, JoinTasks, PartsValue, JoinsValue, ServedMatches, Placed, Sum, AllPlaced, Elsewhere, Bounds;
    var i := s.parts[k];
    TaskIsPart(e.R, e.tmpR, e.outputR, i);
    TaskIsPart(e.S, e.tmpS, e.outputS, i);
    PartitionKeepsJoins(e, s, s', t, k);
    PartitionKeepsApart(e, s, s', t, k);
    PartitionKeepsAccounts(e, s, s', t, k);
    PartitionKeepsLeft(e, s, s', t, k);
    BoundsLength(e.R, e.tmpR, e.outputR);
    BoundsLength(e.S, e.tmpS, e.outputS);
    ElsewhereLength(s'.relR, s.relR, e.outputR[i], |PartR(e, i)| + 16 * SMALL_PADDING_TUPLES);
    ElsewhereLength(s'.relS, s.relS, e.outputS[i], |PartS(e, i)| + 16 * SMALL_PADDING_TUPLES);
  }

  lemma ElsewhereLength(m: seq<Tuple>, m0: seq<Tuple>, p: nat, n: nat)
    requires Elsewhere(m, m0, p, n)
    ensures |m| == |m0|
  {
  }

  lemma PartitionKeepsLeft(e: Env, s: State, s': State, t: nat, k: nat)
    requires EnvOk(e) && PartsOk(s) && LeftOk(e, s) && t < |s.pcs| && PartitionStep(e, s, s', t, k)
    ensures PartsOk(s') && LeftOk(e, s')
    ensures forall i :: i in s'.parts <==> i in s.parts && i != s.parts[k]
  {
    hide Clustered, JoinTasks, Bounds, TaskTuples, NoJoinFor;
    forall i ensures i in s'.parts <==> i in s.parts && i != s.parts[k] {
      assert i in s.parts ==> exists a :: 0 <= a < |s.parts| && s.parts[a] == i;
      forall a | 0 <= a < |s.parts| && a != k ensures s.parts[a] in s'.parts {
        assert s'.parts[if a < k then a else a - 1] == s.parts[a];
      }
    }
    forall u | 0 <= u < |s'.pcs| && !s'.pcs[u].Partitioning? ensures NoneFor(s'.parts, e.node, ThreadNode(u)) {
      assert NoneFor(s.parts, e.node, ThreadNode(u));
      forall b | 0 <= b < |s'.parts| && s'.parts[b] < |e.node| ensures e.node[s'.parts[b]] != ThreadNode(u) {
        assert s'.parts[b] == s.parts[if b < k then b else b + 1];
      }
    }
  }

  lemma PartitionKeepsAccounts(e: Env, s: State, s': State, t: nat, k: nat)
    requires EnvOk(e) && Inv(e, s) && t < |s.pcs| && PartitionStep(e, s, s', t, k)
    ensures forall a :: 0 <= a < |s'.parts| ==> s'.parts[a] < 16
    ensures Sum(s'.results) + JoinsValue(e, s'.joins) + PartsValue(e, s'.parts) == ServedMatches(e, 16)
  {
    hide PartOf, Start, ClusterCounts, JoinTasks, PartsValue, JoinsValue, ServedMatches, Clustered, Bounds, Sum, JoinOk;
    var i := s.parts[k];
    TaskIsPart(e.R, e.tmpR, e.outputR, i);
    TaskIsPart(e.S, e.tmpS, e.outputS, i);
    PartsValueWithout(e, s.parts, k);
    BoundsLength(e.R, e.tmpR, e.outputR);
    BoundsLength(e.S, e.tmpS, e.outputS);
    JoinTasksValue(e, i, e.outputR[i], e.outputS[i], ThreadNode(t), 16);
    JoinsValueAppend(e, s.joins, JoinTasks(PartR(e, i), PartS(e, i), i, e.outputR[i], e.outputS[i], ThreadNode(t), 16));
    assert Served(e, ThreadNode(t));
  }

  lemma PartitionKeepsJoins(e: Env, s: State, s': State, t: nat, k: nat)
    requires EnvOk(e) && Inv(e, s) && t < |s.pcs| && PartitionStep(e, s, s', t, k)
    ensures forall a :: 0 <= a < |s'.joins| ==> JoinOk(e, s', s'.joins[a])
  {
    hide PartOf, Start, JoinCount, JoinTasks, PartsValue, JoinsValue, ServedMatches, Placed, Sum, AllPlaced, Elsewhere, Bounds;
    var i := s.parts[k];
    TaskIsPart(e.R, e.tmpR, e.outputR, i);
    TaskIsPart(e.S, e.tmpS, e.outputS, i);
    PartitionKeepsLeft(e, s, s', t, k);
    BoundsLength(e.R, e.tmpR, e.outputR);
    BoundsLength(e.S, e.tmpS, e.outputS);
    assert Served(e, ThreadNode(t));
    forall a | 0 <= a < |s'.joins| ensures JoinOk(e, s', s'.joins[a]) {
      if a < |s.joins| {
        var task := s.joins[a];
        assert JoinOk(e, s, task) && i in s.parts;
        OthersKept(e.R, e.tmpR, e.outputR, s.relR, s'.relR, i, ClusterR(e, task.part, task.cluster), task.atR, task.part);
        OthersKept(e.S, e.tmpS, e.outputS, s.relS, s'.relS, i, ClusterS(e, task.part, task.cluster), task.atS, task.part);
      } else {
        var task := s'.joins[a];
        assert task == JoinTasks(PartR(e, i), PartS(e, i), i, e.outputR[i], e.outputS[i], ThreadNode(t), 16)[a - |s.joins|];
        NewTasks(PartR(e, i), PartS(e, i), i, e.outputR[i], e.outputS[i], ThreadNode(t), 16, s'.relR, s'.relS, a - |s.joins|);
        ClusterFits(e, i, task.cluster);
      }
    }
  }

  lemma PartitionKeepsApart(e: Env, s: State, s': State, t: nat, k: nat)
    requires EnvOk(e) && Inv(e, s) && t < |s.pcs| && PartitionStep(e, s, s', t, k)
    ensures JoinsApart(s'.joins)
  {
    hide PartOf, Start, JoinCount, JoinTasks, PartsValue, JoinsValue, ServedMatches, Placed, Sum, Clustered, Bounds, TaskTuples, JoinsApart;
    var i := s.parts[k];
    var r, q := TaskTuples(s.scratch, e.outputR, i), TaskTuples(e.tmpS, e.outputS, i);
    NewTasksApart(r, q, i, e.outputR[i], e.outputS[i], ThreadNode(t), 16);
    forall a | 0 <= a < |s.joins| ensures s.joins[a].part != i {
      assert JoinOk(e, s, s.joins[a]) && i in s.parts;
    }
    AppendApart(s.joins, JoinTasks(r, q, i, e.outputR[i], e.outputS[i], ThreadNode(t), 16), i);
  }

  lemma JoinKeepsInv(e: Env, s: State, s': State, t: nat, k: nat)
    requires EnvOk(e) && Inv(e, s) && t < |s.pcs| && JoinStep(e, s, s', t, k)
    ensures Inv(e, s')
  {
    hide PartOf, Start, TaskCount, ClusterCount, PartsValue, JoinsValue, ServedMatches, Sum, Bounds, NoneFor, JoinOk, JoinsApart, Scribbled;
    var task := s.joins[k];
    JoinAdds(e, s, s', t, k);
    SumUpdate(s.results, t, ClusterCount(e, task.part, task.cluster));
    JoinsValueWithout(e, s.joins, k);
    forall a | 0 <= a < |s'.joins| ensures s'.joins[a] == s.joins[if a < k then a else a + 1] && JoinOk(e, s', s'.joins[a]) {
      OtherJoinKept(e, s, s', t, k, if a < k then a else a + 1);
    }
    WithoutApart(s.joins, k);
    ScribbledLength(e.algorithm, s'.scratch, s.scratch, task.atR, task.numR);
    forall u | 0 <= u < |s'.pcs| && s'.pcs[u].Finished? ensures NoJoinFor(s'.joins, ThreadNode(u)) {
      assert NoJoinFor(s.joins, ThreadNode(u));
    }
  }

  lemma WithoutApart(joins: seq<JoinTask>, k: nat)
    requires k < |joins| && JoinsApart(joins)
    ensures JoinsApart(Without(joins, k))
  {
  }

  lemma ScribbledLength(algorithm: Algorithm, m: seq<Tuple>, m0: seq<Tuple>, at: nat, n: nat)
    requires at + n < |m0| && Scribbled(algorithm, m, m0, at, n)
    ensures |m| == |m0|
  {
  }

  // The slices are the clusters, and the tuple behind has the payload the first pass left.
  lemma JoinAdds(e: Env, s: State, s': State, t: nat, k: nat)
    requires EnvOk(e) && Inv(e, s) && t < |s.pcs| && JoinStep(e, s, s', t, k)
    ensures |e.outputR| == 17 && s.joins[k].part < 16
    ensures s'.results == s.results[t := s.results[t] + ClusterCount(e, s.joins[k].part, s.joins[k].cluster)]
  {
    hide PartOf, Start, JoinCount, Parts, PartsValue, JoinsValue, ServedMatches, Sum, Bounds, LeftOk, JoinsApart, OptimizedHistogramJoin.AllHits;
    var task := s.joins[k];
    assert JoinOk(e, s, task);
  }

  lemma OtherJoinKept(e: Env, s: State, s': State, t: nat, k: nat, b: nat)
    requires EnvOk(e) && Inv(e, s) && t < |s.pcs| && JoinStep(e, s, s', t, k) && b < |s.joins| && b != k
    ensures |e.outputR| == 17 && JoinOk(e, s', s.joins[b])
  {
    hide PartOf, Start, TaskCount, Parts, PartsValue, JoinsValue, ServedMatches, Sum, Bounds, LeftOk, Placed;
    var mine, other := s.joins[k], s.joins[b];
    assert JoinOk(e, s, mine) && JoinOk(e, s, other);
    if mine.part < other.part || (mine.part == other.part && mine.cluster < other.cluster) {
      ClustersApart(e, mine.part, mine.cluster, other.part, other.cluster);
    } else {
      ClustersApart(e, other.part, other.cluster, mine.part, mine.cluster);
    }
  }

  lemma KeepsInv(e: Env, s: State, s': State, t: nat, k: nat)
    requires EnvOk(e) && Inv(e, s) && t < |s.pcs| && Next(e, s, s', t, k)
    ensures Inv(e, s')
  {
    hide PartOf, Start, JoinCount, PartsValue, JoinsValue, ServedMatches, Sum, Bounds, NoneFor, NoJoinFor, PartitionStep, JoinStep,
      Served;
    if PartitionStep(e, s, s', t, k) {
      PartitionKeepsInv(e, s, s', t, k);
    } else if JoinStep(e, s, s', t, k) {
      JoinKeepsInv(e, s, s', t, k);
    } else {
      forall a | 0 <= a < |s'.joins| ensures JoinOk(e, s', s'.joins[a]) {
        assert JoinOk(e, s, s.joins[a]);
      }
    }
  }

  lemma StartInv(e: Env, s: State)
    requires EnvOk(e) && IsStart(e, s)
    ensures Inv(e, s)
  {
    hide PartOf, Start, JoinCount, PartsValue, ServedMatches, Sum, Bounds, NoneFor, NoJoinFor, PartTasks;
    PartTasksBelow(e, 16);
    PartTasksValue(e, 16);
    SumZeros(e.nthreads);
  }

  // ---- every run ----

  // A run: states, and for each step the thread, and which entry of the bag it takes.
  ghost predicate IsRun(e: Env, states: seq<State>, turns: seq<(nat, nat)>)
    requires Shaped(e)
  {
    && |states| == |turns| + 1 && IsStart(e, states[0])
    && forall n :: 0 <= n < |turns| ==> RunStep(e, states[n], states[n + 1], turns[n])
  }

  ghost predicate RunStep(e: Env, s: State, s': State, turn: (nat, nat))
    requires Shaped(e)
  {
    turn.0 < |s.pcs| == |s.results| && Next(e, s, s', turn.0, turn.1)
  }

  lemma {:induction false} RunInv(e: Env, states: seq<State>, turns: seq<(nat, nat)>, n: nat)
    requires EnvOk(e) && IsRun(e, states, turns) && n <= |turns|
    ensures Inv(e, states[n])
    decreases n
  {
    hide Inv, Next, IsStart;
    if n == 0 {
      StartInv(e, states[0]);
    } else {
      RunInv(e, states, turns, n - 1);
      assert RunStep(e, states[n - 1], states[n - 1 + 1], turns[n - 1]);
      KeepsInv(e, states[n - 1], states[n], turns[n - 1].0, turns[n - 1].1);
    }
  }

  lemma RunLength(e: Env, states: seq<State>, turns: seq<(nat, nat)>)
    requires EnvOk(e) && IsRun(e, states, turns)
    ensures |states| == |turns| + 1
  {
  }

  lemma {:induction false} NothingServedLeft(e: Env, parts: seq<nat>)
    requires |e.node| == 16 && |e.outputR| == 17
    requires forall k :: 0 <= k < |parts| ==> parts[k] < 16 && !Served(e, e.node[parts[k]])
    ensures PartsValue(e, parts) == 0
    decreases |parts|
  {
    if |parts| > 0 { NothingServedLeft(e, parts[..|parts| - 1]); }
  }

  // A join that is left is on the queue of some thread, and a thread that has finished leaves none.
  lemma JoinHasThread(e: Env, s: State) returns (t: nat)
    requires EnvOk(e) && Inv(e, s) && |s.joins| > 0
    ensures t < |s.pcs| && !NoJoinFor(s.joins, ThreadNode(t))
  {
    hide PartOf, Start, JoinCount, PartsValue, JoinsValue, ServedMatches, Sum, Bounds, Placed, LeftOk;
    assert JoinOk(e, s, s.joins[0]);
    t :| 0 <= t < e.nthreads && ThreadNode(t) == s.joins[0].node;
  }

  lemma FinishedLeaveNone(e: Env, s: State)
    requires EnvOk(e) && Inv(e, s) && forall t :: 0 <= t < |s.pcs| ==> s.pcs[t].Finished?
    ensures forall t :: 0 <= t < |s.pcs| ==> NoJoinFor(s.joins, ThreadNode(t))
  {
    hide PartOf, Start, JoinCount, PartsValue, JoinsValue, ServedMatches, Sum, Bounds, Placed, JoinOk;
  }

  lemma PartUnserved(e: Env, s: State, k: nat)
    requires EnvOk(e) && Inv(e, s) && (forall t :: 0 <= t < |s.pcs| ==> s.pcs[t].Finished?) && k < |s.parts|
    ensures s.parts[k] < 16 == |e.node| && !Served(e, e.node[s.parts[k]])
  {
    hide PartOf, Start, JoinCount, PartsValue, JoinsValue, ServedMatches, Sum, Bounds, Placed;
    forall t | 0 <= t < e.nthreads ensures ThreadNode(t) != e.node[s.parts[k]] {
      assert NoneFor(s.parts, e.node, ThreadNode(t));
    }
  }

  // When all threads have finished, the results add up to what the join function counts for the partitions whose
  // memory is on a node that has a thread, whichever join function it is.
  lemma EveryRunCounts(e: Env, states: seq<State>, turns: seq<(nat, nat)>)
    requires EnvOk(e) && IsRun(e, states, turns) && AllFinished(states[|turns|])
    ensures |e.outputR| == 17 && Sum(states[|turns|].results) == ServedMatches(e, 16)
  {
    hide PartOf, Start, TaskCount, PartsValue, ServedMatches, Sum, Bounds, Next, IsRun, JoinOk, Served, LeftOk, NoJoinFor;
    RunLength(e, states, turns);
    RunInv(e, states, turns, |turns|);
    BoundsLength(e.R, e.tmpR, e.outputR);
    var s := states[|turns|];
    FinishedLeaveNone(e, s);
    if |s.joins| > 0 { var t := JoinHasThread(e, s); }
    forall k | 0 <= k < |s.parts| ensures !Served(e, e.node[s.parts[k]]) {
      PartUnserved(e, s, k);
    }
    NothingServedLeft(e, s.parts);
  }

  predicate AllFinished(s: State) { forall t :: 0 <= t < |s.pcs| ==> s.pcs[t].Finished? }

  // ---- when the join functions count matches ----

  // bucket_chaining_join and histogram_join always do; histogram_optimized_join does where, bucket by bucket, the
  // payloads it compares can stand for the keys.
  ghost predicate TasksRight(e: Env)
    requires |e.outputR| == 17
  {
    e.algorithm.HistogramSimd? ==>
      forall i, c :: 0 <= i < 16 && 0 <= c < 16 ==>
        OptimizedHistogramJoin.PayloadsStandForKeys(ClusterR(e, i, c), Tuple(0, Behind(e, i, c).payloadID))
  }

  lemma ClusterJoins(e: Env, i: nat, c: nat)
    requires |e.outputR| == 17 && i < 16 && c < 16 && TasksRight(e)
    ensures ClusterCount(e, i, c) == JoinCount(ClusterR(e, i, c), ClusterS(e, i, c))
  {
    hide PartOf, PartR, PartS, JoinCount, Behind, OptimizedHistogramJoin.AllHits, OptimizedHistogramJoin.PayloadsStandForKeys;
    var r, q := ClusterR(e, i, c), ClusterS(e, i, c);
    if |r| == 0 || |q| == 0 {
      NoMatch(r, q);
    } else if e.algorithm.HistogramSimd? {
      OptimizedHistogramJoin.RightExactly(r, Tuple(0, Behind(e, i, c).payloadID));
    }
  }

  lemma {:induction false} CountsJoin(e: Env, i: nat, n: nat)
    requires |e.outputR| == 17 && i < 16 && n <= 16 && TasksRight(e)
    ensures ClusterCounts(e, i, n) == JoinOfParts(PartR(e, i), PartS(e, i), PASS2, n)
    decreases n
  {
    hide PartOf, PartR, PartS, JoinCount, ClusterCount, TasksRight;
    if n > 0 {
      CountsJoin(e, i, n - 1);
      ClusterJoins(e, i, n - 1);
    }
  }

  // The matches of the partitions below n whose node has no thread.
  ghost function MissedMatches(e: Env, n: nat): nat
    requires n <= |e.node|
  {
    if n == 0 then 0
    else MissedMatches(e, n - 1) + if Served(e, e.node[n - 1]) then 0 else JoinCount(PartR(e, n - 1), PartS(e, n - 1))
  }

  lemma {:induction false} ServedAndMissed(e: Env, n: nat)
    requires |e.node| == 16 && |e.outputR| == 17 && n <= 16 && TasksRight(e)
    ensures ServedMatches(e, n) + MissedMatches(e, n) == JoinOfParts(e.R, e.S, PASS1, n)
    decreases n
  {
    hide PartOf, JoinCount, ClusterCounts, TasksRight, Served;
    if n > 0 {
      ServedAndMissed(e, n - 1);
      CountsJoin(e, n - 1, 16);
      JoinSplits(PartR(e, n - 1), PartS(e, n - 1), PASS2);
    }
  }

  lemma {:induction false} MissedNothing(e: Env, n: nat)
    requires |e.node| == 16 && n <= 16
    ensures MissedMatches(e, n) == 0 <==> forall i :: 0 <= i < n && !Served(e, e.node[i]) ==> JoinCount(PartR(e, i), PartS(e, i)) == 0
    decreases n
  {
    hide PartR, PartS, JoinCount, Served;
    if n > 0 { MissedNothing(e, n - 1); }
  }

  // The results are the nested-loop count exactly if no partition whose node has no thread has a match.
  lemma RightExactly(e: Env, states: seq<State>, turns: seq<(nat, nat)>)
    requires EnvOk(e) && |e.outputR| == 17 && TasksRight(e) && IsRun(e, states, turns) && AllFinished(states[|turns|])
    ensures Sum(states[|turns|].results) == JoinCount(e.R, e.S) <==>
            forall i :: 0 <= i < 16 && !Served(e, e.node[i]) ==> JoinCount(PartR(e, i), PartS(e, i)) == 0
  {
    hide IsRun, EnvOk, Sum, JoinCount, ServedMatches, TasksRight, PartR, PartS, Served;
    EveryRunCounts(e, states, turns);
    NodeLength(e);
    ServedAndMissed(e, 16);
    MissedNothing(e, 16);
    JoinSplits(e.R, e.S, PASS1);
  }

  // With a thread on every node that holds a partition, every run finds every match.
  lemma EveryRunJoins(e: Env, states: seq<State>, turns: seq<(nat, nat)>)
    requires EnvOk(e) && |e.outputR| == 17 && TasksRight(e) && IsRun(e, states, turns) && AllFinished(states[|turns|])
    requires forall i :: 0 <= i < 16 ==> Served(e, e.node[i])
    ensures Sum(states[|turns|].results) == JoinCount(e.R, e.S)
  {
    hide IsRun, EnvOk, Sum, JoinCount, TasksRight, PartR, PartS, Served;
    NodeLength(e);
    RightExactly(e, states, turns);
  }

  lemma NodeLength(e: Env)
    requires EnvOk(e)
    ensures |e.node| == 16 && e.nthreads > 0 && forall i :: 0 <= i < 16 ==> e.node[i] < NUMA_REGIONS
  {
    hide Bounds;
  }

  // Four threads are enough, wherever the memory is ...
  lemma FourThreadsServe(e: Env)
    requires EnvOk(e) && e.nthreads >= 4
    ensures forall i :: 0 <= i < 16 ==> Served(e, e.node[i])
  {
    hide EnvOk;
    NodeLength(e);
    forall i | 0 <= i < 16 ensures Served(e, e.node[i]) {
      assert ThreadNode(e.node[i]) == e.node[i];
    }
  }

  // ... and fewer are not: memory on the last node is never looked at, whatever the relations hold.
  lemma ThreeThreadsMiss(e: Env, states: seq<State>, turns: seq<(nat, nat)>)
    requires EnvOk(e) && IsRun(e, states, turns) && AllFinished(states[|turns|])
    requires e.nthreads < 4 && forall i :: 0 <= i < 16 ==> e.node[i] == 3
    ensures Sum(states[|turns|].results) == 0
  {
    hide IsRun, EnvOk, Sum;
    NodeLength(e);
    EveryRunCounts(e, states, turns);
    NoneServed(e, 16);
  }

  lemma {:induction false} NoneServed(e: Env, n: nat)
    requires |e.node| == 16 && |e.outputR| == 17 && n <= 16 && e.nthreads < 4 && forall i :: 0 <= i < 16 ==> e.node[i] == 3
    ensures ServedMatches(e, n) == 0
    decreases n
  {
    if n > 0 { NoneServed(e, n - 1); }
  }

  // ---- every run can end ----

  function PcWork(pc: Pc): nat {
    match pc
    case Partitioning => 3
    case AtBarrier => 2
    case Joining => 1
    case Finished => 0
  }

  function PcsWork(pcs: seq<Pc>): nat { if |pcs| == 0 then 0 else PcsWork(pcs[..|pcs| - 1]) + PcWork(pcs[|pcs| - 1]) }

  lemma {:induction false} PcsWorkUpdate(pcs: seq<Pc>, t: nat, pc: Pc)
    requires t < |pcs|
    ensures PcsWork(pcs[t := pc]) + PcWork(pcs[t]) == PcsWork(pcs) + PcWork(pc)
    decreases |pcs|
  {
    hide PcWork;
    var n := |pcs| - 1;
    if t < n {
      PcsWorkUpdate(pcs[..n], t, pc);
      assert pcs[t := pc][..n] == pcs[..n][t := pc];
    } else {
      assert pcs[t := pc][..n] == pcs[..n];
    }
  }

  // A partition is one task, and then at most sixteen.
  function Left(s: State): nat { 17 * |s.parts| + |s.joins| + PcsWork(s.pcs) }

  lemma {:induction false} FewTasks(r: seq<Tuple>, q: seq<Tuple>, i: nat, baseR: nat, baseS: nat, node: nat, n: nat)
    ensures |JoinTasks(r, q, i, baseR, baseS, node, n)| <= n
    decreases n
  {
    hide PartOf, Parts;
    if n > 0 { FewTasks(r, q, i, baseR, baseS, node, n - 1); }
  }

  // Every step leaves less to do ...
  lemma StepCounts(e: Env, s: State, s': State, t: nat, k: nat)
    requires Shaped(e) && t < |s.pcs| == |s.results| && Next(e, s, s', t, k)
    ensures Left(s') < Left(s)
  {
    hide PcsWork, JoinTasks, JoinCount, Clustered;
    if PartitionStep(e, s, s', t, k) {
      var i := s.parts[k];
      FewTasks(TaskTuples(s.scratch, e.outputR, i), TaskTuples(e.tmpS, e.outputS, i), i, e.outputR[i], e.outputS[i], ThreadNode(t), 16);
    } else if !JoinStep(e, s, s', t, k) {
      PcsWorkUpdate(s.pcs, t, s'.pcs[t]);
      assert s'.pcs == s.pcs[t := s'.pcs[t]];
    }
  }

  // ... and until all threads have finished there is a next one.
  lemma SomeoneMoves(e: Env, s: State) returns (s': State, t: nat, k: nat)
    requires EnvOk(e) && Inv(e, s) && exists u :: 0 <= u < |s.pcs| && !s.pcs[u].Finished?
    ensures t < |s.pcs| == |s.results| && Next(e, s, s', t, k)
  {
    hide PartOf, Start, JoinCount, PartsValue, JoinsValue, ServedMatches, Sum, Bounds, Clustered, JoinTasks, TaskTuples, Placed;
    k := 0;
    if u :| 0 <= u < |s.pcs| && s.pcs[u].Partitioning? {
      t := u;
      if a :| 0 <= a < |s.parts| && e.node[s.parts[a]] == ThreadNode(t) {
        k := a;
        s' := PartitionNext(e, s, t, k);
      } else {
        s' := s.(pcs := s.pcs[t := AtBarrier]);
      }
    } else if u :| 0 <= u < |s.pcs| && s.pcs[u].AtBarrier? {
      t := u;
      s' := s.(pcs := s.pcs[t := Joining]);
    } else {
      var u :| 0 <= u < |s.pcs| && !s.pcs[u].Finished?;
      t := u;
      if a :| 0 <= a < |s.joins| && s.joins[a].node == ThreadNode(t) {
        k := a;
        s' := JoinNext(e, s, t, k);
      } else {
        s' := s.(pcs := s.pcs[t := Finished]);
      }
    }
  }

  lemma PartitionNext(e: Env, s: State, t: nat, k: nat) returns (s': State)
    requires EnvOk(e) && Inv(e, s) && t < |s.pcs| && s.pcs[t].Partitioning?
    requires k < |s.parts| && s.parts[k] < |e.node| && e.node[s.parts[k]] == ThreadNode(t)
    ensures PartitionStep(e, s, s', t, k)
  {
    hide PartOf, Start, TaskCount, PartsValue, JoinsValue, ServedMatches, Sum, Bounds, JoinTasks, TaskTuples, LeftOk, JoinOk, AllPlaced,
      Elsewhere, JoinsApart, Served;
    var i := s.parts[k];
    TaskIsPart(e.R, e.tmpR, e.outputR, i);
    TaskIsPart(e.S, e.tmpS, e.outputS, i);
    RegionsApart(e.R, e.tmpR, e.outputR, i, 16);
    RegionsApart(e.S, e.tmpS, e.outputS, i, 16);
    var r, q := PartOf(e.R, PASS1, i), PartOf(e.S, PASS1, i);
    var mR, dstR := ScatterExists(s.relR, r, PASS2, SMALL_PADDING_TUPLES, e.outputR[i], |r|);
    var mS, dstS := ScatterExists(s.relS, q, PASS2, SMALL_PADDING_TUPLES, e.outputS[i], |q|);
    s' := s.(relR := mR, relS := mS, parts := Without(s.parts, k),
             joins := s.joins + JoinTasks(r, q, i, e.outputR[i], e.outputS[i], ThreadNode(t), 16));
  }

  lemma JoinNext(e: Env, s: State, t: nat, k: nat) returns (s': State)
    requires EnvOk(e) && Inv(e, s) && t < |s.pcs| && s.pcs[t].Joining?
    requires k < |s.joins| && s.joins[k].node == ThreadNode(t)
    ensures t < |s.results| && JoinStep(e, s, s', t, k)
  {
    hide PartOf, Start, JoinCount, PartsValue, JoinsValue, ServedMatches, Sum, Bounds;
    var task := s.joins[k];
    assert JoinOk(e, s, task);
    var at := task.atR + task.numR;
    s' := s.(joins := Without(s.joins, k),
             scratch := if e.algorithm.HistogramSimd? then s.scratch[at := Tuple(0, s.scratch[at].payloadID)] else s.scratch,
             results := s.results[t := s.results[t] + TaskCount(e.algorithm, s.relR[task.atR..at],
                                                                s.relS[task.atS..task.atS + task.numS], s.scratch[at])]);
  }

  ghost predicate Steps(e: Env, states: seq<State>, turns: seq<(nat, nat)>)
    requires Shaped(e)
  {
    |states| == |turns| + 1 && forall n :: 0 <= n < |turns| ==> RunStep(e, states[n], states[n + 1], turns[n])
  }

  // So every state can be run to an end ...
  lemma {:induction false} CanFinish(e: Env, s: State) returns (states: seq<State>, turns: seq<(nat, nat)>)
    requires EnvOk(e) && Inv(e, s)
    ensures Steps(e, states, turns) && states[0] == s && AllFinished(states[|turns|])
    decreases Left(s)
  {
    hide Inv, EnvOk, Next, Left;
    if AllFinished(s) {
      states, turns := [s], [];
    } else {
      ShapedEnv(e);
      var s', t, k := SomeoneMoves(e, s);
      StepCounts(e, s, s', t, k);
      KeepsInv(e, s, s', t, k);
      var states', turns' := CanFinish(e, s');
      states, turns := [s] + states', [(t, k)] + turns';
      forall n | 0 <= n < |turns| ensures RunStep(e, states[n], states[n + 1], turns[n]) {
        if n > 0 { assert RunStep(e, states'[n - 1], states'[n - 1 + 1], turns'[n - 1]); }
      }
      assert states[|turns|] == states'[|turns'|];
    }
  }

  lemma ShapedEnv(e: Env)
    requires EnvOk(e)
    ensures Shaped(e)
  {
  }

  // ... and every two relations can be joined, on any number of threads, with the memory on any nodes.
  lemma SomeRun(R: seq<Tuple>, S: seq<Tuple>, node: seq<nat>, nthreads: nat, algorithm: Algorithm)
    returns (e: Env, states: seq<State>, turns: seq<(nat, nat)>)
    requires nthreads > 0 && |node| == 16 && forall i :: 0 <= i < 16 ==> node[i] < NUMA_REGIONS
    ensures e.R == R && e.S == S && e.node == node && e.nthreads == nthreads && e.algorithm == algorithm
    ensures EnvOk(e) && IsRun(e, states, turns) && AllFinished(states[|turns|])
  {
    hide Bounds, Inv, Next;
    var tmpR, outputR := SomeFirstPass(R);
    var tmpS, outputS := SomeFirstPass(S);
    BoundsLength(R, tmpR, outputR);
    BoundsLength(S, tmpS, outputS);
    e := Env(R, S, tmpR, tmpS, outputR, outputS, node, nthreads, algorithm);
    var s := State(tmpR, tmpS, tmpR, PartTasks(e, 16), [], seq(nthreads, _ => Partitioning), seq(nthreads, _ => 0));
    StartInv(e, s);
    states, turns := CanFinish(e, s);
  }

  lemma SomeFirstPass(rel: seq<Tuple>) returns (tmp: seq<Tuple>, output: seq<nat>)
    ensures Bounds(rel, tmp, output) && |tmp| == |rel| + 16 * PADDING_TUPLES
  {
    hide Start, PartOf, Placed;
    var blank := seq(|rel| + 16 * PADDING_TUPLES, _ => Tuple(0, 0));
    var cursors;
    tmp, cursors := ScatterExists(blank, rel, PASS1, PADDING_TUPLES, 0, |rel|);
    output := seq(17, i requires 0 <= i < 17 => Start(rel, PASS1, PADDING_TUPLES, i));
    assert rel[..|rel|] == rel;
    forall i | 0 <= i < 16
      ensures output[i + 1] - output[i] - PADDING_TUPLES == |PartOf(rel, PASS1, i)| && Placed(tmp, PartOf(rel, PASS1, i), output[i])
    {
      StartNext(rel, PASS1, PADDING_TUPLES, i);
      assert Placed(tmp, PartOf(rel[..|rel|], PASS1, i), 0 + Start(rel, PASS1, PADDING_TUPLES, i));
    }
  }

  ghost predicate IsFinishedRun(e: Env, states: seq<State>, turns: seq<(nat, nat)>) {
    EnvOk(e) && IsRun(e, states, turns) && |states| == |turns| + 1 && AllFinished(states[|turns|])
  }

  // Every finished run of these relations on so many threads reports the nested-loop count.
  ghost predicate AlwaysRight(R: seq<Tuple>, S: seq<Tuple>, nthreads: nat, algorithm: Algorithm) {
    forall e: Env, states: seq<State>, turns: seq<(nat, nat)> ::
      (IsFinishedRun(e, states, turns) && e.R == R && e.S == S && e.nthreads == nthreads && e.algorithm == algorithm) ==>
        Sum(states[|turns|].results) == JoinCount(R, S)
  }

  // Relations with a match are joined right by every run, wherever their memory is, exactly if there are at least
  // four threads.
  lemma FourThreadsExactly(R: seq<Tuple>, S: seq<Tuple>, nthreads: nat, algorithm: Algorithm)
    requires nthreads > 0 && JoinCount(R, S) > 0 && !algorithm.HistogramSimd?
    ensures AlwaysRight(R, S, nthreads, algorithm) <==> nthreads >= 4
  {
    hide IsRun, EnvOk, Sum, JoinCount, Served;
    if nthreads >= 4 {
      forall e: Env, states: seq<State>, turns: seq<(nat, nat)> |
        IsFinishedRun(e, states, turns) && e.R == R && e.S == S && e.nthreads == nthreads && e.algorithm == algorithm
        ensures Sum(states[|turns|].results) == JoinCount(R, S)
      {
        FourThreadsServe(e);
        OutputLength(e);
        EveryRunJoins(e, states, turns);
      }
    } else {
      var e, states, turns := SomeRun(R, S, seq(16, _ => 3), nthreads, algorithm);
      ThreeThreadsMiss(e, states, turns);
      RunLength(e, states, turns);
      assert IsFinishedRun(e, states, turns) && Sum(states[|turns|].results) != JoinCount(R, S);
    }
  }

  lemma OutputLength(e: Env)
    requires EnvOk(e)
    ensures |e.outputR| == 17
  {
  }

  // One tuple in each relation, with the same key, three threads, the memory on the fourth node.
  lemma ThreeThreadsExample(t: Tuple, algorithm: Algorithm) returns (e: Env, states: seq<State>, turns: seq<(nat, nat)>)
    ensures e.R == e.S == [t] && e.nthreads == 3 && e.algorithm == algorithm && JoinCount(e.R, e.S) == 1
    ensures EnvOk(e) && IsRun(e, states, turns) && AllFinished(states[|turns|]) && Sum(states[|turns|].results) == 0
  {
    hide IsRun, EnvOk, Sum;
    e, states, turns := SomeRun([t], [t], seq(16, _ => 3), 3, algorithm);
    ThreeThreadsMiss(e, states, turns);
    JoinOne([t], t);
    CountOne(t, t.key);
  }

  // ---- both passes ----

  // The first pass of one relation, run to its end.
  ghost predicate FirstPass(rel: seq<Tuple>, nthreads: nat, memory: seq<Tuple>, schedule: seq<nat>, tmp: seq<Tuple>, output: seq<nat>) {
    && nthreads > 0 && |memory| == |rel| + 16 * PADDING_TUPLES
    && var j := ParallelPartition.Job(Slices(rel, nthreads), PASS1, PADDING_TUPLES);
    && ParallelPartition.Inv(j, ParallelPartition.StartState(j, memory))
    && var s := ParallelPartition.Run(j, ParallelPartition.StartState(j, memory), schedule);
    && |s.pcs| == |s.output| == nthreads && (forall t :: 0 <= t < nthreads ==> s.pcs[t].Finished?)
    && tmp == s.tmp && output == s.output[0]
  }

  // Whatever the schedules of both passes are: with four threads or more the results add up to the
  // nested-loop count.
  lemma EveryJoinCounts(e: Env, memR: seq<Tuple>, memS: seq<Tuple>, scheduleR: seq<nat>, scheduleS: seq<nat>,
                        states: seq<State>, turns: seq<(nat, nat)>)
    requires FirstPass(e.R, e.nthreads, memR, scheduleR, e.tmpR, e.outputR)
    requires FirstPass(e.S, e.nthreads, memS, scheduleS, e.tmpS, e.outputS)
    requires Shaped(e) && (forall i :: 0 <= i < 16 ==> e.node[i] < NUMA_REGIONS) && e.nthreads >= 4
    requires TasksRight(e) && IsRun(e, states, turns) && AllFinished(states[|turns|])
    ensures Sum(states[|turns|].results) == JoinCount(e.R, e.S)
  {
    hide IsRun, Sum, JoinCount, Bounds, FirstPass, TasksRight, Served;
    FirstPassEnds(e.R, e.nthreads, memR, scheduleR, e.tmpR, e.outputR);
    FirstPassEnds(e.S, e.nthreads, memS, scheduleS, e.tmpS, e.outputS);
    FourThreadsServe(e);
    EveryRunJoins(e, states, turns);
  }

  lemma FirstPassEnds(rel: seq<Tuple>, nthreads: nat, memory: seq<Tuple>, schedule: seq<nat>, tmp: seq<Tuple>, output: seq<nat>)
    requires FirstPass(rel, nthreads, memory, schedule, tmp, output)
    ensures Bounds(rel, tmp, output) && |tmp| >= |rel| + 16 * PADDING_TUPLES
  {
    hide Bounds;
    var j := ParallelPartition.Job(Slices(rel, nthreads), PASS1, PADDING_TUPLES);
    SlicesTile(rel, nthreads, PADDING_TUPLES);
    ParallelPartition.EveryRunPartitions(j, memory, schedule);
    FirstPassGivesBounds(rel, nthreads, tmp, output);
  }
}

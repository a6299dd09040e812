// parallel_radix_partition (hashing/joins/parallel_radix_join.cpp:739-806) as a machine of threads: every
// thread counts its slice of the relation, waits for the others, works out where its tuples of each class go,
// and copies them.  A step of the counting or the copying handles one tuple.
module ParallelPartition {
  import opened Joins
  import opened Clusters
  import opened Slicing

  // The slices of the relation, thread by thread.
  datatype Job = Job(slices: seq<seq<Tuple>>, z: Radix, pad: nat)

  datatype Pc =
    | Counting(i: nat)
    | AtBarrier
    | Copying(i: nat, dst: seq<nat>)
    | Finished

  datatype State = State(pcs: seq<Pc>, hist: seq<seq<nat>>, output: seq<seq<nat>>, tmp: seq<Tuple>)

  function Whole(j: Job): seq<Tuple> { Before(j.slices, |j.slices|) }

  function Sum(h: seq<nat>, c: nat): nat
    requires c <= |h|
  {
    if c == 0 then 0 else Sum(h, c - 1) + h[c - 1]
  }

  // The local prefix sums.
  function PrefixSums(h: seq<nat>): seq<nat> { seq(|h|, c requires 0 <= c < |h| => Sum(h, c + 1)) }

  // Column c of the rows below n, added up; a column left of the first adds nothing.
  function Column(hist: seq<seq<nat>>, n: nat, c: int): nat
    requires n <= |hist| && forall u :: 0 <= u < |hist| ==> c < |hist[u]|
  {
    if n == 0 || c < 0 then 0 else Column(hist, n - 1, c) + hist[n - 1][c]
  }

  // The same for the rows from t on.
  function ColumnFrom(hist: seq<seq<nat>>, t: nat, c: int): nat
    requires t <= |hist| && forall u :: 0 <= u < |hist| ==> c < |hist[u]|
    decreases |hist| - t
  {
    if t == |hist| || c < 0 then 0 else hist[t][c] + ColumnFrom(hist, t + 1, c)
  }

  // output[c] of thread t: column c of the threads before it, the column to its left of the others.
  function OutputAt(hist: seq<seq<nat>>, t: nat, c: nat, pad: nat): nat
    requires t <= |hist| && forall u :: 0 <= u < |hist| ==> c < |hist[u]|
  {
    Column(hist, t, c) + ColumnFrom(hist, t, c - 1) + c * pad
  }

  predicate InRange(j: Job, s: State) {
    && |s.pcs| == |s.hist| == |s.output| == |j.slices| && (forall t :: 0 <= t < |s.hist| ==> |s.hist[t]| == j.z.fan)
    && forall t :: 0 <= t < |s.pcs| ==> PcInRange(j, s.pcs[t], t)
  }

  predicate PcInRange(j: Job, pc: Pc, t: nat)
    requires t < |j.slices|
  {
    match pc
    case Counting(i) => i <= |j.slices[t]|
    case Copying(i, dst) => i <= |j.slices[t]| && |dst| == j.z.fan
    case _ => true
  }

  predicate BarrierOpen(s: State) { forall t :: 0 <= t < |s.pcs| ==> !s.pcs[t].Counting? }

  function Outputs(j: Job, s: State, t: nat): seq<nat>
    requires InRange(j, s) && t < |j.slices|
  {
    seq(j.z.fan, c requires 0 <= c < j.z.fan => OutputAt(s.hist, t, c, j.pad)) + [|Whole(j)| + j.z.fan * j.pad]
  }

  // The copying thread's next position is in memory; Step below stands still otherwise.
  function Step(j: Job, s: State, t: nat): State
    requires InRange(j, s) && t < |j.slices|
  {
    var slice := j.slices[t];
    match s.pcs[t]
    case Counting(i) =>
      if i < |slice| then
        var idx := j.z.Digit(slice[i].key);
        s.(pcs := s.pcs[t := Counting(i + 1)], hist := s.hist[t := s.hist[t][idx := s.hist[t][idx] + 1]])
      else s.(pcs := s.pcs[t := AtBarrier], hist := s.hist[t := PrefixSums(s.hist[t])])
    case AtBarrier =>
      if BarrierOpen(s) then
        var output := Outputs(j, s, t);
        s.(pcs := s.pcs[t := Copying(0, output[..j.z.fan])], output := s.output[t := output])
      else s
    case Copying(i, dst) =>
      if i == |slice| then s.(pcs := s.pcs[t := Finished])
      else
        var idx := j.z.Digit(slice[i].key);
        if dst[idx] < |s.tmp| then
          s.(pcs := s.pcs[t := Copying(i + 1, dst[idx := dst[idx] + 1])], tmp := s.tmp[dst[idx] := slice[i]])
        else s
    case Finished => s
  }

  // ---- where every thread's tuples of every class go ----

  // Behind the classes before, and behind the tuples of the same class in earlier slices.
  function StartOf(j: Job, t: nat, c: nat): nat
    requires t <= |j.slices|
  {
    Start(Whole(j), j.z, j.pad, c) + |PartOf(Before(j.slices, t), j.z, c)|
  }

  // A thread's range ends where the next thread's range of the same class starts.
  lemma RangesAdjoin(j: Job, t: nat, c: nat)
    requires t < |j.slices|
    ensures StartOf(j, t + 1, c) == StartOf(j, t, c) + |PartOf(j.slices[t], j.z, c)|
  {
    PartAppend(Before(j.slices, t), j.slices[t], j.z, c);
  }

  lemma {:induction false} RangesAscend(j: Job, t: nat, u: nat, c: nat)
    requires t <= u <= |j.slices|
    ensures StartOf(j, t, c) <= StartOf(j, u, c)
    decreases u
  {
    hide PartOf, Start;
    if t < u {
      RangesAscend(j, t, u - 1, c);
      RangesAdjoin(j, u - 1, c);
    }
  }

  // Distinct (thread, class) pairs have disjoint ranges, class by class and thread by thread.
  lemma RangesDisjoint(j: Job, t: nat, c: nat, u: nat, d: nat)
    requires t < |j.slices| && u < |j.slices| && (c < d || (c == d && t < u))
    ensures StartOf(j, t, c) + |PartOf(j.slices[t], j.z, c)| <= StartOf(j, u, d)
  {
    hide PartOf, Start;
    RangesAdjoin(j, t, c);
    if c == d {
      RangesAscend(j, t + 1, u, c);
    } else {
      RangesAscend(j, t + 1, |j.slices|, c);
      StartMonotone(Whole(j), j.z, j.pad, c, d);
      FirstRange(j, d);
      RangesAscend(j, 0, u, d);
    }
  }

  lemma FirstRange(j: Job, c: nat)
    ensures StartOf(j, 0, c) == Start(Whole(j), j.z, j.pad, c)
    ensures StartOf(j, |j.slices|, c) == Start(Whole(j), j.z, j.pad, c) + |PartOf(Whole(j), j.z, c)|
  {
    assert PartOf([], j.z, c) == [];
  }

  // The last range ends within the padded relation.
  lemma RangesFit(j: Job, t: nat, c: nat)
    requires t < |j.slices| && c < j.z.fan
    ensures StartOf(j, t, c) + |PartOf(j.slices[t], j.z, c)| <= |Whole(j)| + j.z.fan * j.pad
  {
    hide PartOf, Start;
    RangesAdjoin(j, t, c);
    RangesAscend(j, t + 1, |j.slices|, c);
    FirstRange(j, c);
    StartMonotone(Whole(j), j.z, j.pad, c, j.z.fan);
    StartTotal(Whole(j), j.z, j.pad);
  }

  // ---- the histograms give these places ----

  ghost predicate AllSummed(j: Job, hist: seq<seq<nat>>)
    requires |hist| == |j.slices|
  {
    && (forall u :: 0 <= u < |hist| ==> |hist[u]| == j.z.fan)
    && (forall u :: 0 <= u < |hist| ==> Summed(hist[u], j.slices[u], j.z))
  }

  ghost predicate Summed(h: seq<nat>, slice: seq<Tuple>, z: Radix) {
    |h| == z.fan && forall c :: 0 <= c < z.fan ==> h[c] == |Parts(slice, z, c + 1)|
  }

  lemma {:induction false} SumCounts(h: seq<nat>, slice: seq<Tuple>, z: Radix, c: nat)
    requires Counted(h, slice, z) && c <= z.fan
    ensures Sum(h, c) == |Parts(slice, z, c)|
    decreases c
  {
    hide PartOf, Radix.Digit;
    if c > 0 { SumCounts(h, slice, z, c - 1); }
  }

  lemma PrefixSumsCount(h: seq<nat>, slice: seq<Tuple>, z: Radix)
    requires Counted(h, slice, z)
    ensures Summed(PrefixSums(h), slice, z)
  {
    hide PartOf, Radix.Digit, Parts;
    forall c | 0 <= c < z.fan ensures PrefixSums(h)[c] == |Parts(slice, z, c + 1)| {
      SumCounts(h, slice, z, c + 1);
    }
  }

  lemma {:induction false} PartsAppendLength(s: seq<Tuple>, t: seq<Tuple>, z: Radix, c: nat)
    ensures |Parts(s + t, z, c)| == |Parts(s, z, c)| + |Parts(t, z, c)|
    decreases c
  {
    hide PartOf, Radix.Digit;
    if c > 0 {
      PartsAppendLength(s, t, z, c - 1);
      PartAppend(s, t, z, c - 1);
    }
  }

  // A column of prefix sums counts the tuples of the classes up to it.
  lemma {:induction false} ColumnCounts(j: Job, hist: seq<seq<nat>>, n: nat, c: int)
    requires |hist| == |j.slices| && n <= |hist| && -1 <= c < j.z.fan && AllSummed(j, hist)
    ensures Column(hist, n, c) == |Parts(Before(j.slices, n), j.z, c + 1)|
    decreases n
  {
    hide PartOf, Radix.Digit;
    if n == 0 {
      PartsOfNone(j.z, c + 1);
    } else if c >= 0 {
      ColumnCounts(j, hist, n - 1, c);
      PartsAppendLength(Before(j.slices, n - 1), j.slices[n - 1], j.z, c + 1);
      assert Summed(hist[n - 1], j.slices[n - 1], j.z);
    }
  }

  lemma {:induction false} ColumnsAddUp(hist: seq<seq<nat>>, t: nat, c: int)
    requires t <= |hist| && forall u :: 0 <= u < |hist| ==> c < |hist[u]|
    ensures Column(hist, t, c) + ColumnFrom(hist, t, c) == Column(hist, |hist|, c)
    decreases |hist| - t
  {
    if t < |hist| { ColumnsAddUp(hist, t + 1, c); }
  }

  lemma OutputIsStart(j: Job, hist: seq<seq<nat>>, t: nat, c: nat)
    requires |hist| == |j.slices| && t < |hist| && c < j.z.fan && AllSummed(j, hist)
    ensures OutputAt(hist, t, c, j.pad) == StartOf(j, t, c)
  {
    hide PartOf, Radix.Digit, Start, Column, ColumnFrom;
    ColumnCounts(j, hist, t, c);
    ColumnCounts(j, hist, t, c - 1);
    ColumnCounts(j, hist, |hist|, c - 1);
    ColumnsAddUp(hist, t, c - 1);
    StartIs(Whole(j), j.z, j.pad, c);
    var here := Before(j.slices, t);
    assert Parts(here, j.z, c + 1) == Parts(here, j.z, c) + PartOf(here, j.z, c);
  }

  // ---- the invariant ----

  function Progress(pc: Pc, slice: seq<Tuple>): nat {
    match pc
    case Copying(i, _) => if i <= |slice| then i else |slice|
    case Finished => |slice|
    case _ => 0
  }

  ghost predicate HistOk(j: Job, s: State, t: nat)
    requires InRange(j, s) && t < |j.slices|
  {
    if s.pcs[t].Counting? then Counted(s.hist[t], j.slices[t][..s.pcs[t].i], j.z) else Summed(s.hist[t], j.slices[t], j.z)
  }

  ghost predicate DstOk(j: Job, s: State, t: nat)
    requires InRange(j, s) && t < |j.slices|
  {
    && (s.pcs[t].Copying? ==> BarrierOpen(s) && forall c :: 0 <= c < j.z.fan ==>
          s.pcs[t].dst[c] == StartOf(j, t, c) + |PartOf(j.slices[t][..s.pcs[t].i], j.z, c)|)
    && (s.pcs[t].Copying? || s.pcs[t].Finished? ==> OutputOk(j, s.output[t], t))
  }

  ghost predicate OutputOk(j: Job, output: seq<nat>, t: nat)
    requires t < |j.slices|
  {
    && |output| == j.z.fan + 1 && (forall c :: 0 <= c < j.z.fan ==> output[c] == StartOf(j, t, c))
    && output[j.z.fan] == |Whole(j)| + j.z.fan * j.pad
  }

  // What thread t has copied of class c is in its place.
  ghost predicate CopiedOk(j: Job, s: State, t: nat, c: nat)
    requires InRange(j, s) && t < |j.slices|
  {
    Placed(s.tmp, PartOf(j.slices[t][..Progress(s.pcs[t], j.slices[t])], j.z, c), StartOf(j, t, c))
  }

  ghost predicate AllCopied(j: Job, s: State)
    requires InRange(j, s)
  {
    forall t, c :: 0 <= t < |j.slices| && 0 <= c < j.z.fan ==> CopiedOk(j, s, t, c)
  }

  ghost predicate Inv(j: Job, s: State) {
    && InRange(j, s) && |Whole(j)| + j.z.fan * j.pad <= |s.tmp|
    && (forall t :: 0 <= t < |j.slices| ==> HistOk(j, s, t) && DstOk(j, s, t))
    && AllCopied(j, s)
  }

  lemma CountingStep(j: Job, s: State, t: nat)
    requires Inv(j, s) && t < |j.slices| && s.pcs[t].Counting?
    ensures Inv(j, Step(j, s, t))
  {
    hide PartOf, Radix.Digit, StartOf, Counted, Summed, Placed, OutputOk;
    assert HistOk(j, s, t) && DstOk(j, s, t);
    var s', slice := Step(j, s, t), j.slices[t];
    if s.pcs[t].i < |slice| {
      CountedLength(s.hist[t], slice[..s.pcs[t].i], j.z);
      CountStep(s.hist[t], slice, j.z, s.pcs[t].i);
    } else {
      assert slice[..|slice|] == slice;
      PrefixSumsCount(s.hist[t], slice, j.z);
    }
    forall u | 0 <= u < |j.slices| ensures HistOk(j, s', u) && DstOk(j, s', u) {
      assert HistOk(j, s, u) && DstOk(j, s, u);
    }
    forall u, c | 0 <= u < |j.slices| && 0 <= c < j.z.fan ensures CopiedOk(j, s', u, c) {
      assert CopiedOk(j, s, u, c);
    }
  }

  lemma CountedLength(h: seq<nat>, slice: seq<Tuple>, z: Radix)
    requires Counted(h, slice, z)
    ensures |h| == z.fan
  {
  }

  lemma BarrierStep(j: Job, s: State, t: nat)
    requires Inv(j, s) && t < |j.slices| && s.pcs[t].AtBarrier?
    ensures Inv(j, Step(j, s, t))
    ensures BarrierOpen(s) ==> Step(j, s, t).pcs[t].Copying?
  {
    hide PartOf, Radix.Digit, StartOf, Counted, Summed, Placed, OutputAt;
    if BarrierOpen(s) {
      var s' := Step(j, s, t);
      forall u | 0 <= u < |j.slices| ensures Summed(s.hist[u], j.slices[u], j.z) {
        assert HistOk(j, s, u);
      }
      forall c | 0 <= c < j.z.fan ensures OutputAt(s.hist, t, c, j.pad) == StartOf(j, t, c) {
        OutputIsStart(j, s.hist, t, c);
      }
      NothingYet(j, t);
      forall u | 0 <= u < |j.slices| ensures HistOk(j, s', u) && DstOk(j, s', u) {
        assert HistOk(j, s, u) && DstOk(j, s, u);
      }
      forall u, c | 0 <= u < |j.slices| && 0 <= c < j.z.fan ensures CopiedOk(j, s', u, c) {
        assert CopiedOk(j, s, u, c);
      }
    }
  }

  lemma NothingYet(j: Job, t: nat)
    requires t < |j.slices|
    ensures forall c :: 0 <= c < j.z.fan ==> |PartOf(j.slices[t][..0], j.z, c)| == 0
  {
  }

  lemma CopyingStep(j: Job, s: State, t: nat)
    requires Inv(j, s) && t < |j.slices| && s.pcs[t].Copying?
    ensures Inv(j, Step(j, s, t))
    ensures s.pcs[t].i < |j.slices[t]| ==> Step(j, s, t).pcs[t] != s.pcs[t]
  {
    hide PartOf, Radix.Digit, StartOf, Counted, Summed, Placed, OutputOk;
    assert HistOk(j, s, t) && DstOk(j, s, t);
    var s', slice, i, dst := Step(j, s, t), j.slices[t], s.pcs[t].i, s.pcs[t].dst;
    if i < |slice| {
      var idx := j.z.Digit(slice[i].key);
      PrefixPart(slice, i, j.z, idx);
      RangesFit(j, t, idx);
      forall c | 0 <= c < j.z.fan
        ensures |PartOf(slice[..i + 1], j.z, c)| == |PartOf(slice[..i], j.z, c)| + if c == idx then 1 else 0
      {
        assert slice[..i + 1] == slice[..i] + [slice[i]];
        PartLast(slice[..i], slice[i], j.z, c);
      }
      forall u, c | 0 <= u < |j.slices| && 0 <= c < j.z.fan ensures CopiedOk(j, s', u, c) {
        assert CopiedOk(j, s, u, c);
        CopyOne(j, s, t, u, c);
      }
    } else {
      forall u, c | 0 <= u < |j.slices| && 0 <= c < j.z.fan ensures CopiedOk(j, s', u, c) {
        assert CopiedOk(j, s, u, c);
      }
    }
    forall u | 0 <= u < |j.slices| ensures HistOk(j, s', u) && DstOk(j, s', u) {
      assert HistOk(j, s, u) && DstOk(j, s, u);
    }
  }

  // The tuple goes to the next place of its own range and to no other range.
  lemma CopyOne(j: Job, s: State, t: nat, u: nat, c: nat)
    requires InRange(j, s) && t < |j.slices| && u < |j.slices| && c < j.z.fan && CopiedOk(j, s, u, c)
    requires s.pcs[t].Copying? && s.pcs[t].i < |j.slices[t]|
    requires var idx := j.z.Digit(j.slices[t][s.pcs[t].i].key);
             && s.pcs[t].dst[idx] == StartOf(j, t, idx) + |PartOf(j.slices[t][..s.pcs[t].i], j.z, idx)|
             && s.pcs[t].dst[idx] < |s.tmp|
    requires InRange(j, Step(j, s, t))
    ensures CopiedOk(j, Step(j, s, t), u, c)
  {
    hide PartOf, Radix.Digit, StartOf, Placed;
    var slice, i := j.slices[t], s.pcs[t].i;
    var idx := j.z.Digit(slice[i].key);
    var at := s.pcs[t].dst[idx];
    assert slice[..i + 1] == slice[..i] + [slice[i]];
    PartLast(slice[..i], slice[i], j.z, c);
    PrefixPart(slice, i, j.z, idx);
    var part := PartOf(j.slices[u][..Progress(s.pcs[u], j.slices[u])], j.z, c);
    PrefixPart(j.slices[u], Progress(s.pcs[u], j.slices[u]), j.z, c);
    if u == t && c == idx {
      PlaceNext(s.tmp, part, StartOf(j, u, c), slice[i]);
    } else {
      if c < idx || (c == idx && u < t) { RangesDisjoint(j, u, c, t, idx); } else { RangesDisjoint(j, t, idx, u, c); }
      PlaceOther(s.tmp, part, StartOf(j, u, c), at, slice[i]);
      assert part + [] == part;
    }
  }

  lemma KeepsInv(j: Job, s: State, t: nat)
    requires Inv(j, s) && t < |j.slices|
    ensures Inv(j, Step(j, s, t))
  {
    hide HistOk, DstOk, CopiedOk, StartOf;
    match s.pcs[t]
    case Counting(_) => CountingStep(j, s, t);
    case AtBarrier => BarrierStep(j, s, t);
    case Copying(_, _) => CopyingStep(j, s, t);
    case Finished =>
  }

  // ---- runs ----

  function StartState(j: Job, tmp: seq<Tuple>): State {
    State(seq(|j.slices|, _ => Counting(0)), seq(|j.slices|, _ => seq(j.z.fan, _ => 0)), seq(|j.slices|, _ => []), tmp)
  }

  lemma StartInv(j: Job, tmp: seq<Tuple>)
    requires |Whole(j)| + j.z.fan * j.pad <= |tmp|
    ensures Inv(j, StartState(j, tmp))
  {
    hide StartOf;
    var s := StartState(j, tmp);
    forall t | 0 <= t < |j.slices| ensures HistOk(j, s, t) && DstOk(j, s, t) {
      NothingYet(j, t);
    }
    forall t, c | 0 <= t < |j.slices| && 0 <= c < j.z.fan ensures CopiedOk(j, s, t, c) {
      NothingYet(j, t);
      RangesFit(j, t, c);
    }
  }

  ghost function Run(j: Job, s: State, schedule: seq<nat>): (r: State)
    requires Inv(j, s)
    ensures Inv(j, r)
  {
    if |schedule| == 0 then s
    else
      var before, t := Run(j, s, schedule[..|schedule| - 1]), schedule[|schedule| - 1];
      if t < |j.slices| then
        KeepsInv(j, before, t);
        Step(j, before, t)
      else before
  }

  // The ranges of one class, thread after thread, hold the class's tuples of the slices so far.
  lemma {:induction false} ClassFilled(j: Job, s: State, t: nat, c: nat)
    requires Inv(j, s) && t <= |j.slices| && c < j.z.fan && forall u :: 0 <= u < |j.slices| ==> s.pcs[u].Finished?
    ensures Placed(s.tmp, PartOf(Before(j.slices, t), j.z, c), Start(Whole(j), j.z, j.pad, c))
    decreases t
  {
    hide PartOf, Radix.Digit, Start, HistOk, DstOk;
    FirstRange(j, c);
    if t == 0 {
      StartMonotone(Whole(j), j.z, j.pad, c, j.z.fan);
      StartTotal(Whole(j), j.z, j.pad);
      EmptyPlaced(s.tmp, j.z, c, Start(Whole(j), j.z, j.pad, c));
    } else {
      ClassFilled(j, s, t - 1, c);
      assert CopiedOk(j, s, t - 1, c);
      assert j.slices[t - 1][..|j.slices[t - 1]|] == j.slices[t - 1];
      PartAppend(Before(j.slices, t - 1), j.slices[t - 1], j.z, c);
      PlacedJoin(s.tmp, PartOf(Before(j.slices, t - 1), j.z, c), PartOf(j.slices[t - 1], j.z, c), Start(Whole(j), j.z, j.pad, c));
    }
  }

  lemma EmptyPlaced(out: seq<Tuple>, z: Radix, c: nat, at: nat)
    requires at <= |out|
    ensures Placed(out, PartOf([], z, c), at)
  {
  }

  // The partitioned relation: every class in one piece, in the order of the input, and the bounds thread 0
  // computed tell where.
  ghost predicate Partitioned(j: Job, tmp: seq<Tuple>, output: seq<nat>) {
    && |output| == j.z.fan + 1
    && (forall c :: 0 <= c <= j.z.fan ==> output[c] == Start(Whole(j), j.z, j.pad, c))
    && (forall c :: 0 <= c < j.z.fan ==>
          && output[c + 1] - output[c] - j.pad == |PartOf(Whole(j), j.z, c)|
          && Placed(tmp, PartOf(Whole(j), j.z, c), output[c]))
  }

  lemma EveryRunPartitions(j: Job, tmp: seq<Tuple>, schedule: seq<nat>)
    requires |j.slices| > 0 && |Whole(j)| + j.z.fan * j.pad <= |tmp|
    ensures Inv(j, StartState(j, tmp))
    ensures var s := Run(j, StartState(j, tmp), schedule);
            (forall t :: 0 <= t < |j.slices| ==> s.pcs[t].Finished?) ==> Partitioned(j, s.tmp, s.output[0])
  {
    hide PartOf, Radix.Digit, Start, HistOk, Placed, CopiedOk;
    StartInv(j, tmp);
    var s := Run(j, StartState(j, tmp), schedule);
    if forall t :: 0 <= t < |j.slices| ==> s.pcs[t].Finished? {
      assert DstOk(j, s, 0);
      StartTotal(Whole(j), j.z, j.pad);
      forall c | 0 <= c < j.z.fan
        ensures s.output[0][c] == Start(Whole(j), j.z, j.pad, c) && Placed(s.tmp, PartOf(Whole(j), j.z, c), s.output[0][c])
        ensures Start(Whole(j), j.z, j.pad, c + 1) == Start(Whole(j), j.z, j.pad, c) + |PartOf(Whole(j), j.z, c)| + j.pad
      {
        FirstRange(j, c);
        ClassFilled(j, s, |j.slices|, c);
        StartNext(Whole(j), j.z, j.pad, c);
      }
    }
  }

  // ---- every run can end ----

  function Work(j: Job, pc: Pc, t: nat): nat
    requires t < |j.slices| && PcInRange(j, pc, t)
  {
    var n := |j.slices[t]|;
    match pc
    case Counting(i) => (n - i) + n + 3
    case AtBarrier => n + 2
    case Copying(i, _) => (n - i) + 1
    case Finished => 0
  }

  predicate PcsInRange(j: Job, pcs: seq<Pc>) { |pcs| == |j.slices| && forall t :: 0 <= t < |pcs| ==> PcInRange(j, pcs[t], t) }

  // The steps all threads still have to take.
  function Left(j: Job, pcs: seq<Pc>, n: nat): nat
    requires PcsInRange(j, pcs) && n <= |pcs|
  {
    if n == 0 then 0 else Left(j, pcs, n - 1) + Work(j, pcs[n - 1], n - 1)
  }

  lemma {:induction false} LeftUpdate(j: Job, pcs: seq<Pc>, t: nat, pc: Pc, n: nat)
    requires PcsInRange(j, pcs) && n <= |pcs| && t < |pcs| && PcInRange(j, pc, t)
    ensures PcsInRange(j, pcs[t := pc])
    ensures Left(j, pcs[t := pc], n) + (if t < n then Work(j, pcs[t], t) else 0) ==
            Left(j, pcs, n) + if t < n then Work(j, pc, t) else 0
    decreases n
  {
    hide Work;
    if n > 0 { LeftUpdate(j, pcs, t, pc, n - 1); }
  }

  // A step that does anything leaves fewer to take ...
  lemma StepCounts(j: Job, s: State, t: nat)
    requires Inv(j, s) && t < |j.slices|
    ensures Inv(j, Step(j, s, t)) && PcsInRange(j, s.pcs) && PcsInRange(j, Step(j, s, t).pcs)
    ensures Step(j, s, t) == s || Left(j, Step(j, s, t).pcs, |s.pcs|) < Left(j, s.pcs, |s.pcs|)
  {
    hide HistOk, DstOk, CopiedOk, Outputs, PrefixSums;
    KeepsInv(j, s, t);
    var s' := Step(j, s, t);
    assert PcInRange(j, s.pcs[t], t) && PcInRange(j, s'.pcs[t], t);
    LeftUpdate(j, s.pcs, t, s'.pcs[t], |s.pcs|);
    assert s'.pcs == s.pcs[t := s'.pcs[t]];
  }

  // ... and until all have finished some thread's step does something.
  lemma SomeoneMoves(j: Job, s: State) returns (t: nat)
    requires Inv(j, s) && exists u :: 0 <= u < |s.pcs| && !s.pcs[u].Finished?
    ensures t < |j.slices| && Step(j, s, t) != s
  {
    hide HistOk, DstOk, CopiedOk;
    var u :| 0 <= u < |s.pcs| && !s.pcs[u].Finished?;
    t := u;
    if s.pcs[u].AtBarrier? && !BarrierOpen(s) {
      t :| 0 <= t < |s.pcs| && s.pcs[t].Counting?;
    }
    if s.pcs[t].Copying? { CopyingStep(j, s, t); }
    if s.pcs[t].AtBarrier? { BarrierStep(j, s, t); }
    assert Step(j, s, t).pcs[t] != s.pcs[t];
  }
}

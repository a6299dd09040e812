// The free list is lock-free (hashing/helper/concurrentqueue.h:1436-1516): a retry in one thread is the success of
// another, and of so many moves of all threads together one ends a call.
module FreeListProgress {
  import opened FreeList

  // ---- how far a thread is from moving the head, as long as nobody else moves it ----

  // What a thread has in hand when it raises the reference count of the node in front, and so makes the
  // compare-and-swaps of the n threads fail that have read the count before.
  function Slack(n: nat): nat { 3 * n + 3 }

  // `head` and `refs` are the list's head and the reference word of the node in front; n is the number of threads.
  function Rank(pc: Pc, head: Option<nat>, refs: int, n: nat): nat {
    var c := Slack(n);
    match pc
    case Idle => c + 4
    case AddFlag(_) => 6
    case PushLoadHead(_, _) => 5
    case PushSetNext(_, h, _) => if h == head then 3 else c + 10
    case PushSetRefs(_, h, _) => if h == head then 2 else c + 9
    case PushCas(_, h, _) => if h == head then 1 else c + 8
    case PushRetract(_, h, _) => if h == head then c + 7 else c + 11
    case GetLoadHead => c + 2
    case GetLoadRefs(m) => if head == Some(m) then c + 1 else c + 6
    case GetCasRefs(m, r) => if head != Some(m) then c + 5 else if r == refs then c else c + 3
    case GetLoadNext(m) => if head == Some(m) then 2 else c + 4
    case GetCasHead(m, _) => if head == Some(m) then 1 else c + 3
    case GetAssert(_) => 2
    case GetTake(_) => 1
    case GetUnref(m, h) => if head == Some(m) then c + 7 + 3 * n else if h == head then c + 2 else c + 7
  }

  function Ranks(threads: seq<Pc>, head: Option<nat>, refs: int, n: nat): nat {
    if |threads| == 0 then 0
    else Ranks(threads[..|threads| - 1], head, refs, n) + Rank(threads[|threads| - 1], head, refs, n)
  }

  function HighestRank(n: nat): nat { 6 * n + 14 }

  lemma {:induction false} RanksUpdate(threads: seq<Pc>, t: nat, pc: Pc, head: Option<nat>, refs: int, n: nat)
    requires t < |threads|
    ensures Ranks(threads[t := pc], head, refs, n) == Ranks(threads, head, refs, n) - Rank(threads[t], head, refs, n) + Rank(pc, head, refs, n)
    decreases |threads|
  {
    hide Rank;
    var k := |threads| - 1;
    if t == k {
      assert threads[t := pc][..k] == threads[..k];
    } else {
      assert threads[t := pc][..k] == threads[..k][t := pc];
      RanksUpdate(threads[..k], t, pc, head, refs, n);
    }
  }

  lemma RankBound(pc: Pc, head: Option<nat>, refs: int, n: nat)
    ensures Rank(pc, head, refs, n) <= HighestRank(n)
  {
  }

  lemma {:induction false} RanksBound(threads: seq<Pc>, head: Option<nat>, refs: int, n: nat)
    ensures Ranks(threads, head, refs, n) <= |threads| * HighestRank(n)
    decreases |threads|
  {
    hide Rank, HighestRank;
    if |threads| > 0 {
      var k := |threads| - 1;
      RanksBound(threads[..k], head, refs, n);
      RankBound(threads[k], head, refs, n);
      assert (k + 1) * HighestRank(n) == k * HighestRank(n) + HighestRank(n);
    }
  }

  // Another reference word in front sets back only the threads that have read the old one.
  lemma RankShift(pc: Pc, head: Option<nat>, refs: int, refs': int, n: nat)
    ensures Rank(pc, head, refs', n) <= Rank(pc, head, refs, n) + 3
  {
  }

  lemma {:induction false} RanksShift(threads: seq<Pc>, head: Option<nat>, refs: int, refs': int, n: nat)
    ensures Ranks(threads, head, refs', n) <= Ranks(threads, head, refs, n) + 3 * |threads|
    decreases |threads|
  {
    hide Rank;
    if |threads| > 0 {
      var k := |threads| - 1;
      RanksShift(threads[..k], head, refs, refs', n);
      RankShift(threads[k], head, refs, refs', n);
    }
  }

  // ---- one move ----

  // The thread is in a call, or its client can ask what it asks.
  predicate Acts(s: State, t: nat, req: Request)
    requires t < |s.threads|
  {
    s.threads[t].Idle? ==> req.TryGet? || req.node in s.held
  }

  predicate Returns(s: State, t: nat, req: Request)
    requires InRange(s) && t < |s.threads|
  {
    !s.threads[t].Idle? && NextPc(s, t, req).Idle?
  }

  predicate Pushes(s: State, t: nat)
    requires t < |s.threads|
  {
    s.threads[t].PushCas? && s.head == s.threads[t].head
  }

  predicate Pops(s: State, t: nat)
    requires t < |s.threads|
  {
    s.threads[t].GetCasHead? && s.head == Some(s.threads[t].node)
  }

  function HeadRefs(s: State): int
    requires InRange(s)
  {
    if s.head.Some? then s.nodes[s.head.value].refs else 0
  }

  function Effort(s: State): nat
    requires InRange(s)
  {
    Ranks(s.threads, s.head, HeadRefs(s), |s.threads|)
  }

  // The node in front is referenced, and no thread is moving it.
  lemma FrontNode(s: State, list: seq<nat>, place: seq<Place>, t: nat)
    requires InvWith(s, list, place) && s.head.Some? && t < |s.threads|
    ensures s.head.value < |s.nodes| && 0 < s.nodes[s.head.value].refs <= REFS_MASK
    ensures Owned(s.threads[t]) != s.head && s.head.value !in s.held
  {
    var n := s.head.value;
    assert list[0] == n && place[n] == OnList && NodeCounted(s, place, n);
    VisitorsBound(s.threads, n);
  }

  // The thread's own way, by the head and the word in front it moves with.
  lemma RankFalls(s: State, list: seq<nat>, place: seq<Place>, t: nat, req: Request)
    requires InvWith(s, list, place) && t < |s.threads|
    requires Acts(s, t, req) && !Returns(s, t, req) && !Pushes(s, t) && !Pops(s, t)
    ensures var s', n := Step(s, t, req), |s.threads|;
            && s'.head == s.head && InRange(s')
            && Rank(s'.threads[t], s.head, HeadRefs(s), n) < Rank(s.threads[t], s.head, HeadRefs(s), n)
            && (HeadRefs(s') != HeadRefs(s) ==>
                  Rank(s'.threads[t], s.head, HeadRefs(s), n) + 3 * n < Rank(s.threads[t], s.head, HeadRefs(s), n))
  {
    hide Linked, Placed, NodeCounted, Remembers;
    KeepsRange(s, t, req);
    if s.head.Some? { FrontNode(s, list, place, t); }
  }

  // While the head stays, every move brings the threads closer to moving it or to the end of a call.
  lemma EffortFalls(s: State, list: seq<nat>, place: seq<Place>, t: nat, req: Request)
    requires InvWith(s, list, place) && t < |s.threads|
    requires Acts(s, t, req) && !Returns(s, t, req) && !Pushes(s, t) && !Pops(s, t)
    ensures InRange(Step(s, t, req)) && Effort(Step(s, t, req)) < Effort(s)
  {
    hide Rank, Linked, Placed, NodeCounted, Remembers, InRange, NextPc, Access, HeadRefs;
    RankFalls(s, list, place, t, req);
    var s' := Step(s, t, req);
    RanksUpdate(s.threads, t, s'.threads[t], s.head, HeadRefs(s), |s.threads|);
    RanksShift(s'.threads, s.head, HeadRefs(s), HeadRefs(s'), |s.threads|);
  }

  // ---- how often the head can move before a call ends ----

  // The threads that can still pop a node.
  function CanPop(threads: seq<Pc>): nat {
    if |threads| == 0 then 0 else CanPop(threads[..|threads| - 1]) + if HasPopped(threads[|threads| - 1]) then 0 else 1
  }

  lemma {:induction false} CanPopUpdate(threads: seq<Pc>, t: nat, pc: Pc)
    requires t < |threads|
    ensures CanPop(threads[t := pc]) ==
            CanPop(threads) - (if HasPopped(threads[t]) then 0 else 1) + (if HasPopped(pc) then 0 else 1)
    decreases |threads|
  {
    var k := |threads| - 1;
    if t == k {
      assert threads[t := pc][..k] == threads[..k];
    } else {
      assert threads[t := pc][..k] == threads[..k][t := pc];
      CanPopUpdate(threads[..k], t, pc);
    }
  }

  lemma {:induction false} CanPopBound(threads: seq<Pc>)
    ensures CanPop(threads) <= |threads|
    decreases |threads|
  {
    if |threads| > 0 { CanPopBound(threads[..|threads| - 1]); }
  }

  // A push puts a node on the list that is not there; a pop takes one off, and uses up its thread's.
  function Turns(s: State, list: seq<nat>): int { 2 * CanPop(s.threads) + |s.nodes| - |list| }

  function Weight(n: nat): nat { n * HighestRank(n) + 1 }

  function Potential(s: State, list: seq<nat>): int
    requires InRange(s)
  {
    Weight(|s.threads|) * Turns(s, list) + Effort(s)
  }

  lemma TurnsMove(s: State, list: seq<nat>, place: seq<Place>, t: nat, req: Request)
    requires InvWith(s, list, place) && t < |s.threads| && !Returns(s, t, req)
    ensures InRange(Step(s, t, req))
    ensures Turns(Step(s, t, req), NextList(s, list, t)) == Turns(s, list) - if Pushes(s, t) || Pops(s, t) then 1 else 0
  {
    hide Placed, NodeCounted, Remembers, CanPop;
    KeepsRange(s, t, req);
    CanPopUpdate(s.threads, t, NextPc(s, t, req));
  }

  lemma PotentialFalls(s: State, list: seq<nat>, place: seq<Place>, t: nat, req: Request)
    requires InvWith(s, list, place) && t < |s.threads| && Acts(s, t, req) && !Returns(s, t, req)
    ensures InRange(Step(s, t, req)) && Potential(Step(s, t, req), NextList(s, list, t)) < Potential(s, list)
  {
    hide Linked, Placed, NodeCounted, Remembers, InRange, NextPc, Access, Turns, Ranks, Rank, NextList, HighestRank, HeadRefs;
    TurnsMove(s, list, place, t, req);
    var s' := Step(s, t, req);
    var w, k := Weight(|s.threads|), Turns(s, list);
    if Pushes(s, t) || Pops(s, t) {
      RanksBound(s'.threads, s'.head, HeadRefs(s'), |s.threads|);
      assert w * (k - 1) == w * k - w;
    } else {
      EffortFalls(s, list, place, t, req);
    }
  }

  // ---- the list is no longer than there are nodes ----

  lemma {:induction false} SubsetSize(a: set<nat>, b: set<nat>)
    requires a <= b
    ensures |a| <= |b|
    decreases |a|
  {
    if a != {} {
      var x :| x in a;
      SubsetSize(a - {x}, b - {x});
    }
  }

  lemma {:induction false} BelowSize(count: nat)
    ensures |Below(count)| == count
  {
    if count > 0 { BelowSize(count - 1); }
  }

  function Members(list: seq<nat>): set<nat> {
    if |list| == 0 then {} else Members(list[..|list| - 1]) + {list[|list| - 1]}
  }

  lemma {:induction false} MembersSize(list: seq<nat>, count: nat)
    requires forall i, j :: 0 <= i < j < |list| ==> list[i] != list[j]
    requires forall i :: 0 <= i < |list| ==> list[i] < count
    ensures |Members(list)| == |list| && Members(list) <= Below(count)
    ensures forall x :: x in Members(list) ==> x in list
    decreases |list|
  {
    if |list| > 0 {
      var k := |list| - 1;
      MembersSize(list[..k], count);
      assert list[k] !in Members(list[..k]);
    }
  }

  lemma ListFits(s: State, list: seq<nat>)
    requires Linked(s, list)
    ensures |list| <= |s.nodes|
  {
    MembersSize(list, |s.nodes|);
    BelowSize(|s.nodes|);
    SubsetSize(Members(list), Below(|s.nodes|));
  }

  // ---- runs ----

  ghost predicate AllAct(s: State, schedule: seq<Turn>)
    requires InRange(s)
    decreases |schedule|
  {
    |schedule| > 0 ==>
      var t, req := schedule[0].thread, schedule[0].req;
      t < |s.threads| && Acts(s, t, req) && (KeepsRange(s, t, req); AllAct(Step(s, t, req), schedule[1..]))
  }

  ghost predicate SomeReturns(s: State, schedule: seq<Turn>)
    requires InRange(s) && AllAct(s, schedule)
    decreases |schedule|
  {
    |schedule| > 0 &&
    var t, req := schedule[0].thread, schedule[0].req;
    Returns(s, t, req) || (KeepsRange(s, t, req); SomeReturns(Step(s, t, req), schedule[1..]))
  }

  lemma {:induction false} PotentialRunsOut(s: State, list: seq<nat>, place: seq<Place>, schedule: seq<Turn>)
    requires InvWith(s, list, place) && AllAct(s, schedule) && |schedule| > Potential(s, list)
    ensures SomeReturns(s, schedule)
    decreases |schedule|
  {
    hide Potential, Linked, Placed, NodeCounted, Remembers, Returns, NextList, NextPlace, Access, NextPc;
    PotentialNotNegative(s, list, place);
    PlaceLength(s, list, place);
    var t, req := schedule[0].thread, schedule[0].req;
    if !Returns(s, t, req) {
      KeepsInv(s, list, place, t, req);
      PotentialFalls(s, list, place, t, req);
      PotentialRunsOut(Step(s, t, req), NextList(s, list, t), NextPlace(s, place, t, req), schedule[1..]);
    }
  }

  lemma PlaceLength(s: State, list: seq<nat>, place: seq<Place>)
    requires InvWith(s, list, place)
    ensures |place| == |s.nodes|
  {
  }

  lemma PotentialNotNegative(s: State, list: seq<nat>, place: seq<Place>)
    requires InvWith(s, list, place)
    ensures 0 <= Potential(s, list) < MovesPerReturn(|s.nodes|, |s.threads|)
  {
    hide Ranks, CanPop, HighestRank;
    ListFits(s, list);
    CanPopBound(s.threads);
    RanksBound(s.threads, s.head, HeadRefs(s), |s.threads|);
    var w, k := Weight(|s.threads|), Turns(s, list);
    assert 0 <= k <= 2 * |s.threads| + |s.nodes|;
    assert 0 <= w * k <= w * (2 * |s.threads| + |s.nodes|);
  }

  function MovesPerReturn(nodes: nat, threads: nat): nat { Weight(threads) * (2 * threads + nodes + 1) }

  // Lock-freedom: after any run, of MovesPerReturn moves in calls, whoever makes them, one ends its call.
  lemma SomeCallReturns(nodes: nat, threads: nat, before: seq<Turn>, schedule: seq<Turn>)
    requires threads < REFS_MASK - 2 && forall i :: 0 <= i < |before| ==> before[i].thread < threads
    requires InRange(Run(Start(nodes, threads), before)) && AllAct(Run(Start(nodes, threads), before), schedule)
    requires |schedule| >= MovesPerReturn(nodes, threads)
    ensures SomeReturns(Run(Start(nodes, threads), before), schedule)
  {
    hide InvWith;
    StartInv(nodes, threads);
    RunInv(Start(nodes, threads), before);
    RunSizes(Start(nodes, threads), before);
    var s := Run(Start(nodes, threads), before);
    var list, place :| InvWith(s, list, place);
    PotentialNotNegative(s, list, place);
    PotentialRunsOut(s, list, place, schedule);
  }

  lemma {:induction false} RunSizes(s: State, schedule: seq<Turn>)
    requires InRange(s) && forall i :: 0 <= i < |schedule| ==> schedule[i].thread < |s.threads|
    ensures |Run(s, schedule).nodes| == |s.nodes| && |Run(s, schedule).threads| == |s.threads|
    decreases |schedule|
  {
    if |schedule| > 0 {
      KeepsRange(s, schedule[0].thread, schedule[0].req);
      RunSizes(Step(s, schedule[0].thread, schedule[0].req), schedule[1..]);
    }
  }
}

// The counters by which many consumers share one producer's sub-queue
// (ExplicitProducer::dequeue, hashing/helper/concurrentqueue.h:1949-2046).  One producer publishes
// items by raising tailIndex; every consumer first raises dequeueOptimisticCount, then looks at
// tailIndex again, and either claims headIndex or raises dequeueOvercommit.  Each step below is one
// atomic access; the counters are unbounded integers.
module DequeueCounters {
  datatype Pc =
    | Idle
    | LoadOvercommit(tail: int)                  // line 1951
    | LoadCount(tail: int, overcommit: int)      // line 1953
    | RaiseCount(overcommit: int)                // line 1973
    | Recheck(mine: int, overcommit: int)        // line 1985
    | ClaimHead(mine: int)                       // line 1997
    | RaiseOvercommit(mine: int)                 // line 2041

  datatype State<T> = State(
    items: seq<T>,          // what the producer has published; tailIndex is its length
    head: int,
    optimistic: int,
    overcommit: int,
    threads: seq<Pc>,
    claimed: seq<int>)      // the indices handed to consumers, in the order of their claims

  datatype Move<T> = Publish(item: T) | Consume(thread: nat)

  predicate CanMove<T>(s: State<T>, m: Move<T>) { m.Consume? ==> m.thread < |s.threads| }

  ghost predicate CanMoveAll<T>(threads: nat, moves: seq<Move<T>>) {
    forall m :: m in moves && m.Consume? ==> m.thread < threads
  }

  function Step<T>(s: State<T>, m: Move<T>): (next: State<T>)
    requires CanMove(s, m)
    ensures |next.threads| == |s.threads|
  {
    match m
    case Publish(item) => s.(items := s.items + [item])
    case Consume(t) =>
      match s.threads[t]
      case Idle => s.(threads := s.threads[t := LoadOvercommit(|s.items|)])
      case LoadOvercommit(tail) => s.(threads := s.threads[t := LoadCount(tail, s.overcommit)])
      case LoadCount(tail, overcommit) =>
        s.(threads := s.threads[t := if s.optimistic - overcommit < tail then RaiseCount(overcommit) else Idle])
      case RaiseCount(overcommit) =>
        s.(optimistic := s.optimistic + 1, threads := s.threads[t := Recheck(s.optimistic, overcommit)])
      case Recheck(mine, overcommit) =>
        s.(threads := s.threads[t := if mine - overcommit < |s.items| then ClaimHead(mine) else RaiseOvercommit(mine)])
      case ClaimHead(_) =>
        s.(head := s.head + 1, claimed := s.claimed + [s.head], threads := s.threads[t := Idle])
      case RaiseOvercommit(_) =>
        s.(overcommit := s.overcommit + 1, threads := s.threads[t := Idle])
  }

  // ---- the fate of every attempt, numbered by the value its thread got from dequeueOptimisticCount ----

  datatype Fate = Undecided | Passed | Claimed | Failed | Overcommitted

  predicate Succeeds(f: Fate) { f.Passed? || f.Claimed? }
  predicate Fails(f: Fate) { f.Failed? || f.Overcommitted? }
  predicate IsClaimed(f: Fate) { f.Claimed? }
  predicate IsOvercommitted(f: Fate) { f.Overcommitted? }
  predicate IsPending(f: Fate) { f.Undecided? || f.Passed? || f.Failed? }

  function Count(fates: seq<Fate>, p: Fate -> bool): (n: nat)
    ensures n <= |fates|
  {
    if |fates| == 0 then 0
    else Count(fates[..|fates| - 1], p) + (if p(fates[|fates| - 1]) then 1 else 0)
  }

  function FateOf(pc: Pc): Fate {
    match pc
    case Recheck(_, _) => Undecided
    case ClaimHead(_) => Passed
    case _ => Failed
  }

  predicate InFlight(pc: Pc) { pc.Recheck? || pc.ClaimHead? || pc.RaiseOvercommit? }

  function Flying(threads: seq<Pc>): nat {
    if |threads| == 0 then 0
    else Flying(threads[..|threads| - 1]) + (if InFlight(threads[|threads| - 1]) then 1 else 0)
  }

  // A successful attempt leaves room: not counting the failures before it, it is below tailIndex.
  predicate HasRoom(fates: seq<Fate>, m: nat, tail: int)
    requires m < |fates|
  {
    m - Count(fates[..m], Fails) < tail
  }

  // The failures a thread has seen in dequeueOvercommit happened before its own attempt.
  predicate Justified(s: State, fates: seq<Fate>, pc: Pc) {
    match pc
    case LoadCount(_, overcommit) => overcommit <= s.overcommit
    case RaiseCount(overcommit) => overcommit <= s.overcommit
    case Recheck(mine, overcommit) => 0 <= mine < |fates| && overcommit <= Count(fates[..mine], Fails)
    case _ => true
  }

  ghost predicate InvWith<T>(s: State<T>, fates: seq<Fate>) {
    && s.optimistic == |fates|
    && s.head == Count(fates, IsClaimed)
    && s.overcommit == Count(fates, IsOvercommitted)
    && (forall t :: 0 <= t < |s.threads| && InFlight(s.threads[t]) ==>
          0 <= s.threads[t].mine < |fates| && fates[s.threads[t].mine] == FateOf(s.threads[t]))
    && (forall t, u :: 0 <= t < u < |s.threads| && InFlight(s.threads[t]) && InFlight(s.threads[u]) ==>
          s.threads[t].mine != s.threads[u].mine)
    && (forall t :: 0 <= t < |s.threads| ==> Justified(s, fates, s.threads[t]))
    && (forall m :: 0 <= m < |fates| && Succeeds(fates[m]) ==> HasRoom(fates, m, |s.items|))
    && Count(fates, IsPending) == Flying(s.threads)
    && s.claimed == seq(s.head, i => i)
  }

  lemma {:induction false} CountUpdate(fates: seq<Fate>, m: nat, f: Fate, p: Fate -> bool)
    requires m < |fates|
    ensures Count(fates[m := f], p) == Count(fates, p) - (if p(fates[m]) then 1 else 0) + (if p(f) then 1 else 0)
  {
    var k := |fates| - 1;
    if m == k {
      assert fates[m := f][..k] == fates[..k];
    } else {
      assert fates[m := f][..k] == fates[..k][m := f];
      CountUpdate(fates[..k], m, f, p);
    }
  }

  lemma {:induction false} CountImplied(fates: seq<Fate>, p: Fate -> bool, q: Fate -> bool)
    requires forall f :: p(f) ==> q(f)
    ensures Count(fates, p) <= Count(fates, q)
  {
    if |fates| > 0 { CountImplied(fates[..|fates| - 1], p, q); }
  }

  lemma {:induction false} CountDisjoint(fates: seq<Fate>, p: Fate -> bool, q: Fate -> bool)
    requires forall f :: !(p(f) && q(f))
    ensures Count(fates, p) + Count(fates, q) <= |fates|
  {
    if |fates| > 0 { CountDisjoint(fates[..|fates| - 1], p, q); }
  }

  // Deciding attempt m lowers no count of failures before any attempt.
  lemma DecideKeepsFailures(fates: seq<Fate>, m: nat, f: Fate, k: nat)
    requires m < |fates| && k <= |fates| && (Fails(fates[m]) ==> Fails(f))
    ensures Count(fates[m := f][..k], Fails) >= Count(fates[..k], Fails)
  {
    if m < k {
      assert fates[m := f][..k] == fates[..k][m := f];
      CountUpdate(fates[..k], m, f, Fails);
    } else {
      assert fates[m := f][..k] == fates[..k];
    }
  }

  // The heart of the protocol: the last successful attempt bounds all of them by tailIndex.
  lemma {:induction false} SuccessesBelowTail(fates: seq<Fate>, tail: int)
    requires tail >= 0
    requires forall m :: 0 <= m < |fates| && Succeeds(fates[m]) ==> HasRoom(fates, m, tail)
    ensures Count(fates, Succeeds) <= tail
  {
    if |fates| > 0 {
      var k := |fates| - 1;
      if Succeeds(fates[k]) {
        assert HasRoom(fates, k, tail);
        CountDisjoint(fates, Succeeds, Fails);
      } else {
        forall m | 0 <= m < k && Succeeds(fates[..k][m]) ensures HasRoom(fates[..k], m, tail) {
          assert HasRoom(fates, m, tail);
          assert fates[..k][..m] == fates[..m];
        }
        SuccessesBelowTail(fates[..k], tail);
      }
    }
  }

  lemma {:induction false} FlyingUpdate(threads: seq<Pc>, t: nat, pc: Pc)
    requires t < |threads|
    ensures Flying(threads[t := pc]) ==
            Flying(threads) - (if InFlight(threads[t]) then 1 else 0) + (if InFlight(pc) then 1 else 0)
  {
    var k := |threads| - 1;
    if t == k {
      assert threads[t := pc][..k] == threads[..k];
    } else {
      assert threads[t := pc][..k] == threads[..k][t := pc];
      FlyingUpdate(threads[..k], t, pc);
    }
  }

  // ---- every step keeps the invariant ----

  ghost function NextFates<T>(s: State<T>, fates: seq<Fate>, m: Move<T>): seq<Fate>
    requires CanMove(s, m)
  {
    if m.Publish? then fates
    else
      match s.threads[m.thread]
      case RaiseCount(_) => fates + [Undecided]
      case Recheck(mine, overcommit) =>
        if 0 <= mine < |fates| then fates[mine := if mine - overcommit < |s.items| then Passed else Failed] else fates
      case ClaimHead(mine) => if 0 <= mine < |fates| then fates[mine := Claimed] else fates
      case RaiseOvercommit(mine) => if 0 <= mine < |fates| then fates[mine := Overcommitted] else fates
      case _ => fates
  }

  lemma PublishStep<T>(s: State<T>, fates: seq<Fate>, item: T)
    requires InvWith(s, fates)
    ensures InvWith(Step(s, Publish(item)), fates)
  {
    forall m | 0 <= m < |fates| && Succeeds(fates[m]) ensures HasRoom(fates, m, |s.items| + 1) {
      assert HasRoom(fates, m, |s.items|);
    }
    forall t | 0 <= t < |s.threads| ensures Justified(Step(s, Publish(item)), fates, s.threads[t]) {
      assert Justified(s, fates, s.threads[t]);
    }
  }

  lemma LocalStep<T>(s: State<T>, fates: seq<Fate>, t: nat)
    requires InvWith(s, fates) && t < |s.threads|
    requires s.threads[t].Idle? || s.threads[t].LoadOvercommit? || s.threads[t].LoadCount?
    ensures InvWith(Step(s, Consume(t)), fates)
  {
    hide HasRoom, Flying;
    var s' := Step(s, Consume(t));
    FlyingUpdate(s.threads, t, s'.threads[t]);
    forall u | 0 <= u < |s.threads| ensures Justified(s', fates, s'.threads[u]) {
      assert Justified(s, fates, s.threads[u]);
    }
  }

  lemma RaiseCountStep<T>(s: State<T>, fates: seq<Fate>, t: nat)
    requires InvWith(s, fates) && t < |s.threads| && s.threads[t].RaiseCount?
    ensures InvWith(Step(s, Consume(t)), fates + [Undecided])
  {
    hide Flying;
    var s', fates' := Step(s, Consume(t)), fates + [Undecided];
    assert fates'[..|fates|] == fates;
    FlyingUpdate(s.threads, t, s'.threads[t]);
    CountImplied(fates, IsOvercommitted, Fails);
    forall u | 0 <= u < |s.threads| ensures Justified(s', fates', s'.threads[u]) {
      assert Justified(s, fates, s.threads[u]);
      if u != t && s.threads[u].Recheck? {
        assert fates'[..s.threads[u].mine] == fates[..s.threads[u].mine];
      }
    }
    forall m | 0 <= m < |fates'| && Succeeds(fates'[m]) ensures HasRoom(fates', m, |s.items|) {
      assert HasRoom(fates, m, |s.items|);
      assert fates'[..m] == fates[..m];
    }
  }

  // Deciding an attempt, or carrying the decision out, keeps what the other threads rely on.
  lemma DecideKeepsOthers<T>(s: State<T>, fates: seq<Fate>, t: nat)
    requires InvWith(s, fates) && t < |s.threads| && InFlight(s.threads[t])
    ensures forall u :: 0 <= u < |s.threads| ==>
              Justified(Step(s, Consume(t)), NextFates(s, fates, Consume(t)), Step(s, Consume(t)).threads[u])
  {
    var s', fates', mine := Step(s, Consume(t)), NextFates(s, fates, Consume(t)), s.threads[t].mine;
    forall u | 0 <= u < |s.threads| ensures Justified(s', fates', s'.threads[u]) {
      assert Justified(s, fates, s.threads[u]);
      if u != t && s.threads[u].Recheck? {
        DecideKeepsFailures(fates, mine, fates'[mine], s.threads[u].mine);
      }
    }
  }

  lemma DecideKeepsRoom<T>(s: State<T>, fates: seq<Fate>, t: nat, m: nat)
    requires InvWith(s, fates) && t < |s.threads| && InFlight(s.threads[t])
    requires m < |fates| && Succeeds(NextFates(s, fates, Consume(t))[m])
    ensures HasRoom(NextFates(s, fates, Consume(t)), m, |s.items|)
  {
    var fates', mine := NextFates(s, fates, Consume(t)), s.threads[t].mine;
    DecideKeepsFailures(fates, mine, fates'[mine], m);
    assert Justified(s, fates, s.threads[t]);
    if m != mine || s.threads[t].ClaimHead? {
      assert HasRoom(fates, m, |s.items|);
    }
  }

  lemma DecideKeepsCounts<T>(s: State<T>, fates: seq<Fate>, t: nat)
    requires InvWith(s, fates) && t < |s.threads| && InFlight(s.threads[t])
    ensures var s', fates' := Step(s, Consume(t)), NextFates(s, fates, Consume(t));
            && s'.head == Count(fates', IsClaimed)
            && s'.overcommit == Count(fates', IsOvercommitted)
            && Count(fates', IsPending) == Flying(s'.threads)
  {
    var fates', mine := NextFates(s, fates, Consume(t)), s.threads[t].mine;
    FlyingUpdate(s.threads, t, Step(s, Consume(t)).threads[t]);
    CountUpdate(fates, mine, fates'[mine], IsClaimed);
    CountUpdate(fates, mine, fates'[mine], IsOvercommitted);
    CountUpdate(fates, mine, fates'[mine], IsPending);
  }

  lemma DecideStep<T>(s: State<T>, fates: seq<Fate>, t: nat)
    requires InvWith(s, fates) && t < |s.threads| && InFlight(s.threads[t])
    ensures InvWith(Step(s, Consume(t)), NextFates(s, fates, Consume(t)))
  {
    hide Justified, HasRoom, Flying, Count;
    var fates' := NextFates(s, fates, Consume(t));
    DecideKeepsCounts(s, fates, t);
    DecideKeepsOthers(s, fates, t);
    forall m | 0 <= m < |fates'| && Succeeds(fates'[m]) ensures HasRoom(fates', m, |s.items|) {
      DecideKeepsRoom(s, fates, t, m);
    }
  }

  lemma KeepsInv<T>(s: State<T>, fates: seq<Fate>, m: Move<T>)
    requires InvWith(s, fates) && CanMove(s, m)
    ensures InvWith(Step(s, m), NextFates(s, fates, m))
  {
    match m
    case Publish(item) => PublishStep(s, fates, item);
    case Consume(t) =>
      if InFlight(s.threads[t]) {
        DecideStep(s, fates, t);
      } else if s.threads[t].RaiseCount? {
        RaiseCountStep(s, fates, t);
      } else {
        LocalStep(s, fates, t);
      }
  }

  // ---- whole runs ----

  function Start<T>(threads: nat): State<T> {
    State([], 0, 0, 0, seq(threads, _ => Idle), [])
  }

  ghost function Run<T>(s: State<T>, moves: seq<Move<T>>): (end: State<T>)
    requires CanMoveAll(|s.threads|, moves)
    ensures |end.threads| == |s.threads|
    decreases |moves|
  {
    if |moves| == 0 then s else Run(Step(s, moves[0]), moves[1..])
  }

  ghost predicate Inv<T>(s: State<T>) { exists fates :: InvWith(s, fates) }

  lemma {:induction false} NobodyFlies(threads: seq<Pc>)
    requires forall t :: 0 <= t < |threads| ==> !InFlight(threads[t])
    ensures Flying(threads) == 0
  {
    if |threads| > 0 { NobodyFlies(threads[..|threads| - 1]); }
  }

  lemma {:induction false} RunInv<T>(s: State<T>, moves: seq<Move<T>>)
    requires Inv(s) && CanMoveAll(|s.threads|, moves)
    ensures Inv(Run(s, moves))
    decreases |moves|
  {
    if |moves| > 0 {
      var fates :| InvWith(s, fates);
      KeepsInv(s, fates, moves[0]);
      RunInv(Step(s, moves[0]), moves[1..]);
    }
  }

  lemma {:induction false} FatesAddUp(fates: seq<Fate>)
    ensures |fates| == Count(fates, IsClaimed) + Count(fates, IsOvercommitted) + Count(fates, IsPending)
    ensures Count(fates, IsClaimed) <= Count(fates, Succeeds)
  {
    if |fates| > 0 { FatesAddUp(fates[..|fates| - 1]); }
  }

  lemma {:induction false} PassedIsExtra(fates: seq<Fate>, m: nat)
    requires m < |fates| && fates[m].Passed?
    ensures Count(fates, IsClaimed) < Count(fates, Succeeds)
  {
    FatesAddUp(fates[..|fates| - 1]);
    if m < |fates| - 1 { PassedIsExtra(fates[..|fates| - 1], m); }
  }

  ghost predicate Safe<T>(s: State<T>) {
    // headIndex never overtakes tailIndex, and a thread about to claim finds an item there
    && 0 <= s.head <= |s.items|
    && (forall t :: 0 <= t < |s.threads| && s.threads[t].ClaimHead? ==> s.head < |s.items|)
    // the indices 0, 1, 2, ... are claimed in that order, each once
    && s.claimed == seq(s.head, i => i)
    // the optimistic count is what was claimed, what was given back, and what is in flight
    && s.optimistic == s.head + s.overcommit + Flying(s.threads)
  }

  lemma InvIsSafe<T>(s: State<T>)
    requires Inv(s)
    ensures Safe(s)
  {
    var fates :| InvWith(s, fates);
    SuccessesBelowTail(fates, |s.items|);
    FatesAddUp(fates);
    forall t | 0 <= t < |s.threads| && s.threads[t].ClaimHead? ensures s.head < |s.items| {
      PassedIsExtra(fates, s.threads[t].mine);
    }
  }

  lemma EveryRunIsSafe<T>(threads: nat, moves: seq<Move<T>>)
    requires CanMoveAll(threads, moves)
    ensures Safe(Run(Start<T>(threads), moves))
  {
    var s: State<T> := Start(threads);
    NobodyFlies(s.threads);
    assert InvWith(s, []);
    RunInv(s, moves);
    InvIsSafe(Run(s, moves));
  }

  // Thread t running alone for some steps.
  function Solo<T>(s: State<T>, t: nat, steps: nat): State<T>
    requires t < |s.threads|
    decreases steps
  {
    if steps == 0 then s else Solo(Step(s, Consume(t)), t, steps - 1)
  }

  lemma SoloClaims<T>(s: State<T>, t: nat)
    requires t < |s.threads| && s.threads[t].Idle? && s.optimistic - s.overcommit == s.head < |s.items|
    ensures Solo(s, t, 6) == s.(head := s.head + 1, optimistic := s.optimistic + 1, claimed := s.claimed + [s.head])
  {
    var s1 := Step(s, Consume(t));
    var s2 := Step(s1, Consume(t));
    var s3 := Step(s2, Consume(t));
    assert s3 == s.(threads := s.threads[t := RaiseCount(s.overcommit)]);
    var s4 := Step(s3, Consume(t));
    var s5 := Step(s4, Consume(t));
    var s6 := Step(s5, Consume(t));
    assert s5.threads == s.threads[t := ClaimHead(s.optimistic)] && s6.threads == s.threads;
    assert Solo(s3, t, 3) == Solo(s4, t, 2) == Solo(s5, t, 1) == s6;
    assert Solo(s, t, 6) == Solo(s1, t, 5) == Solo(s2, t, 4) == Solo(s3, t, 3);
  }

  lemma SoloFindsNothing<T>(s: State<T>, t: nat)
    requires t < |s.threads| && s.threads[t].Idle? && s.optimistic - s.overcommit == s.head == |s.items|
    ensures Solo(s, t, 3) == s
  {
    var s1 := Step(s, Consume(t));
    var s2 := Step(s1, Consume(t));
    var s3 := Step(s2, Consume(t));
    assert Solo(s, t, 3) == Solo(s1, t, 2) == Solo(s2, t, 1) == s3;
    assert s3.threads == s.threads;
  }

  // When no attempt is in flight, a consumer running alone takes the oldest item exactly when there is
  // one; otherwise the call changes nothing.
  lemma AloneTakesOldest<T>(s: State<T>, t: nat)
    requires Inv(s) && t < |s.threads| && s.threads[t].Idle?
    requires forall u :: 0 <= u < |s.threads| ==> !InFlight(s.threads[u])
    ensures s.head < |s.items| ==>
            Solo(s, t, 6) == s.(head := s.head + 1, optimistic := s.optimistic + 1, claimed := s.claimed + [s.head])
    ensures s.head == |s.items| ==> Solo(s, t, 3) == s
  {
    InvIsSafe(s);
    NobodyFlies(s.threads);
    if s.head < |s.items| {
      SoloClaims(s, t);
    } else {
      SoloFindsNothing(s, t);
    }
  }

  // ---- every call returns ----

  // The accesses a call still makes at most.
  function StepsLeft(pc: Pc): nat {
    match pc
    case Idle => 0
    case LoadOvercommit(_) => 5
    case LoadCount(_, _) => 4
    case RaiseCount(_) => 3
    case Recheck(_, _) => 2
    case ClaimHead(_) => 1
    case RaiseOvercommit(_) => 1
  }

  function MovesOf<T(==)>(moves: seq<Move<T>>, t: nat): nat {
    if |moves| == 0 then 0 else (if moves[0] == Consume(t) then 1 else 0) + MovesOf(moves[1..], t)
  }

  // Whatever the producer and the other consumers do in between, a call that has been started has returned at the
  // latest when its thread has made that many moves: dequeueing is wait-free.
  lemma {:induction false} ReturnsInTime<T>(s: State<T>, moves: seq<Move<T>>, t: nat) returns (n: nat)
    requires t < |s.threads| && CanMoveAll(|s.threads|, moves) && MovesOf(moves, t) >= StepsLeft(s.threads[t])
    ensures n <= |moves| && CanMoveAll(|s.threads|, moves[..n]) && |Run(s, moves[..n]).threads| == |s.threads|
    ensures Run(s, moves[..n]).threads[t].Idle?
    decreases |moves|
  {
    if s.threads[t].Idle? {
      n := 0;
    } else {
      assert moves[0] in moves && forall m :: m in moves[1..] ==> m in moves;
      var next := Step(s, moves[0]);
      var k := ReturnsInTime(next, moves[1..], t);
      n := k + 1;
      assert moves[..n][0] == moves[0] && moves[..n][1..] == moves[1..][..k];
      assert forall m :: m in moves[..n] ==> m in moves;
    }
  }
}

// What the shared dequeue answers (hashing/helper/concurrentqueue.h:1949-2046): when a call may return without an item, and
// how many of the calls on so many items succeed.
module DequeueAnswers {
  import opened DequeueCounters

  // The state before move k of a run from the start.
  ghost function At<T>(threads: nat, moves: seq<Move<T>>, k: nat): (s: State<T>)
    requires CanMoveAll(threads, moves) && k <= |moves|
    ensures |s.threads| == threads && Safe(s)
  {
    EveryRunIsSafe(threads, moves[..k]);
    Run(Start(threads), moves[..k])
  }

  lemma {:induction false} RunNext<T>(s: State<T>, moves: seq<Move<T>>, k: nat)
    requires CanMoveAll(|s.threads|, moves) && k < |moves|
    ensures CanMoveAll(|s.threads|, moves[..k]) && CanMove(Run(s, moves[..k]), moves[k])
    ensures Run(s, moves[..k + 1]) == Step(Run(s, moves[..k]), moves[k])
    decreases k
  {
    hide Step;
    assert moves[0] in moves && moves[k] in moves;
    var s' := Step(s, moves[0]);
    assert moves[..k + 1][1..] == moves[1..][..k];
    if k == 0 {
      assert Run(s, moves[..1]) == Run(s', moves[..1][1..]) == s';
    } else {
      assert moves[..k][1..] == moves[1..][..k - 1];
      RunNext(s', moves[1..], k - 1);
    }
  }

  lemma AtNext<T>(threads: nat, moves: seq<Move<T>>, k: nat)
    requires CanMoveAll(threads, moves) && k < |moves|
    ensures CanMove(At(threads, moves, k), moves[k])
    ensures At(threads, moves, k + 1) == Step(At(threads, moves, k), moves[k])
  {
    hide Step, Run, Safe;
    RunNext(Start<T>(threads), moves, k);
  }

  // ---- one call ----

  // A dequeue of thread t, which begins with move i and has returned before move j.
  ghost predicate IsCall<T>(threads: nat, moves: seq<Move<T>>, t: nat, i: nat, j: nat)
    requires CanMoveAll(threads, moves) && t < threads
  {
    && i < j <= |moves| && moves[i].Consume? && moves[i].thread == t
    && At(threads, moves, i).threads[t].Idle? && At(threads, moves, j).threads[t].Idle?
    && forall k :: i < k < j ==> !At(threads, moves, k).threads[t].Idle?
  }

  // The items claimed or promised at moment n: claims, the attempts of the others in flight, and those given back since moment m.
  function Promised<T>(atM: State<T>, atN: State<T>): int { |atN.claimed| + Flying(atN.threads) + (atN.overcommit - atM.overcommit) }

  // The call claims the next index, or none; then there was a moment at which, as far as the call could see, every item there
  // was when it began had been claimed or promised to others.
  ghost predicate CallAnswered<T>(threads: nat, moves: seq<Move<T>>, t: nat, i: nat, j: nat)
    requires CanMoveAll(threads, moves) && t < threads && IsCall(threads, moves, t, i, j)
  {
    var a, b := At(threads, moves, j - 1), At(threads, moves, j);
    if |b.claimed| == |a.claimed| then
      exists m: nat, n: nat :: i < m <= n < j && AllPromised(threads, moves, t, i, m, n)
    else
      |a.claimed| < |a.items| && b.claimed == a.claimed + [|a.claimed|]
  }

  ghost predicate AllPromised<T>(threads: nat, moves: seq<Move<T>>, t: nat, i: nat, m: nat, n: nat)
    requires CanMoveAll(threads, moves) && t < threads && i < m <= n <= |moves|
  {
    && !InFlight(At(threads, moves, n).threads[t])
    && Promised(At(threads, moves, m), At(threads, moves, n)) >= |At(threads, moves, i).items|
  }

  // What the call knows before move k: m is the moment it has loaded dequeueOvercommit, n that of its attempt.
  ghost predicate CallSoFar<T>(threads: nat, moves: seq<Move<T>>, t: nat, i: nat, k: nat, m: nat, n: nat)
    requires CanMoveAll(threads, moves) && t < threads && i < k <= |moves| && i <= m <= n < k
  {
    var s, items := At(threads, moves, k), |At(threads, moves, i).items|;
    && |s.items| >= items
    && match s.threads[t]
       case Idle => false
       case LoadOvercommit(tail) => tail == items
       case LoadCount(tail, overcommit) => i < m && tail == items && overcommit == At(threads, moves, m).overcommit
       case RaiseCount(overcommit) => i < m && overcommit == At(threads, moves, m).overcommit
       case Recheck(mine, overcommit) =>
         i < m && !InFlight(At(threads, moves, n).threads[t])
         && overcommit == At(threads, moves, m).overcommit && mine == At(threads, moves, n).optimistic
       case ClaimHead(_) => true
       case RaiseOvercommit(_) => i < m && AllPromised(threads, moves, t, i, m, n)
  }

  // What was promised, from the counters.
  lemma PromisedIs<T>(atM: State<T>, atN: State<T>)
    requires Safe(atN)
    ensures Promised(atM, atN) == atN.optimistic - atM.overcommit
  {
  }

  lemma CallBegins<T>(threads: nat, moves: seq<Move<T>>, t: nat, i: nat)
    requires CanMoveAll(threads, moves) && t < threads && i < |moves|
    requires moves[i].Consume? && moves[i].thread == t && At(threads, moves, i).threads[t].Idle?
    ensures CallSoFar(threads, moves, t, i, i + 1, i, i)
  {
    hide Safe;
    AtNext(threads, moves, i);
  }

  lemma CallWaits<T>(threads: nat, moves: seq<Move<T>>, t: nat, i: nat, k: nat, m: nat, n: nat)
    requires CanMoveAll(threads, moves) && t < threads && i < k < |moves| && i <= m <= n < k
    requires CallSoFar(threads, moves, t, i, k, m, n) && (moves[k].Consume? ==> moves[k].thread != t)
    ensures CallSoFar(threads, moves, t, i, k + 1, m, n)
  {
    hide Safe, AllPromised;
    AtNext(threads, moves, k);
  }

  lemma CallMoves<T>(threads: nat, moves: seq<Move<T>>, t: nat, i: nat, k: nat, m: nat, n: nat) returns (m': nat, n': nat)
    requires CanMoveAll(threads, moves) && t < threads && i < k < |moves| && i <= m <= n < k
    requires CallSoFar(threads, moves, t, i, k, m, n) && moves[k].Consume? && moves[k].thread == t
    requires !At(threads, moves, k + 1).threads[t].Idle?
    ensures i <= m' <= n' <= k && CallSoFar(threads, moves, t, i, k + 1, m', n')
  {
    hide Safe, Flying;
    var s := At(threads, moves, k);
    AtNext(threads, moves, k);
    m', n' := m, n;
    match s.threads[t]
    case LoadOvercommit(_) => m', n' := k, k;
    case RaiseCount(_) => n' := k;
    case Recheck(_, _) => PromisedIs(At(threads, moves, m), At(threads, moves, n));
    case _ =>
  }

  lemma {:induction false} CallGoesOn<T>(threads: nat, moves: seq<Move<T>>, t: nat, i: nat, j: nat, k: nat) returns (m: nat, n: nat)
    requires CanMoveAll(threads, moves) && t < threads && IsCall(threads, moves, t, i, j) && i < k < j
    ensures i <= m <= n < k && CallSoFar(threads, moves, t, i, k, m, n)
    decreases k
  {
    hide Safe, CallSoFar, Step;
    if k == i + 1 {
      CallBegins(threads, moves, t, i);
      m, n := i, i;
    } else {
      m, n := CallGoesOn(threads, moves, t, i, j, k - 1);
      if moves[k - 1].Consume? && moves[k - 1].thread == t {
        m, n := CallMoves(threads, moves, t, i, k - 1, m, n);
      } else {
        CallWaits(threads, moves, t, i, k - 1, m, n);
      }
    }
  }

  // In every run every call answers what it should.
  lemma EveryCallAnswers<T>(threads: nat, moves: seq<Move<T>>, t: nat, i: nat, j: nat)
    requires CanMoveAll(threads, moves) && t < threads && IsCall(threads, moves, t, i, j)
    ensures CallAnswered(threads, moves, t, i, j)
  {
    hide Flying;
    CallBegins(threads, moves, t, i);
    var m, n := CallGoesOn(threads, moves, t, i, j, j - 1);
    var s := At(threads, moves, j - 1);
    AtNext(threads, moves, j - 1);
    if s.threads[t].LoadCount? {
      PromisedIs(At(threads, moves, m), s);
      assert AllPromised(threads, moves, t, i, m, j - 1);
    } else if s.threads[t].RaiseOvercommit? {
      assert AllPromised(threads, moves, t, i, m, n);
    }
  }

  // ---- many calls ----

  // The calls that begin in these moves.
  ghost function Calls<T>(s: State<T>, moves: seq<Move<T>>): nat
    requires CanMoveAll(|s.threads|, moves)
    decreases |moves|
  {
    if |moves| == 0 then 0
    else
      assert moves[0] in moves;
      (if moves[0].Consume? && s.threads[moves[0].thread].Idle? then 1 else 0) + Calls(Step(s, moves[0]), moves[1..])
  }

  predicate AllIdle(threads: seq<Pc>) { forall t :: 0 <= t < |threads| ==> threads[t].Idle? }

  // Callers that have not made their attempt yet.
  predicate Tries(pc: Pc) { pc.LoadOvercommit? || pc.LoadCount? || pc.RaiseCount? }

  function Trying(threads: seq<Pc>): nat {
    if |threads| == 0 then 0 else Trying(threads[..|threads| - 1]) + if Tries(threads[|threads| - 1]) then 1 else 0
  }

  lemma {:induction false} TryingUpdate(threads: seq<Pc>, t: nat, pc: Pc)
    requires t < |threads|
    ensures Trying(threads[t := pc]) == Trying(threads) - (if Tries(threads[t]) then 1 else 0) + (if Tries(pc) then 1 else 0)
    decreases |threads|
  {
    var k := |threads| - 1;
    if t == k {
      assert threads[t := pc][..k] == threads[..k];
    } else {
      assert threads[t := pc][..k] == threads[..k][t := pc];
      TryingUpdate(threads[..k], t, pc);
    }
  }

  lemma {:induction false} NobodyTries(threads: seq<Pc>)
    requires AllIdle(threads)
    ensures Trying(threads) == 0
    decreases |threads|
  {
    if |threads| > 0 { NobodyTries(threads[..|threads| - 1]); }
  }

  // The items nobody has claimed.
  function Free<T>(s: State<T>): int { |s.items| - s.head }

  // What a thread has read since the beginning s0.
  predicate ReadSince<T>(s0: State<T>, pc: Pc) {
    match pc
    case Idle => true
    case LoadOvercommit(tail) => tail >= |s0.items|
    case LoadCount(tail, overcommit) => tail >= |s0.items| && overcommit >= s0.overcommit
    case RaiseCount(overcommit) => overcommit >= s0.overcommit
    case Recheck(mine, overcommit) => mine >= s0.optimistic && overcommit >= s0.overcommit
    case ClaimHead(mine) => mine >= s0.optimistic
    case RaiseOvercommit(mine) => mine >= s0.optimistic
  }

  // Since s0, when nobody was in a call, so many calls have begun.  The first Free(s0) attempts do not fail, and a call
  // returns without one only after so many have been made.
  ghost predicate Since<T>(s0: State<T>, fates0: seq<Fate>, s: State<T>, fates: seq<Fate>, calls: nat) {
    && s0.optimistic == s0.head + s0.overcommit == |fates0| && Free(s0) >= 0
    && s.optimistic == |fates| >= |fates0| && fates[..|fates0|] == fates0
    && |s.items| >= |s0.items| && s.overcommit >= s0.overcommit
    && (forall t :: 0 <= t < |s.threads| ==> ReadSince(s0, s.threads[t]))
    && (forall m :: |fates0| <= m < |fates| && m < |fates0| + Free(s0) ==> !Fails(fates[m]))
    && calls >= |fates| - |fates0| + Trying(s.threads)
    && (calls > |fates| - |fates0| + Trying(s.threads) ==> |fates| - |fates0| >= Free(s0))
  }

  lemma SinceStep<T>(s0: State<T>, fates0: seq<Fate>, s: State<T>, fates: seq<Fate>, calls: nat, m: Move<T>)
    requires InvWith(s, fates) && CanMove(s, m) && Since(s0, fates0, s, fates, calls)
    ensures Since(s0, fates0, Step(s, m), NextFates(s, fates, m),
                  calls + if m.Consume? && s.threads[m.thread].Idle? then 1 else 0)
  {
    hide Justified, HasRoom, Flying, Count, ReadSince;
    SinceReads(s0, fates0, s, fates, calls, m);
    if m.Consume? {
      TryingUpdate(s.threads, m.thread, Step(s, m).threads[m.thread]);
      ReadValues(s0, s.threads[m.thread]);
    }
  }

  lemma SinceReads<T>(s0: State<T>, fates0: seq<Fate>, s: State<T>, fates: seq<Fate>, calls: nat, m: Move<T>)
    requires CanMove(s, m) && Since(s0, fates0, s, fates, calls)
    ensures forall t :: 0 <= t < |s.threads| ==> ReadSince(s0, Step(s, m).threads[t])
  {
    hide Count, Trying, Fails;
    if m.Consume? { assert ReadSince(s0, s.threads[m.thread]); }
  }

  lemma ReadValues<T>(s0: State<T>, pc: Pc)
    requires ReadSince(s0, pc)
    ensures InFlight(pc) ==> pc.mine >= s0.optimistic
    ensures (pc.LoadCount? || pc.Recheck?) ==> pc.overcommit >= s0.overcommit
    ensures pc.LoadCount? ==> pc.tail >= |s0.items|
  {
  }

  lemma {:induction false} SinceRun<T>(s0: State<T>, fates0: seq<Fate>, s: State<T>, fates: seq<Fate>, calls: nat, moves: seq<Move<T>>)
    returns (fates': seq<Fate>)
    requires InvWith(s, fates) && CanMoveAll(|s.threads|, moves) && Since(s0, fates0, s, fates, calls)
    ensures InvWith(Run(s, moves), fates') && Since(s0, fates0, Run(s, moves), fates', calls + Calls(s, moves))
    decreases |moves|
  {
    hide InvWith, Since, Step, NextFates;
    if |moves| == 0 {
      fates' := fates;
    } else {
      assert moves[0] in moves && forall m :: m in moves[1..] ==> m in moves;
      KeepsInv(s, fates, moves[0]);
      SinceStep(s0, fates0, s, fates, calls, moves[0]);
      fates' := SinceRun(s0, fates0, Step(s, moves[0]), NextFates(s, fates, moves[0]),
                         calls + (if moves[0].Consume? && s.threads[moves[0].thread].Idle? then 1 else 0), moves[1..]);
    }
  }

  lemma {:induction false} NonePending(fates: seq<Fate>)
    requires Count(fates, IsPending) == 0
    ensures forall m :: 0 <= m < |fates| ==> !IsPending(fates[m])
    decreases |fates|
  {
    if |fates| > 0 { NonePending(fates[..|fates| - 1]); }
  }

  // Between lo and hi all are claimed.
  lemma {:induction false} ClaimedFrom(fates: seq<Fate>, lo: nat, hi: nat)
    requires lo <= hi <= |fates| && forall m :: lo <= m < hi ==> fates[m].Claimed?
    ensures Count(fates[..lo], IsClaimed) + (hi - lo) <= Count(fates, IsClaimed) <= Count(fates[..lo], IsClaimed) + (|fates| - lo)
    decreases |fates|
  {
    if |fates| > lo {
      var k := |fates| - 1;
      assert fates[..k][..lo] == fates[..lo];
      ClaimedFrom(fates[..k], lo, if hi <= k then hi else k);
    } else {
      assert fates[..lo] == fates;
    }
  }

  function Least(a: int, b: int): int { if a <= b then a else b }

  lemma CallsSucceed<T>(s0: State<T>, fates0: seq<Fate>, s: State<T>, fates: seq<Fate>, calls: nat)
    requires InvWith(s0, fates0) && InvWith(s, fates) && Since(s0, fates0, s, fates, calls) && AllIdle(s.threads)
    ensures Least(Free(s0), calls) <= s.head - s0.head <= calls
  {
    hide Justified, HasRoom, Count, Trying, Flying;
    NobodyTries(s.threads);
    NobodyFlies(s.threads);
    NonePending(fates);
    var made := Least(Free(s0), |fates| - |fates0|);
    ClaimedFrom(fates, |fates0|, |fates0| + made);
  }

  // From any state of any run in which nobody is in a call, the calls made until nobody is in one again take as many items as
  // there are, or as there are calls: at least of those that were free, at most of those published since.
  lemma AsManyAsThereAre<T>(threads: nat, before: seq<Move<T>>, moves: seq<Move<T>>)
    requires CanMoveAll(threads, before) && CanMoveAll(threads, moves)
    requires var s: State<T> := Run(Start(threads), before); AllIdle(s.threads) && AllIdle(Run(s, moves).threads)
    ensures var s: State<T> := Run(Start(threads), before);
            var s', n := Run(s, moves), Calls(s, moves);
            && Least(|s.items| - |s.claimed|, n) <= |s'.claimed| - |s.claimed| <= Least(|s'.items| - |s.claimed|, n)
  {
    hide InvWith, Since, Step;
    var s: State<T> := Run(Start(threads), before);
    StartsWell<T>(threads);
    RunInv(Start<T>(threads), before);
    var fates :| InvWith(s, fates);
    InvIsSafe(s);
    NobodyFlies(s.threads);
    NobodyTries(s.threads);
    SinceNow(s, fates);
    var fates' := SinceRun(s, fates, s, fates, 0, moves);
    InvIsSafe(Run(s, moves));
    CallsSucceed(s, fates, Run(s, moves), fates', Calls(s, moves));
  }

  lemma StartsWell<T>(threads: nat)
    ensures Inv<T>(Start(threads))
  {
    var s: State<T> := Start(threads);
    NobodyFlies(s.threads);
    assert InvWith(s, []);
  }

  lemma SinceNow<T>(s: State<T>, fates: seq<Fate>)
    requires InvWith(s, fates) && Safe(s) && AllIdle(s.threads) && Flying(s.threads) == Trying(s.threads) == 0
    ensures Since(s, fates, s, fates, 0)
  {
    hide Justified, HasRoom, Count;
    assert fates[..|fates|] == fates;
  }
}

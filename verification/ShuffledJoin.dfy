// The shuffled online joins as a machine of threads (hashing/helper/thread_task.cpp:152-225,
// hashing/helper/fetcher.cpp:193-227, hashing/helper/shuffler.cpp:20-39, 143-170): every thread fetches its
// slices, pushes each tuple to the queues of its destinations, pulls its own queue, waits for the others at the
// barrier and drains its queue.  Queues are atomic; which relation a fetch finds ready is the turn's choice.
module ShuffledJoin {
  import opened Joins
  import opened Slicing
  import opened Shuffling

  datatype Env = Env(sh: Shuffler, slicesR: seq<seq<Tuple>>, slicesS: seq<seq<Tuple>>, eager: bool)

  datatype Pc = Fetching | Pushing(a: Arrival, to: seq<nat>) | Pulling | Waiting | Draining | Finished

  datatype Thread = Thread(posR: nat, posS: nat, pc: Pc)

  // `joined` lists what each thread's joiner was given.
  datatype State = State(threads: seq<Thread>, queues: seq<seq<Arrival>>, joined: seq<seq<Arrival>>)

  datatype Turn = Turn(thread: nat, isR: bool, choice: nat)

  ghost predicate KeysOk(s: seq<Tuple>) { forall i :: 0 <= i < |s| ==> s[i].key >= 0 }

  ghost predicate EnvOk(e: Env) {
    && |e.slicesR| == |e.slicesS| > 0 && ShufflerOk(e.sh, |e.slicesR|)
    && forall t :: 0 <= t < |e.slicesR| ==> KeysOk(e.slicesR[t]) && KeysOk(e.slicesS[t])
  }

  ghost predicate InRange(e: Env, s: State) {
    && EnvOk(e) && |s.threads| == |s.queues| == |s.joined| == |e.slicesR| == |e.slicesS| && |e.sh.groups| > 0
    && forall t :: 0 <= t < |s.threads| ==> ThreadOk(e, s.threads[t], t)
  }

  ghost predicate ThreadOk(e: Env, th: Thread, t: nat)
    requires t < |e.slicesR| == |e.slicesS| && |e.sh.groups| > 0
  {
    && th.posR <= |e.slicesR[t]| && th.posS <= |e.slicesS[t]|
    && match th.pc
       case Pushing(a, to) =>
         && a.tuple.key >= 0 && Distinct(to) && (forall i :: 0 <= i < |to| ==> to[i] < |e.slicesR| && to[i] in Group(e.sh, a.tuple.key))
         && (if a.isR then th.posR > 0 && a.tuple == e.slicesR[t][th.posR - 1]
             else th.posS > 0 && a.tuple == e.slicesS[t][th.posS - 1] && |to| <= 1)
       case Waiting => th.posR == |e.slicesR[t]| && th.posS == |e.slicesS[t]|
       case Draining => th.posR == |e.slicesR[t]| && th.posS == |e.slicesS[t]|
       case Finished => th.posR == |e.slicesR[t]| && th.posS == |e.slicesS[t]|
       case _ => true
  }

  // finish()
  predicate AllFetched(e: Env, th: Thread, t: nat)
    requires t < |e.slicesR| == |e.slicesS|
  {
    th.posR == |e.slicesR[t]| && th.posS == |e.slicesS[t]|
  }

  predicate AtBarrier(pc: Pc) { pc.Waiting? || pc.Draining? || pc.Finished? }

  // next_tuple and where its tuple goes: the relation asked for, or the other one when it is exhausted.
  ghost function Fetched(e: Env, th: Thread, t: nat, isR: bool, choice: nat): Thread
    requires EnvOk(e) && t < |e.slicesR| && ThreadOk(e, th, t) && !AllFetched(e, th, t)
  {
    if (isR && th.posR < |e.slicesR[t]|) || th.posS == |e.slicesS[t]| then
      var x := e.slicesR[t][th.posR];
      assert KeysOk(e.slicesR[t]);
      Thread(th.posR + 1, th.posS, Pushing(Arrival(x, true), Group(e.sh, x.key)))
    else
      var x := e.slicesS[t][th.posS];
      assert KeysOk(e.slicesS[t]);
      var group := Group(e.sh, x.key);
      Thread(th.posR, th.posS + 1, Pushing(Arrival(x, false), [group[choice % |group|]]))
  }

  ghost function Step(e: Env, s: State, turn: Turn): State
    requires InRange(e, s) && turn.thread < |s.threads|
  {
    var t := turn.thread;
    var th := s.threads[t];
    assert ThreadOk(e, th, t);
    match th.pc
    case Fetching =>
      if AllFetched(e, th, t) then s.(threads := s.threads[t := th.(pc := Pulling)])
      else s.(threads := s.threads[t := Fetched(e, th, t, turn.isR, turn.choice)])
    case Pushing(a, to) =>
      if |to| == 0 then s.(threads := s.threads[t := th.(pc := Pulling)])
      else s.(threads := s.threads[t := th.(pc := Pushing(a, to[1..]))], queues := s.queues[to[0] := s.queues[to[0]] + [a]])
    case Pulling =>
      var after := s.threads[t := th.(pc := if AllFetched(e, th, t) then Waiting else Fetching)];
      if e.eager && |s.queues[t]| > 0 then
        State(after, s.queues[t := s.queues[t][1..]], s.joined[t := s.joined[t] + [s.queues[t][0]]])
      else s.(threads := after)
    case Waiting =>
      if forall u :: 0 <= u < |s.threads| ==> AtBarrier(s.threads[u].pc) then s.(threads := s.threads[t := th.(pc := Draining)])
      else s
    case Draining =>
      if |s.queues[t]| == 0 then s.(threads := s.threads[t := th.(pc := Finished)])
      else s.(queues := s.queues[t := s.queues[t][1..]], joined := s.joined[t := s.joined[t] + [s.queues[t][0]]])
    case Finished => s
  }

  // ---- the accounts ----

  // Tuples of R with key k that thread t has sent to thread d.
  function SentR(e: Env, th: Thread, t: nat, d: nat, k: int): int
    requires t < |e.slicesR| && th.posR <= |e.slicesR[t]|
  {
    CountKey(e.slicesR[t][..th.posR], k) -
    if th.pc.Pushing? && th.pc.a.isR && th.pc.a.tuple.key == k && d in th.pc.to then 1 else 0
  }

  // The partners in R of the tuples of S that thread t has sent.
  function SentS(e: Env, th: Thread, t: nat): int
    requires t < |e.slicesS| && th.posS <= |e.slicesS[t]|
  {
    JoinCount(Whole(e), e.slicesS[t][..th.posS]) -
    if th.pc.Pushing? && !th.pc.a.isR && |th.pc.to| > 0 then CountKey(Whole(e), th.pc.a.tuple.key) else 0
  }

  function Whole(e: Env): seq<Tuple> { Before(e.slicesR, |e.slicesR|) }

  predicate PosOk(e: Env, threads: seq<Thread>) {
    |threads| == |e.slicesR| == |e.slicesS| &&
    forall t :: 0 <= t < |threads| ==> threads[t].posR <= |e.slicesR[t]| && threads[t].posS <= |e.slicesS[t]|
  }

  function SumR(e: Env, threads: seq<Thread>, n: nat, d: nat, k: int): int
    requires PosOk(e, threads) && n <= |threads|
  {
    if n == 0 then 0 else SumR(e, threads, n - 1, d, k) + SentR(e, threads[n - 1], n - 1, d, k)
  }

  function SumS(e: Env, threads: seq<Thread>, n: nat): int
    requires PosOk(e, threads) && n <= |threads|
  {
    if n == 0 then 0 else SumS(e, threads, n - 1) + SentS(e, threads[n - 1], n - 1)
  }

  lemma {:induction false} SumRUpdate(e: Env, threads: seq<Thread>, t: nat, th: Thread, n: nat, d: nat, k: int)
    requires PosOk(e, threads) && n <= |threads| && t < |threads| && th.posR <= |e.slicesR[t]| && th.posS <= |e.slicesS[t]|
    ensures PosOk(e, threads[t := th])
    ensures SumR(e, threads[t := th], n, d, k) ==
            SumR(e, threads, n, d, k) + if t < n then SentR(e, th, t, d, k) - SentR(e, threads[t], t, d, k) else 0
    decreases n
  {
    hide SentR;
    if n > 0 { SumRUpdate(e, threads, t, th, n - 1, d, k); }
  }

  lemma {:induction false} SumSUpdate(e: Env, threads: seq<Thread>, t: nat, th: Thread, n: nat)
    requires PosOk(e, threads) && n <= |threads| && t < |threads| && th.posR <= |e.slicesR[t]| && th.posS <= |e.slicesS[t]|
    ensures PosOk(e, threads[t := th])
    ensures SumS(e, threads[t := th], n) == SumS(e, threads, n) + if t < n then SentS(e, th, t) - SentS(e, threads[t], t) else 0
    decreases n
  {
    hide SentS;
    if n > 0 { SumSUpdate(e, threads, t, th, n - 1); }
  }

  // The partners in R of the tuples of S in the first n lists.
  function PartnersIn(e: Env, lists: seq<seq<Arrival>>, n: nat): nat
    requires n <= |lists|
  {
    if n == 0 then 0 else PartnersIn(e, lists, n - 1) + JoinCount(Whole(e), Side(lists[n - 1], false))
  }

  lemma {:induction false} PartnersUpdate(e: Env, lists: seq<seq<Arrival>>, d: nat, x: seq<Arrival>, n: nat)
    requires n <= |lists| && d < |lists|
    ensures PartnersIn(e, lists[d := x], n) + (if d < n then JoinCount(Whole(e), Side(lists[d], false)) else 0) ==
            PartnersIn(e, lists, n) + if d < n then JoinCount(Whole(e), Side(x, false)) else 0
    decreases n
  {
    hide JoinCount, Side, Whole;
    if n > 0 { PartnersUpdate(e, lists, d, x, n - 1); }
  }

  lemma SideLast(x: seq<Arrival>, a: Arrival, isR: bool)
    ensures Side(x + [a], isR) == Side(x, isR) + if a.isR == isR then [a.tuple] else []
  {
    assert (x + [a])[..|x|] == x;
  }

  lemma {:induction false} SideFirst(x: seq<Arrival>, isR: bool)
    requires |x| > 0
    ensures Side(x, isR) == (if x[0].isR == isR then [x[0].tuple] else []) + Side(x[1..], isR)
    decreases |x|
  {
    var n := |x| - 1;
    if n == 0 {
      assert x[..0] == [] && x[1..] == [];
    } else {
      SideFirst(x[..n], isR);
      assert x[..n][1..] == x[1..][..n - 1];
    }
  }

  // ---- the invariant ----

  // Thread d has, or will find in its queue, exactly the tuples of R with key k that were sent to it.
  ghost predicate RightR(e: Env, s: State, d: nat, k: int)
    requires PosOk(e, s.threads) && d < |s.queues| == |s.joined| == |s.threads|
  {
    CountKey(Side(s.joined[d], true), k) + CountKey(Side(s.queues[d], true), k) == SumR(e, s.threads, |s.threads|, d, k)
  }

  ghost predicate AllRight(e: Env, s: State)
    requires InRange(e, s)
  {
    InRangePos(e, s);
    forall d, k :: 0 <= d < |s.threads| && k >= 0 && d in Group(e.sh, k) ==> RightR(e, s, d, k)
  }

  lemma InRangePos(e: Env, s: State)
    requires InRange(e, s)
    ensures PosOk(e, s.threads)
  {
    forall t | 0 <= t < |s.threads| ensures s.threads[t].posR <= |e.slicesR[t]| && s.threads[t].posS <= |e.slicesS[t]| {
      assert ThreadOk(e, s.threads[t], t);
    }
  }

  // Every tuple of S is with a member of its key's group.
  ghost predicate Members(e: Env, list: seq<Arrival>, d: nat)
    requires |e.sh.groups| > 0
  {
    forall i :: 0 <= i < |list| && !list[i].isR ==> list[i].tuple.key >= 0 && d in Group(e.sh, list[i].tuple.key)
  }

  ghost predicate Inv(e: Env, s: State) {
    && InRange(e, s) && AllRight(e, s)
    && (InRangePos(e, s);
        PartnersIn(e, s.joined, |s.joined|) + PartnersIn(e, s.queues, |s.queues|) == SumS(e, s.threads, |s.threads|))
    && (forall d :: 0 <= d < |s.threads| ==> Members(e, s.joined[d], d) && Members(e, s.queues[d], d))
    && BarrierOk(s)
  }

  // Nobody drains before everybody has pushed, and a queue found empty then stays empty.
  predicate BarrierOk(s: State) {
    forall t :: 0 <= t < |s.threads| <= |s.queues| ==>
      && (s.threads[t].pc.Draining? || s.threads[t].pc.Finished? ==> forall u :: 0 <= u < |s.threads| ==> AtBarrier(s.threads[u].pc))
      && (s.threads[t].pc.Finished? ==> s.queues[t] == [])
  }

  // ---- the steps ----

  // A step that moves only one thread, and sends nothing.
  lemma LocalKeeps(e: Env, s: State, t: nat, th: Thread)
    requires Inv(e, s) && t < |s.threads| && ThreadOk(e, th, t)
    requires s.threads[t].posR <= |e.slicesR[t]| && s.threads[t].posS <= |e.slicesS[t]|
    requires forall d, k {:trigger SentR(e, th, t, d, k)} :: k >= 0 && d in Group(e.sh, k) ==>
               SentR(e, th, t, d, k) == SentR(e, s.threads[t], t, d, k)
    requires SentS(e, th, t) == SentS(e, s.threads[t], t)
    requires BarrierOk(s.(threads := s.threads[t := th]))
    ensures Inv(e, s.(threads := s.threads[t := th]))
  {
    hide ThreadOk, SentR, SentS, Group, Members, BarrierOk, PartnersIn, SumS, EnvOk;
    var s' := s.(threads := s.threads[t := th]);
    assert InRange(e, s');
    InRangePos(e, s);
    InRangePos(e, s');
    SumSUpdate(e, s.threads, t, th, |s.threads|);
    forall d, k | 0 <= d < |s.threads| && k >= 0 && d in Group(e.sh, k) ensures RightR(e, s', d, k) {
      assert RightR(e, s, d, k);
      SumRUpdate(e, s.threads, t, th, |s.threads|, d, k);
      assert SentR(e, th, t, d, k) == SentR(e, s.threads[t], t, d, k);
    }
  }

  // A tuple moves from the thread's queue to its joiner.
  function Taken(s: State, t: nat): State
    requires t < |s.queues| == |s.joined| && |s.queues[t]| > 0
  {
    s.(queues := s.queues[t := s.queues[t][1..]], joined := s.joined[t := s.joined[t] + [s.queues[t][0]]])
  }

  lemma TakeKeeps(e: Env, s: State, t: nat)
    requires Inv(e, s) && t < |s.threads| && |s.queues[t]| > 0
    ensures Inv(e, Taken(s, t))
  {
    hide ThreadOk, SentR, SentS, Group, BarrierOk, SumS, SumR, EnvOk, JoinCount, CountKey, Side, PartnersIn, Members;
    var s' := Taken(s, t);
    InRangePos(e, s);
    InRangePos(e, s');
    TakeMembers(e, s, t);
    TakePartners(e, s, t);
    TakeBarrier(s, t);
    forall d, k | 0 <= d < |s.threads| && k >= 0 && d in Group(e.sh, k) ensures RightR(e, s', d, k) {
      assert RightR(e, s, d, k);
      TakeCounts(s, t, d, k);
    }
  }

  lemma TakeCounts(s: State, t: nat, d: nat, k: int)
    requires t < |s.queues| == |s.joined| && |s.queues[t]| > 0 && d < |s.queues|
    ensures CountKey(Side(Taken(s, t).joined[d], true), k) + CountKey(Side(Taken(s, t).queues[d], true), k) ==
            CountKey(Side(s.joined[d], true), k) + CountKey(Side(s.queues[d], true), k)
  {
    hide Side, CountKey;
    var a := s.queues[t][0];
    var x := if a.isR == true then [a.tuple] else [];
    SideLast(s.joined[t], a, true);
    SideFirst(s.queues[t], true);
    CountAppend(Side(s.joined[t], true), x, k);
    CountAppend(x, Side(s.queues[t][1..], true), k);
  }

  lemma TakeBarrier(s: State, t: nat)
    requires BarrierOk(s) && t < |s.threads| == |s.queues| == |s.joined| && |s.queues[t]| > 0
    ensures BarrierOk(Taken(s, t))
  {
  }

  lemma TakeMembers(e: Env, s: State, t: nat)
    requires |e.sh.groups| > 0 && t < |s.threads| == |s.queues| == |s.joined| && |s.queues[t]| > 0
    requires forall d :: 0 <= d < |s.threads| ==> Members(e, s.joined[d], d) && Members(e, s.queues[d], d)
    ensures forall d :: 0 <= d < |s.threads| ==> Members(e, Taken(s, t).joined[d], d) && Members(e, Taken(s, t).queues[d], d)
  {
    hide Group;
    assert Members(e, s.joined[t], t) && Members(e, s.queues[t], t);
  }

  lemma TakePartners(e: Env, s: State, t: nat)
    requires t < |s.threads| == |s.queues| == |s.joined| && |s.queues[t]| > 0
    ensures PartnersIn(e, Taken(s, t).joined, |s.joined|) + PartnersIn(e, Taken(s, t).queues, |s.queues|) ==
            PartnersIn(e, s.joined, |s.joined|) + PartnersIn(e, s.queues, |s.queues|)
  {
    hide JoinCount, Side, Whole, PartnersIn;
    var a := s.queues[t][0];
    var x := if a.isR == false then [a.tuple] else [];
    PartnersUpdate(e, s.joined, t, s.joined[t] + [a], |s.joined|);
    PartnersUpdate(e, s.queues, t, s.queues[t][1..], |s.queues|);
    SideLast(s.joined[t], a, false);
    SideFirst(s.queues[t], false);
    JoinAppend(Whole(e), Side(s.joined[t], false), x);
    JoinAppend(Whole(e), x, Side(s.queues[t][1..], false));
  }

  // The thread pushes its tuple to the next destination.
  lemma PushKeeps(e: Env, s: State, t: nat, turn: Turn)
    requires Inv(e, s) && t < |s.threads| && turn.thread == t && s.threads[t].pc.Pushing? && |s.threads[t].pc.to| > 0
    ensures Inv(e, Step(e, s, turn))
  {
    hide SentR, SentS, Group, SumS, SumR, EnvOk, JoinCount, CountKey, PartnersIn, Side;
    var th := s.threads[t];
    var a, to := th.pc.a, th.pc.to;
    var d0, th' := to[0], th.(pc := Pushing(a, to[1..]));
    var s' := Step(e, s, turn);
    assert ThreadOk(e, th, t);
    InRangePos(e, s);
    assert ThreadOk(e, th', t) by { assert forall i :: 0 <= i < |to[1..]| ==> to[1..][i] == to[i + 1]; }
    assert InRange(e, s') by { InRangeMoved(e, s, s', t, th'); }
    InRangePos(e, s');
    PushMembers(e, s, a, d0);
    PushPartners(e, s, t, th', a, d0);
    SumSUpdate(e, s.threads, t, th', |s.threads|);
    forall d, k | 0 <= d < |s.threads| && k >= 0 && d in Group(e.sh, k) ensures RightR(e, s', d, k) {
      assert RightR(e, s, d, k);
      SumRUpdate(e, s.threads, t, th', |s.threads|, d, k);
      PushCounts(e, s, t, th', a, d0, d, k);
    }
  }

  lemma InRangeMoved(e: Env, s: State, s': State, t: nat, th: Thread)
    requires InRange(e, s) && t < |s.threads| && ThreadOk(e, th, t) && s'.threads == s.threads[t := th]
    requires |s'.queues| == |s.queues| && |s'.joined| == |s.joined|
    ensures InRange(e, s')
  {
    hide ThreadOk, EnvOk;
  }

  lemma PushMembers(e: Env, s: State, a: Arrival, d0: nat)
    requires |e.sh.groups| > 0 && d0 < |s.threads| == |s.queues| == |s.joined| && a.tuple.key >= 0 && d0 in Group(e.sh, a.tuple.key)
    requires forall d :: 0 <= d < |s.threads| ==> Members(e, s.joined[d], d) && Members(e, s.queues[d], d)
    ensures var queues := s.queues[d0 := s.queues[d0] + [a]]; forall d :: 0 <= d < |s.threads| ==> Members(e, queues[d], d)
  {
    hide Group;
    assert Members(e, s.queues[d0], d0);
  }

  lemma PushPartners(e: Env, s: State, t: nat, th': Thread, a: Arrival, d0: nat)
    requires t < |s.threads| && |s.threads| == |s.queues| == |e.slicesS| == |e.slicesR| && d0 < |s.queues|
    requires s.threads[t].posS <= |e.slicesS[t]| && s.threads[t].pc.Pushing? && a == s.threads[t].pc.a
    requires |s.threads[t].pc.to| > 0 && (!a.isR ==> |s.threads[t].pc.to| == 1)
    requires th' == s.threads[t].(pc := Pushing(a, s.threads[t].pc.to[1..]))
    ensures PartnersIn(e, s.queues[d0 := s.queues[d0] + [a]], |s.queues|) - PartnersIn(e, s.queues, |s.queues|) ==
            SentS(e, th', t) - SentS(e, s.threads[t], t)
  {
    hide JoinCount, Side, Whole, PartnersIn, CountKey;
    PartnersUpdate(e, s.queues, d0, s.queues[d0] + [a], |s.queues|);
    SideLast(s.queues[d0], a, false);
    JoinAppend(Whole(e), Side(s.queues[d0], false), if a.isR == false then [a.tuple] else []);
    JoinOne(Whole(e), a.tuple);
    JoinEmptyRight(Whole(e));
  }

  lemma JoinEmptyRight(r: seq<Tuple>)
    ensures JoinCount(r, []) == 0
  {
  }

  lemma PushCounts(e: Env, s: State, t: nat, th': Thread, a: Arrival, d0: nat, d: nat, k: int)
    requires t < |s.threads| && |s.threads| == |s.queues| == |e.slicesS| == |e.slicesR| && d < |s.queues| && d0 < |s.queues|
    requires s.threads[t].posR <= |e.slicesR[t]| && s.threads[t].pc.Pushing? && a == s.threads[t].pc.a
    requires |s.threads[t].pc.to| > 0 && d0 == s.threads[t].pc.to[0] && Distinct(s.threads[t].pc.to)
    requires th' == s.threads[t].(pc := Pushing(a, s.threads[t].pc.to[1..]))
    ensures CountKey(Side(s.queues[d0 := s.queues[d0] + [a]][d], true), k) - CountKey(Side(s.queues[d], true), k) ==
            SentR(e, th', t, d, k) - SentR(e, s.threads[t], t, d, k)
  {
    hide Side, CountKey;
    var to := s.threads[t].pc.to;
    assert to == [to[0]] + to[1..];
    assert d in to <==> d == d0 || d in to[1..];
    assert d0 !in to[1..] by { assert forall i :: 0 <= i < |to[1..]| ==> to[1..][i] == to[i + 1]; }
    SideLast(s.queues[d0], a, true);
    CountAppend(Side(s.queues[d0], true), if a.isR == true then [a.tuple] else [], k);
    CountOne(a.tuple, k);
    CountEmpty(k);
  }

  lemma CountEmpty(k: int)
    ensures CountKey([], k) == 0
  {
  }

  // Fetching moves on in one slice; what is fetched is still to be sent.
  lemma FetchSends(e: Env, th: Thread, t: nat, isR: bool, choice: nat, d: nat, k: int)
    requires EnvOk(e) && t < |e.slicesR| && ThreadOk(e, th, t) && !AllFetched(e, th, t) && th.pc.Fetching?
    requires k >= 0 && d in Group(e.sh, k)
    ensures var th' := Fetched(e, th, t, isR, choice);
            && th'.posR <= |e.slicesR[t]| && th'.posS <= |e.slicesS[t]|
            && SentR(e, th', t, d, k) == SentR(e, th, t, d, k)
  {
    hide CountKey, ShufflerOk;
    var th' := Fetched(e, th, t, isR, choice);
    if th'.posR > th.posR {
      var x := e.slicesR[t][th.posR];
      assert e.slicesR[t][..th.posR + 1] == e.slicesR[t][..th.posR] + [x];
      CountAppend(e.slicesR[t][..th.posR], [x], k);
      CountOne(x, k);
    }
  }

  lemma FetchSendsS(e: Env, th: Thread, t: nat, isR: bool, choice: nat)
    requires EnvOk(e) && t < |e.slicesR| && ThreadOk(e, th, t) && !AllFetched(e, th, t) && th.pc.Fetching?
    ensures SentS(e, Fetched(e, th, t, isR, choice), t) == SentS(e, th, t)
  {
    hide JoinCount, CountKey, ShufflerOk, Whole;
    var th' := Fetched(e, th, t, isR, choice);
    if th'.posS > th.posS {
      var x := e.slicesS[t][th.posS];
      assert e.slicesS[t][..th.posS + 1] == e.slicesS[t][..th.posS] + [x];
      JoinAppend(Whole(e), e.slicesS[t][..th.posS], [x]);
      JoinOne(Whole(e), x);
    }
  }

  lemma FetchedOk(e: Env, th: Thread, t: nat, isR: bool, choice: nat)
    requires EnvOk(e) && t < |e.slicesR| && ThreadOk(e, th, t) && !AllFetched(e, th, t)
    ensures ThreadOk(e, Fetched(e, th, t, isR, choice), t)
  {
    assert KeysOk(e.slicesR[t]) && KeysOk(e.slicesS[t]);
  }

  lemma FetchKeeps(e: Env, s: State, turn: Turn)
    requires Inv(e, s) && turn.thread < |s.threads| && s.threads[turn.thread].pc.Fetching?
    ensures Inv(e, Step(e, s, turn))
  {
    hide SentR, SentS, SumS, SumR, JoinCount, CountKey, PartnersIn, Side, Group, Fetched, EnvOk, AllRight, Members;
    var t := turn.thread;
    var th := s.threads[t];
    assert ThreadOk(e, th, t);
    if AllFetched(e, th, t) {
      QuietStep(e, s, t, Pulling);
    } else {
      var th' := Fetched(e, th, t, turn.isR, turn.choice);
      FetchedOk(e, th, t, turn.isR, turn.choice);
      FetchSendsS(e, th, t, turn.isR, turn.choice);
      FetchedPushes(e, th, t, turn.isR, turn.choice);
      forall d, k | k >= 0 && d in Group(e.sh, k)
        ensures SentR(e, th', t, d, k) == SentR(e, th, t, d, k)
      {
        FetchSends(e, th, t, turn.isR, turn.choice, d, k);
      }
      LocalKeeps(e, s, t, th');
    }
  }

  lemma FetchedPushes(e: Env, th: Thread, t: nat, isR: bool, choice: nat)
    requires EnvOk(e) && t < |e.slicesR| && ThreadOk(e, th, t) && !AllFetched(e, th, t)
    ensures Fetched(e, th, t, isR, choice).pc.Pushing?
  {
  }

  // Only the place in the program changes, and nothing is pending before or after.
  lemma QuietStep(e: Env, s: State, t: nat, pc: Pc)
    requires Inv(e, s) && t < |s.threads| && !pc.Pushing?
    requires s.threads[t].pc.Pushing? ==> s.threads[t].pc.to == []
    requires ThreadOk(e, s.threads[t].(pc := pc), t)
    requires BarrierOk(s.(threads := s.threads[t := s.threads[t].(pc := pc)]))
    ensures Inv(e, s.(threads := s.threads[t := s.threads[t].(pc := pc)]))
  {
    hide SumS, SumR, JoinCount, CountKey, PartnersIn, Side, Group, EnvOk, AllRight, Members, BarrierOk, Whole;
    assert ThreadOk(e, s.threads[t], t);
    LocalKeeps(e, s, t, s.threads[t].(pc := pc));
  }

  lemma KeepsInv(e: Env, s: State, turn: Turn)
    requires Inv(e, s) && turn.thread < |s.threads|
    ensures Inv(e, Step(e, s, turn))
  {
    hide SumS, SumR, JoinCount, CountKey, PartnersIn, Side, Group, EnvOk, AllRight, Members, Whole, Fetched, SentR, SentS;
    var t := turn.thread;
    var th := s.threads[t];
    assert ThreadOk(e, th, t);
    match th.pc
    case Fetching => FetchKeeps(e, s, turn);
    case Pushing(a, to) => if |to| == 0 { QuietStep(e, s, t, Pulling); } else { PushKeeps(e, s, t, turn); }
    case Pulling =>
      var pc := if AllFetched(e, th, t) then Waiting else Fetching;
      if e.eager && |s.queues[t]| > 0 {
        TakeKeeps(e, s, t);
        QuietStep(e, Taken(s, t), t, pc);
      } else {
        QuietStep(e, s, t, pc);
      }
    case Waiting => if forall u :: 0 <= u < |s.threads| ==> AtBarrier(s.threads[u].pc) { QuietStep(e, s, t, Draining); }
    case Draining => if |s.queues[t]| == 0 { QuietStep(e, s, t, Finished); } else { TakeKeeps(e, s, t); }
    case Finished =>
  }

  // ---- every run ----

  function Start(e: Env): State {
    var n := |e.slicesR|;
    State(seq(n, _ => Thread(0, 0, Fetching)), seq(n, _ => []), seq(n, _ => []))
  }

  lemma {:induction false} NothingSent(e: Env, threads: seq<Thread>, n: nat)
    requires PosOk(e, threads) && n <= |threads| && forall t :: 0 <= t < |threads| ==> threads[t] == Thread(0, 0, Fetching)
    ensures SumS(e, threads, n) == 0 && forall d, k :: SumR(e, threads, n, d, k) == 0
    decreases n
  {
    if n > 0 { NothingSent(e, threads, n - 1); }
  }

  lemma {:induction false} NoPartners(e: Env, lists: seq<seq<Arrival>>, n: nat)
    requires n <= |lists| && forall d :: 0 <= d < |lists| ==> lists[d] == []
    ensures PartnersIn(e, lists, n) == 0
    decreases n
  {
    if n > 0 { NoPartners(e, lists, n - 1); }
  }

  lemma StartInv(e: Env)
    requires EnvOk(e)
    ensures Inv(e, Start(e))
  {
    hide ShufflerOk, Group, JoinCount, SentR, SentS, SumR, SumS;
    var s := Start(e);
    GroupsExist(e.sh, |e.slicesR|);
    assert InRange(e, s);
    InRangePos(e, s);
    NothingSent(e, s.threads, |s.threads|);
    NoPartners(e, s.joined, |s.joined|);
    NoPartners(e, s.queues, |s.queues|);
    forall d, k | 0 <= d < |s.threads| && k >= 0 && d in Group(e.sh, k) ensures RightR(e, s, d, k) {
    }
  }

  lemma GroupsExist(sh: Shuffler, n: nat)
    requires ShufflerOk(sh, n)
    ensures |sh.groups| > 0
  {
  }

  ghost function Run(e: Env, s: State, turns: seq<Turn>): (r: State)
    requires Inv(e, s)
    ensures Inv(e, r)
  {
    if |turns| == 0 then s
    else
      var before, turn := Run(e, s, turns[..|turns| - 1]), turns[|turns| - 1];
      if turn.thread < |before.threads| then
        KeepsInv(e, before, turn);
        Step(e, before, turn)
      else before
  }

  // The sum of the threads' matches, each counted by its joiner over what it was given.
  function Matches(joined: seq<seq<Arrival>>, n: nat): nat
    requires n <= |joined|
  {
    if n == 0 then 0 else Matches(joined, n - 1) + JoinCount(Side(joined[n - 1], true), Side(joined[n - 1], false))
  }

  lemma {:induction false} EverythingSentR(e: Env, threads: seq<Thread>, n: nat, d: nat, k: int)
    requires PosOk(e, threads) && n <= |threads|
    requires forall t :: 0 <= t < |threads| ==> AllFetched(e, threads[t], t) && !threads[t].pc.Pushing?
    ensures SumR(e, threads, n, d, k) == CountKey(Before(e.slicesR, n), k)
    decreases n
  {
    hide CountKey;
    if n == 0 {
      CountEmpty(k);
    } else {
      EverythingSentR(e, threads, n - 1, d, k);
      CountAppend(Before(e.slicesR, n - 1), e.slicesR[n - 1], k);
      assert e.slicesR[n - 1][..|e.slicesR[n - 1]|] == e.slicesR[n - 1];
    }
  }

  lemma {:induction false} EverythingSentS(e: Env, threads: seq<Thread>, n: nat)
    requires PosOk(e, threads) && n <= |threads|
    requires forall t :: 0 <= t < |threads| ==> AllFetched(e, threads[t], t) && !threads[t].pc.Pushing?
    ensures SumS(e, threads, n) == JoinCount(Whole(e), Before(e.slicesS, n))
    decreases n
  {
    hide JoinCount, Whole;
    if n == 0 {
      JoinEmptyRight(Whole(e));
    } else {
      EverythingSentS(e, threads, n - 1);
      JoinAppend(Whole(e), Before(e.slicesS, n - 1), e.slicesS[n - 1]);
      assert e.slicesS[n - 1][..|e.slicesS[n - 1]|] == e.slicesS[n - 1];
    }
  }

  // A thread that has all tuples of R with the keys of its tuples of S finds all their partners.
  lemma {:induction false} OwnPartners(e: Env, r: seq<Tuple>, list: seq<Arrival>, d: nat)
    requires |e.sh.groups| > 0 && Members(e, list, d)
    requires forall k :: k >= 0 && d in Group(e.sh, k) ==> CountKey(r, k) == CountKey(Whole(e), k)
    ensures JoinCount(r, Side(list, false)) == JoinCount(Whole(e), Side(list, false))
    decreases |list|
  {
    hide CountKey, Group, Whole;
    if |list| > 0 {
      var n := |list| - 1;
      OwnPartners(e, r, list[..n], d);
      if !list[n].isR {
        var t := list[n].tuple;
        JoinAppend(r, Side(list[..n], false), [t]);
        JoinAppend(Whole(e), Side(list[..n], false), [t]);
        JoinOne(r, t);
        JoinOne(Whole(e), t);
      } else {
        assert Side(list[..n], false) + [] == Side(list[..n], false);
      }
    }
  }

  lemma {:induction false} MatchesArePartners(e: Env, s: State, n: nat)
    requires |e.sh.groups| > 0 && n <= |s.joined|
    requires forall d :: 0 <= d < |s.joined| ==> Members(e, s.joined[d], d)
    requires forall d, k :: 0 <= d < |s.joined| && k >= 0 && d in Group(e.sh, k) ==>
               CountKey(Side(s.joined[d], true), k) == CountKey(Whole(e), k)
    ensures Matches(s.joined, n) == PartnersIn(e, s.joined, n)
    decreases n
  {
    hide JoinCount, CountKey, Side, Whole, Group, Members;
    if n > 0 {
      MatchesArePartners(e, s, n - 1);
      OwnPartners(e, Side(s.joined[n - 1], true), s.joined[n - 1], n - 1);
    }
  }

  // When every thread has finished, every pair has been found exactly once.
  lemma FinishedRun(e: Env, s: State)
    requires Inv(e, s) && forall t :: 0 <= t < |s.threads| ==> s.threads[t].pc.Finished?
    ensures Matches(s.joined, |s.joined|) == JoinCount(Whole(e), Before(e.slicesS, |e.slicesS|))
  {
    hide JoinCount, CountKey, Whole, Group, Members, SumR, SumS, SentR, SentS, EnvOk;
    InRangePos(e, s);
    forall t | 0 <= t < |s.threads| ensures AllFetched(e, s.threads[t], t) && s.queues[t] == [] {
      assert ThreadOk(e, s.threads[t], t);
    }
    EverythingSentS(e, s.threads, |s.threads|);
    NoPartners(e, s.queues, |s.queues|);
    forall d, k | 0 <= d < |s.joined| && k >= 0 && d in Group(e.sh, k)
      ensures CountKey(Side(s.joined[d], true), k) == CountKey(Whole(e), k)
    {
      assert RightR(e, s, d, k);
      EverythingSentR(e, s.threads, |s.threads|, d, k);
      CountEmpty(k);
      WholeIs(e);
    }
    MatchesArePartners(e, s, |s.joined|);
  }

  lemma WholeIs(e: Env)
    ensures Whole(e) == Before(e.slicesR, |e.slicesR|)
  {
  }

  lemma SlicesKeys(rel: seq<Tuple>, nthreads: nat, t: nat)
    requires t < nthreads && KeysOk(rel)
    ensures KeysOk(Slices(rel, nthreads)[t])
  {
    hide SliceStart, PerThread;
    SliceInRange(|rel|, nthreads, t);
  }

  // Every schedule, with and without eager pulling, for every shuffler whose groups are in order.
  lemma EveryRunJoins(R: seq<Tuple>, S: seq<Tuple>, nthreads: nat, sh: Shuffler, eager: bool, turns: seq<Turn>)
    requires nthreads > 0 && KeysOk(R) && KeysOk(S) && ShufflerOk(sh, nthreads)
    ensures var e := Env(sh, Slices(R, nthreads), Slices(S, nthreads), eager);
            && Inv(e, Start(e))
            && var s := Run(e, Start(e), turns);
            (forall t :: 0 <= t < |s.threads| ==> s.threads[t].pc.Finished?) ==> Matches(s.joined, |s.joined|) == JoinCount(R, S)
  {
    hide JoinCount, Inv, Step, ShufflerOk, Slices, KeysOk;
    var e := Env(sh, Slices(R, nthreads), Slices(S, nthreads), eager);
    SlicesJoin(R, nthreads);
    SlicesJoin(S, nthreads);
    forall t | 0 <= t < nthreads ensures KeysOk(e.slicesR[t]) && KeysOk(e.slicesS[t]) {
      SlicesKeys(R, nthreads, t);
      SlicesKeys(S, nthreads, t);
    }
    StartInv(e);
    var s := Run(e, Start(e), turns);
    if forall t :: 0 <= t < |s.threads| ==> s.threads[t].pc.Finished? {
      FinishedRun(e, s);
    }
  }

  // ---- every run can end ----

  function GroupTotal(groups: seq<seq<nat>>): nat { if |groups| == 0 then 0 else GroupTotal(groups[..|groups| - 1]) + |groups[|groups| - 1]| }

  lemma {:induction false} GroupWithin(groups: seq<seq<nat>>, g: nat)
    requires g < |groups|
    ensures |groups[g]| <= GroupTotal(groups)
    decreases |groups|
  {
    if g < |groups| - 1 { GroupWithin(groups[..|groups| - 1], g); }
  }

  // What thread t still has to do: its tuples to fetch, its tuple to push, and its way through the loop.
  function Work(e: Env, th: Thread, t: nat): nat
    requires t < |e.slicesR| == |e.slicesS| && th.posR <= |e.slicesR[t]| && th.posS <= |e.slicesS[t]|
  {
    (2 * GroupTotal(e.sh.groups) + 3) * ((|e.slicesR[t]| - th.posR) + (|e.slicesS[t]| - th.posS)) +
    match th.pc
    case Fetching => if AllFetched(e, th, t) then 5 else 3
    case Pushing(_, to) => 5 + 2 * |to|
    case Pulling => 4
    case Waiting => 2
    case Draining => 1
    case Finished => 0
  }

  function AllWork(e: Env, threads: seq<Thread>, n: nat): nat
    requires PosOk(e, threads) && n <= |threads|
  {
    if n == 0 then 0 else AllWork(e, threads, n - 1) + Work(e, threads[n - 1], n - 1)
  }

  function Queued(queues: seq<seq<Arrival>>, n: nat): nat
    requires n <= |queues|
  {
    if n == 0 then 0 else Queued(queues, n - 1) + |queues[n - 1]|
  }

  ghost function Left(e: Env, s: State): nat
    requires InRange(e, s)
  {
    InRangePos(e, s);
    AllWork(e, s.threads, |s.threads|) + Queued(s.queues, |s.queues|)
  }

  lemma {:induction false} WorkUpdate(e: Env, threads: seq<Thread>, t: nat, th: Thread, n: nat)
    requires PosOk(e, threads) && n <= |threads| && t < |threads| && th.posR <= |e.slicesR[t]| && th.posS <= |e.slicesS[t]|
    ensures PosOk(e, threads[t := th])
    ensures AllWork(e, threads[t := th], n) + (if t < n then Work(e, threads[t], t) else 0) ==
            AllWork(e, threads, n) + if t < n then Work(e, th, t) else 0
    decreases n
  {
    hide Work;
    if n > 0 { WorkUpdate(e, threads, t, th, n - 1); }
  }

  lemma {:induction false} QueuedUpdate(queues: seq<seq<Arrival>>, d: nat, q: seq<Arrival>, n: nat)
    requires n <= |queues| && d < |queues|
    ensures Queued(queues[d := q], n) + (if d < n then |queues[d]| else 0) == Queued(queues, n) + if d < n then |q| else 0
    decreases n
  {
    if n > 0 { QueuedUpdate(queues, d, q, n - 1); }
  }

  lemma FetchWork(e: Env, th: Thread, t: nat, isR: bool, choice: nat)
    requires EnvOk(e) && t < |e.slicesR| && ThreadOk(e, th, t) && th.pc.Fetching? && !AllFetched(e, th, t)
    ensures var th' := Fetched(e, th, t, isR, choice);
            th'.posR <= |e.slicesR[t]| && th'.posS <= |e.slicesS[t]| && Work(e, th', t) < Work(e, th, t)
  {
    hide ShufflerOk, GroupTotal;
    GroupsExist(e.sh, |e.slicesR|);
    assert KeysOk(e.slicesR[t]) && KeysOk(e.slicesS[t]);
    var th' := Fetched(e, th, t, isR, choice);
    var key := th'.pc.a.tuple.key;
    GroupWithin(e.sh.groups, KeyToIdx(key, |e.sh.groups|));
    GroupNotEmpty(e, key);
    var w, n := 2 * GroupTotal(e.sh.groups) + 3, (|e.slicesR[t]| - th.posR) + (|e.slicesS[t]| - th.posS);
    assert w * n == w * (n - 1) + w;
    assert |th'.pc.to| <= GroupTotal(e.sh.groups);
  }

  lemma GroupNotEmpty(e: Env, key: int)
    requires EnvOk(e) && key >= 0
    ensures |e.sh.groups| > 0 && |Group(e.sh, key)| > 0
  {
  }

  // A turn that does anything leaves less to do.
  lemma MoveCounts(e: Env, s: State, turn: Turn)
    requires Inv(e, s) && turn.thread < |s.threads|
    ensures Inv(e, Step(e, s, turn))
    ensures Step(e, s, turn) == s || Left(e, Step(e, s, turn)) < Left(e, s)
  {
    hide Inv, InRange, AllRight, SumS, SumR, AllWork, Queued, Work, Fetched, ThreadOk, EnvOk;
    KeepsInv(e, s, turn);
    InvRange(e, s);
    InvRange(e, Step(e, s, turn));
    StepWork(e, s, turn);
  }

  lemma InvRange(e: Env, s: State)
    requires Inv(e, s)
    ensures InRange(e, s) && PosOk(e, s.threads)
  {
    hide AllRight, SumS, ThreadOk, EnvOk;
    InRangePos(e, s);
  }

  lemma StepWork(e: Env, s: State, turn: Turn)
    requires InRange(e, s) && turn.thread < |s.threads| && InRange(e, Step(e, s, turn))
    ensures Step(e, s, turn) == s || Left(e, Step(e, s, turn)) < Left(e, s)
  {
    hide AllWork, Queued, Fetched, GroupTotal, ShufflerOk, KeysOk;
    var t := turn.thread;
    var th, s' := s.threads[t], Step(e, s, turn);
    assert ThreadOk(e, th, t);
    InRangePos(e, s);
    InRangePos(e, s');
    assert s'.threads == s.threads[t := s'.threads[t]];
    WorkUpdate(e, s.threads, t, s'.threads[t], |s.threads|);
    match th.pc
    case Fetching => if !AllFetched(e, th, t) { FetchWork(e, th, t, turn.isR, turn.choice); }
    case Pushing(a, to) => if |to| > 0 { QueuedUpdate(s.queues, to[0], s.queues[to[0]] + [a], |s.queues|); }
    case Pulling => if e.eager && |s.queues[t]| > 0 { QueuedUpdate(s.queues, t, s.queues[t][1..], |s.queues|); }
    case Draining => if |s.queues[t]| > 0 { QueuedUpdate(s.queues, t, s.queues[t][1..], |s.queues|); }
    case _ =>
  }

  // As long as not every thread has finished, some thread's turn does something: nobody waits for ever.
  lemma SomeoneMoves(e: Env, s: State, isR: bool, choice: nat) returns (t: nat)
    requires Inv(e, s) && exists u :: 0 <= u < |s.threads| && !s.threads[u].pc.Finished?
    ensures t < |s.threads| && Step(e, s, Turn(t, isR, choice)) != s
  {
    hide AllRight, SumS, Members, Fetched, EnvOk;
    var u :| 0 <= u < |s.threads| && !s.threads[u].pc.Finished?;
    t := u;
    if s.threads[u].pc.Waiting? && exists v :: 0 <= v < |s.threads| && !AtBarrier(s.threads[v].pc) {
      t :| 0 <= t < |s.threads| && !AtBarrier(s.threads[t].pc);
    }
    assert ThreadOk(e, s.threads[t], t);
    if s.threads[t].pc.Fetching? && !AllFetched(e, s.threads[t], t) { FetchWork(e, s.threads[t], t, isR, choice); }
  }

  // ---- the order and the time of joining ----

  // What a thread has joined stays joined, and what is sent to it is joined in the order in which it is sent.
  predicate InOrder(s: State, s': State) {
    && |s'.queues| == |s.queues| == |s.joined| == |s'.joined|
    && forall d :: 0 <= d < |s.queues| ==> s.joined[d] <= s'.joined[d] && s.joined[d] + s.queues[d] <= s'.joined[d] + s'.queues[d]
  }

  // Without eager pulling nothing is joined before the barrier.
  predicate JoinsLate(e: Env, s: State) {
    !e.eager ==>
      forall t :: 0 <= t < |s.threads| && t < |s.joined| && !s.threads[t].pc.Draining? && !s.threads[t].pc.Finished? ==> s.joined[t] == []
  }

  lemma StepInOrder(e: Env, s: State, turn: Turn)
    requires InRange(e, s) && turn.thread < |s.threads|
    ensures InOrder(s, Step(e, s, turn))
    ensures JoinsLate(e, s) ==> JoinsLate(e, Step(e, s, turn))
    // with eager pulling a thread joins one tuple that has come to it after every push
    ensures e.eager && s.threads[turn.thread].pc.Pulling? && s.queues[turn.thread] != [] ==>
              Step(e, s, turn).joined[turn.thread] == s.joined[turn.thread] + [s.queues[turn.thread][0]]
  {
    hide Fetched, AllFetched, Group, EnvOk;
    var t := turn.thread;
    assert ThreadOk(e, s.threads[t], t);
    if s.queues[t] != [] { assert s.joined[t] + s.queues[t] == (s.joined[t] + [s.queues[t][0]]) + s.queues[t][1..]; }
    if s.threads[t].pc.Pushing? && |s.threads[t].pc.to| > 0 {
      var d := s.threads[t].pc.to[0];
      assert s.joined[d] + (s.queues[d] + [s.threads[t].pc.a]) == (s.joined[d] + s.queues[d]) + [s.threads[t].pc.a];
    }
  }

  // From any moment of a run to its end.
  lemma {:induction false} EveryRunInOrder(e: Env, turns: seq<Turn>, k: nat)
    requires Inv(e, Start(e)) && k <= |turns|
    ensures InOrder(Run(e, Start(e), turns[..k]), Run(e, Start(e), turns)) && JoinsLate(e, Run(e, Start(e), turns))
    decreases |turns|
  {
    hide Inv, InOrder, JoinsLate, Step;
    if k == |turns| {
      assert turns[..k] == turns;
      SameOrder(e, Run(e, Start(e), turns));
    }
    if |turns| == 0 {
      StartsLate(e);
    } else {
      var n := |turns| - 1;
      EveryRunInOrder(e, turns[..n], if k <= n then k else n);
      var s, turn := Run(e, Start(e), turns[..n]), turns[n];
      InvRange(e, s);
      if turn.thread < |s.threads| {
        StepInOrder(e, s, turn);
        if k <= n {
          assert turns[..n][..k] == turns[..k];
          OrderGoesOn(Run(e, Start(e), turns[..k]), s, Step(e, s, turn));
        }
      } else if k <= n {
        assert turns[..n][..k] == turns[..k];
      }
    }
  }

  lemma SameOrder(e: Env, s: State)
    requires Inv(e, s)
    ensures InOrder(s, s)
  {
  }

  lemma StartsLate(e: Env)
    ensures JoinsLate(e, Start(e))
  {
  }

  lemma OrderGoesOn(a: State, b: State, c: State)
    requires InOrder(a, b) && InOrder(b, c)
    ensures InOrder(a, c)
  {
  }

  lemma EveryHashRunJoins(R: seq<Tuple>, S: seq<Tuple>, nthreads: nat, eager: bool, turns: seq<Turn>)
    requires nthreads > 0 && KeysOk(R) && KeysOk(S)
    ensures var e := Env(HashShuffler(nthreads), Slices(R, nthreads), Slices(S, nthreads), eager);
            && Inv(e, Start(e))
            && var s := Run(e, Start(e), turns);
            (forall t :: 0 <= t < |s.threads| ==> s.threads[t].pc.Finished?) ==> Matches(s.joined, |s.joined|) == JoinCount(R, S)
  {
    hide JoinCount, Inv, Step, HashShuffler, Slices, KeysOk;
    HashShufflerOk(nthreads, 0);
    EveryRunJoins(R, S, nthreads, HashShuffler(nthreads), eager, turns);
  }

  // ---- without a shuffler ----

  // Every thread joins all of R with its slice of S (hashing/helper/thread_task.cpp:78-100, fetcher.h:160-190).
  function ReplicatedMatches(R: seq<Tuple>, slicesS: seq<seq<Tuple>>, n: nat): nat
    requires n <= |slicesS|
  {
    if n == 0 then 0 else ReplicatedMatches(R, slicesS, n - 1) + JoinCount(R, slicesS[n - 1])
  }

  lemma {:induction false} ReplicatedPrefix(R: seq<Tuple>, slicesS: seq<seq<Tuple>>, n: nat)
    requires n <= |slicesS|
    ensures ReplicatedMatches(R, slicesS, n) == JoinCount(R, Before(slicesS, n))
    decreases n
  {
    hide JoinCount;
    if n == 0 {
      JoinEmptyRight(R);
    } else {
      ReplicatedPrefix(R, slicesS, n - 1);
      JoinAppend(R, Before(slicesS, n - 1), slicesS[n - 1]);
    }
  }

  lemma ReplicatedJoins(R: seq<Tuple>, S: seq<Tuple>, nthreads: nat)
    requires nthreads > 0
    ensures |Slices(S, nthreads)| == nthreads
    ensures ReplicatedMatches(R, Slices(S, nthreads), nthreads) == JoinCount(R, S)
  {
    SlicesJoin(S, nthreads);
    ReplicatedPrefix(R, Slices(S, nthreads), nthreads);
  }
}

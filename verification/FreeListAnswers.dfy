// What add and try_get of the free list do for their callers (hashing/helper/concurrentqueue.h:1436-1516): said of the states
// a call goes through, whichever branches it takes.
module FreeListAnswers {
  import opened FreeList

  ghost predicate IsSchedule(threads: nat, schedule: seq<Turn>) {
    threads < REFS_MASK - 2 && forall i :: 0 <= i < |schedule| ==> schedule[i].thread < threads
  }

  // The state before turn k of a run from the start.
  ghost function At(nodes: nat, threads: nat, schedule: seq<Turn>, k: nat): (s: State)
    requires IsSchedule(threads, schedule) && k <= |schedule|
    ensures Inv(s) && InRange(s) && |s.threads| == threads
  {
    StartInv(nodes, threads);
    RunInv(Start(nodes, threads), schedule[..k]);
    RunRange(Start(nodes, threads), schedule[..k]);
    Run(Start(nodes, threads), schedule[..k])
  }

  lemma {:induction false} RunRange(s: State, schedule: seq<Turn>)
    requires InRange(s) && forall i :: 0 <= i < |schedule| ==> schedule[i].thread < |s.threads|
    ensures InRange(Run(s, schedule)) && |Run(s, schedule).threads| == |s.threads|
    decreases |schedule|
  {
    hide InRange, Access, NextPc;
    if |schedule| > 0 {
      KeepsRange(s, schedule[0].thread, schedule[0].req);
      RunRange(Step(s, schedule[0].thread, schedule[0].req), schedule[1..]);
    }
  }

  lemma {:induction false} RunNext(s: State, schedule: seq<Turn>, k: nat)
    requires InRange(s) && k < |schedule| && forall i :: 0 <= i < |schedule| ==> schedule[i].thread < |s.threads|
    ensures InRange(Run(s, schedule[..k])) && |Run(s, schedule[..k]).threads| == |s.threads|
    ensures Run(s, schedule[..k + 1]) == Step(Run(s, schedule[..k]), schedule[k].thread, schedule[k].req)
    decreases k
  {
    hide InRange, Access, NextPc;
    RunRange(s, schedule[..k]);
    var s' := Step(s, schedule[0].thread, schedule[0].req);
    KeepsRange(s, schedule[0].thread, schedule[0].req);
    assert schedule[..k + 1][1..] == schedule[1..][..k];
    if k == 0 {
      assert Run(s, schedule[..1]) == Run(s', schedule[..1][1..]) == s';
    } else {
      assert schedule[..k][1..] == schedule[1..][..k - 1];
      RunNext(s', schedule[1..], k - 1);
    }
  }

  lemma AtNext(nodes: nat, threads: nat, schedule: seq<Turn>, k: nat)
    requires IsSchedule(threads, schedule) && k < |schedule|
    ensures At(nodes, threads, schedule, k + 1) == Step(At(nodes, threads, schedule, k), schedule[k].thread, schedule[k].req)
  {
    hide Step, Run, Inv;
    RunNext(Start(nodes, threads), schedule, k);
  }

  // A try_get of thread t, which begins with turn i and has ended before turn j.
  ghost predicate IsTryGet(nodes: nat, threads: nat, schedule: seq<Turn>, t: nat, i: nat, j: nat)
    requires IsSchedule(threads, schedule)
  {
    && i < j <= |schedule| && schedule[i] == Turn(t, TryGet)
    && At(nodes, threads, schedule, i).threads[t].Idle? && At(nodes, threads, schedule, j).threads[t].Idle?
    && forall k :: i < k < j ==> !At(nodes, threads, schedule, k).threads[t].Idle?
  }

  // Turn m pops node n: it was in front, and its successor is.
  ghost predicate PopsNode(nodes: nat, threads: nat, schedule: seq<Turn>, m: nat, n: nat)
    requires IsSchedule(threads, schedule) && m < |schedule|
  {
    var a, b := At(nodes, threads, schedule, m), At(nodes, threads, schedule, m + 1);
    a.head == Some(n) && n < |a.nodes| && b.head == a.nodes[n].next
  }

  // The call's last turn gives the client a node that the call has popped, or none; then the list was empty at some moment of
  // the call.
  ghost predicate TryGetAnswered(nodes: nat, threads: nat, schedule: seq<Turn>, t: nat, i: nat, j: nat)
    requires IsSchedule(threads, schedule) && IsTryGet(nodes, threads, schedule, t, i, j)
  {
    var a, b := At(nodes, threads, schedule, j - 1), At(nodes, threads, schedule, j);
    if b.held == a.held then exists m: nat :: i < m < j && Linked(At(nodes, threads, schedule, m), [])
    else
      exists n: nat, m: nat {:trigger PopsNode(nodes, threads, schedule, m, n)} ::
        && b.held == a.held + {n} && n !in a.held
        && i < m < j && schedule[m].thread == t && PopsNode(nodes, threads, schedule, m, n)
  }

  // The thread has read an empty list, and goes on only because it has to put a node back.
  predicate ReadEmpty(pc: Pc) {
    (pc.GetUnref? && pc.head == None)
    || ((pc.PushLoadHead? || pc.PushSetNext? || pc.PushSetRefs? || pc.PushCas? || pc.PushRetract?) && pc.ret == ToLoop(None))
  }

  predicate InTryGet(pc: Pc) {
    && !pc.Idle? && !pc.AddFlag?
    && (pc.PushLoadHead? || pc.PushSetNext? || pc.PushSetRefs? || pc.PushCas? || pc.PushRetract? ==> pc.ret.ToLoop?)
  }

  // What holds within the call before turn k; m is the moment it has seen the list empty, or popped a node.
  ghost predicate TryGetSoFar(nodes: nat, threads: nat, schedule: seq<Turn>, t: nat, i: nat, k: nat, m: nat)
    requires IsSchedule(threads, schedule) && t < threads && i < k <= |schedule| && i <= m < k
  {
    var pc := At(nodes, threads, schedule, k).threads[t];
    && InTryGet(pc)
    && (ReadEmpty(pc) ==> i < m && At(nodes, threads, schedule, m).head == None)
    && (HasPopped(pc) ==> i < m && schedule[m].thread == t && PopsNode(nodes, threads, schedule, m, pc.node))
  }

  // One step of the thread itself.
  lemma TryGetMoves(s: State, t: nat, req: Request)
    requires Inv(s) && InRange(s) && t < |s.threads| && InTryGet(s.threads[t])
    ensures var pc, pc' := s.threads[t], NextPc(s, t, req);
            && (pc'.Idle? ==> pc.GetTake? || s.head == None || ReadEmpty(pc))
            && (!pc'.Idle? ==> InTryGet(pc'))
            && (ReadEmpty(pc') ==> s.head == None || ReadEmpty(pc))
            && (HasPopped(pc') && !HasPopped(pc) ==> s.head == Some(pc'.node) && pc'.node < |s.nodes|
                                                     && Step(s, t, req).head == s.nodes[pc'.node].next)
            && (HasPopped(pc') && HasPopped(pc) ==> pc'.node == pc.node)
  {
    hide Inv;
    if s.threads[t].GetCasHead? { PopInstallsSuccessor(s, t); }
  }

  lemma TryGetNext(nodes: nat, threads: nat, schedule: seq<Turn>, t: nat, i: nat, j: nat, k: nat, m: nat) returns (m': nat)
    requires IsSchedule(threads, schedule) && t < threads && IsTryGet(nodes, threads, schedule, t, i, j)
    requires i < k < k + 1 < j && i <= m < k && TryGetSoFar(nodes, threads, schedule, t, i, k, m)
    ensures i <= m' <= k && TryGetSoFar(nodes, threads, schedule, t, i, k + 1, m')
  {
    hide Inv, InRange, Linked, NextPc, Access, ReadEmpty, InTryGet, HasPopped;
    var s := At(nodes, threads, schedule, k);
    AtNext(nodes, threads, schedule, k);
    m' := m;
    if schedule[k].thread == t {
      TryGetMoves(s, t, schedule[k].req);
      var pc, pc' := s.threads[t], At(nodes, threads, schedule, k + 1).threads[t];
      if (ReadEmpty(pc') && !ReadEmpty(pc)) || (HasPopped(pc') && !HasPopped(pc)) { m' := k; }
      ReadOrPopped(pc);
      ReadOrPopped(pc');
    }
  }

  lemma ReadOrPopped(pc: Pc)
    ensures !(ReadEmpty(pc) && HasPopped(pc))
  {
  }

  lemma TryGetBegins(nodes: nat, threads: nat, schedule: seq<Turn>, t: nat, i: nat)
    requires IsSchedule(threads, schedule) && i < |schedule| && schedule[i] == Turn(t, TryGet)
    requires At(nodes, threads, schedule, i).threads[t].Idle?
    ensures TryGetSoFar(nodes, threads, schedule, t, i, i + 1, i)
  {
    hide Inv, InRange;
    AtNext(nodes, threads, schedule, i);
  }

  lemma {:induction false} TryGetGoesOn(nodes: nat, threads: nat, schedule: seq<Turn>, t: nat, i: nat, j: nat, k: nat) returns (m: nat)
    requires IsSchedule(threads, schedule) && t < threads && IsTryGet(nodes, threads, schedule, t, i, j) && i < k < j
    ensures i <= m < k && TryGetSoFar(nodes, threads, schedule, t, i, k, m)
    decreases k
  {
    hide Inv, InRange, TryGetSoFar;
    if k == i + 1 {
      TryGetBegins(nodes, threads, schedule, t, i);
      m := i;
    } else {
      m := TryGetGoesOn(nodes, threads, schedule, t, i, j, k - 1);
      m := TryGetNext(nodes, threads, schedule, t, i, j, k - 1, m);
    }
  }

  lemma NothingLinked(s: State)
    requires s.head == None
    ensures Linked(s, [])
  {
  }

  // In every run every try_get answers what it should.
  lemma EveryTryGetAnswers(nodes: nat, threads: nat, schedule: seq<Turn>, t: nat, i: nat, j: nat)
    requires IsSchedule(threads, schedule) && IsTryGet(nodes, threads, schedule, t, i, j)
    ensures TryGetAnswered(nodes, threads, schedule, t, i, j)
  {
    hide Inv, InRange, PopsNode, Linked;
    TryGetBegins(nodes, threads, schedule, t, i);
    var m := TryGetGoesOn(nodes, threads, schedule, t, i, j, j - 1);
    var s := At(nodes, threads, schedule, j - 1);
    AtNext(nodes, threads, schedule, j - 1);
    assert schedule[j - 1].thread == t;
    TryGetMoves(s, t, schedule[j - 1].req);
    if s.threads[t].GetTake? {
      TakenNodeWasFree(s, t, schedule[j - 1].req);
    } else if s.head == None {
      NothingLinked(s);
    } else {
      NothingLinked(At(nodes, threads, schedule, m));
    }
  }

  // ---- add ----

  // An add of node n by thread t, which begins with turn i and has ended before turn j.
  ghost predicate IsAdd(nodes: nat, threads: nat, schedule: seq<Turn>, t: nat, n: nat, i: nat, j: nat)
    requires IsSchedule(threads, schedule)
  {
    && i < j <= |schedule| && schedule[i] == Turn(t, Add(n)) && n in At(nodes, threads, schedule, i).held
    && At(nodes, threads, schedule, i).threads[t].Idle? && At(nodes, threads, schedule, j).threads[t].Idle?
    && forall k :: i < k < j ==> !At(nodes, threads, schedule, k).threads[t].Idle?
  }

  // Turn m puts n in front of the list, or leaves it to a thread that still visits it.
  ghost predicate Leaves(nodes: nat, threads: nat, schedule: seq<Turn>, m: nat, n: nat)
    requires IsSchedule(threads, schedule) && m < |schedule|
  {
    At(nodes, threads, schedule, m + 1).head == Some(n) || Visitors(At(nodes, threads, schedule, m + 1).threads, n) > 0
  }

  // The call's first turn takes the node from the client, its last one leaves it on the list or to a visitor; none of its
  // turns gives a node to a client, or moves another node.
  ghost predicate AddAnswered(nodes: nat, threads: nat, schedule: seq<Turn>, t: nat, n: nat, i: nat, j: nat)
    requires IsSchedule(threads, schedule) && IsAdd(nodes, threads, schedule, t, n, i, j)
  {
    && At(nodes, threads, schedule, i + 1).held == At(nodes, threads, schedule, i).held - {n}
    && schedule[j - 1].thread == t && Leaves(nodes, threads, schedule, j - 1, n)
    && forall k :: i < k < j && schedule[k].thread == t ==>
         var a, b := At(nodes, threads, schedule, k), At(nodes, threads, schedule, k + 1);
         b.held == a.held && (b.head == a.head || b.head == Some(n))
  }

  predicate InAdd(pc: Pc, n: nat) {
    pc == AddFlag(n)
    || ((pc.PushLoadHead? || pc.PushSetNext? || pc.PushSetRefs? || pc.PushCas? || pc.PushRetract?) && pc.node == n && pc.ret == ToCaller)
  }

  lemma AddMoves(s: State, t: nat, req: Request, n: nat)
    requires Inv(s) && InRange(s) && t < |s.threads| && InAdd(s.threads[t], n)
    ensures var s' := Step(s, t, req);
            && s'.held == s.held && (s'.head == s.head || s'.head == Some(n))
            && (NextPc(s, t, req).Idle? || InAdd(NextPc(s, t, req), n))
            && (NextPc(s, t, req).Idle? ==> s'.head == Some(n) || Visitors(s'.threads, n) > 0)
  {
    hide Linked, Remembers, Visitors;
    var list, place :| InvWith(s, list, place);
    KeepsInv(s, list, place, t, req);
    if NextPc(s, t, req).Idle? && Step(s, t, req).head != Some(n) {
      assert NextPlace(s, place, t, req)[n] == Waiting;
      assert NodeCounted(Step(s, t, req), NextPlace(s, place, t, req), n);
    }
  }

  lemma {:induction false} AddGoesOn(nodes: nat, threads: nat, schedule: seq<Turn>, t: nat, n: nat, i: nat, j: nat, k: nat)
    requires IsSchedule(threads, schedule) && t < threads && IsAdd(nodes, threads, schedule, t, n, i, j) && i < k < j
    ensures InAdd(At(nodes, threads, schedule, k).threads[t], n)
    decreases k
  {
    hide Inv, InRange, Access, InAdd, NextPc;
    AtNext(nodes, threads, schedule, k - 1);
    if k == i + 1 {
      AddBegins(At(nodes, threads, schedule, i), t, n);
    } else {
      AddGoesOn(nodes, threads, schedule, t, n, i, j, k - 1);
      if schedule[k - 1].thread == t { AddMoves(At(nodes, threads, schedule, k - 1), t, schedule[k - 1].req, n); }
    }
  }

  lemma AddBegins(s: State, t: nat, n: nat)
    requires InRange(s) && t < |s.threads| && s.threads[t].Idle? && n in s.held
    ensures InAdd(NextPc(s, t, Add(n)), n) && Step(s, t, Add(n)).held == s.held - {n}
  {
  }

  // In every run every add does what it should.
  lemma EveryAddAnswers(nodes: nat, threads: nat, schedule: seq<Turn>, t: nat, n: nat, i: nat, j: nat)
    requires IsSchedule(threads, schedule) && t < threads && IsAdd(nodes, threads, schedule, t, n, i, j)
    ensures AddAnswered(nodes, threads, schedule, t, n, i, j)
  {
    hide Inv, InRange, Access, InAdd, NextPc;
    AtNext(nodes, threads, schedule, i);
    AddBegins(At(nodes, threads, schedule, i), t, n);
    forall k | i < k < j && schedule[k].thread == t
      ensures var a, b := At(nodes, threads, schedule, k), At(nodes, threads, schedule, k + 1);
              b.held == a.held && (b.head == a.head || b.head == Some(n))
    {
      AtNext(nodes, threads, schedule, k);
      AddGoesOn(nodes, threads, schedule, t, n, i, j, k);
      AddMoves(At(nodes, threads, schedule, k), t, schedule[k].req, n);
    }
    AddEnds(nodes, threads, schedule, t, n, i, j);
  }

  lemma AddEnds(nodes: nat, threads: nat, schedule: seq<Turn>, t: nat, n: nat, i: nat, j: nat)
    requires IsSchedule(threads, schedule) && t < threads && IsAdd(nodes, threads, schedule, t, n, i, j)
    ensures schedule[j - 1].thread == t && Leaves(nodes, threads, schedule, j - 1, n)
  {
    hide Inv, InRange, Access, NextPc;
    AtNext(nodes, threads, schedule, j - 1);
    if j == i + 1 {
      AddBegins(At(nodes, threads, schedule, i), t, n);
    } else {
      AddGoesOn(nodes, threads, schedule, t, n, i, j, j - 1);
      AddMoves(At(nodes, threads, schedule, j - 1), t, schedule[j - 1].req, n);
    }
  }
}

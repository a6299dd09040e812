// The lock-free free list of the multi-producer queue (hashing/helper/concurrentqueue.h:1408-1524),
// as a state machine whose steps are the single atomic accesses of the code.  Any number of threads
// run `add` and `try_get`; a schedule picks, step by step, which thread moves.  Memory is
// sequentially consistent.
module FreeList {
  datatype Option<+T> = None | Some(value: T)

  const REFS_MASK: int := 0x7FFFFFFF
  const SHOULD_BE_ON_FREELIST: int := 0x80000000
  const WORD: int := 0x1_0000_0000

  // freeListRefs is one 32-bit word: the low 31 bits count references, the top bit is the flag
  // "should be on the free list".
  datatype Node = Node(refs: int, next: Option<nat>)

  // add_knowing_refcount_is_zero is entered from `add` and from inside the loop of `try_get`.
  datatype Return = ToCaller | ToLoop(head: Option<nat>)

  datatype Pc =
    | Idle
    | AddFlag(node: nat)                                   // line 1442
    | PushLoadHead(node: nat, ret: Return)                 // line 1503
    | PushSetNext(node: nat, head: Option<nat>, ret: Return)
    | PushSetRefs(node: nat, head: Option<nat>, ret: Return)
    | PushCas(node: nat, head: Option<nat>, ret: Return)
    | PushRetract(node: nat, head: Option<nat>, ret: Return)
    | GetLoadHead                                          // line 1453
    | GetLoadRefs(node: nat)
    | GetCasRefs(node: nat, refs: int)
    | GetLoadNext(node: nat)
    | GetCasHead(node: nat, next: Option<nat>)
    | GetAssert(node: nat)                                 // line 1471
    | GetTake(node: nat)
    | GetUnref(node: nat, head: Option<nat>)

  // What a client may ask of an idle thread.
  datatype Request = Add(node: nat) | TryGet

  // `held` are the nodes in the hands of clients: only those may be added.
  datatype State = State(head: Option<nat>, nodes: seq<Node>, threads: seq<Pc>, held: set<nat>)

  function FetchAdd(refs: int, delta: int): int { (refs + delta) % WORD }

  // The loop head of try_get: a null head ends the call without a node.
  function LoopFrom(head: Option<nat>): Pc {
    if head == None then Idle else GetLoadRefs(head.value)
  }

  function ReturnTo(ret: Return): Pc {
    match ret
    case ToCaller => Idle
    case ToLoop(head) => LoopFrom(head)
  }

  predicate In(link: Option<nat>, count: nat) { link.Some? ==> link.value < count }

  // Every node number a thread remembers denotes a node.
  predicate PcInRange(pc: Pc, count: nat) {
    match pc
    case Idle => true
    case GetLoadHead => true
    case AddFlag(n) => n < count
    case PushLoadHead(n, ret) => n < count && (ret.ToLoop? ==> In(ret.head, count))
    case PushSetNext(n, head, ret) => n < count && In(head, count) && (ret.ToLoop? ==> In(ret.head, count))
    case PushSetRefs(n, head, ret) => n < count && In(head, count) && (ret.ToLoop? ==> In(ret.head, count))
    case PushCas(n, head, ret) => n < count && In(head, count) && (ret.ToLoop? ==> In(ret.head, count))
    case PushRetract(n, head, ret) => n < count && In(head, count) && (ret.ToLoop? ==> In(ret.head, count))
    case GetLoadRefs(n) => n < count
    case GetCasRefs(n, _) => n < count
    case GetLoadNext(n) => n < count
    case GetCasHead(n, next) => n < count && In(next, count)
    case GetAssert(n) => n < count
    case GetTake(n) => n < count
    case GetUnref(n, head) => n < count && In(head, count)
  }

  predicate InRange(s: State) {
    && In(s.head, |s.nodes|)
    && (forall n :: 0 <= n < |s.nodes| ==> In(s.nodes[n].next, |s.nodes|))
    && (forall t :: 0 <= t < |s.threads| ==> PcInRange(s.threads[t], |s.nodes|))
    && (forall n :: n in s.held ==> n < |s.nodes|)
  }

  function SetRefs(s: State, n: nat, refs: int): State
    requires n < |s.nodes|
  {
    s.(nodes := s.nodes[n := s.nodes[n].(refs := refs)])
  }

  // What one atomic access of thread t does to the shared words.  `req` matters only to an idle thread.
  function Access(s: State, t: nat, req: Request): State
    requires InRange(s) && t < |s.threads|
  {
    match s.threads[t]
    case Idle => if req.Add? && req.node in s.held then s.(held := s.held - {req.node}) else s
    case AddFlag(n) => SetRefs(s, n, FetchAdd(s.nodes[n].refs, SHOULD_BE_ON_FREELIST))
    case PushSetNext(n, head, _) => s.(nodes := s.nodes[n := s.nodes[n].(next := head)])
    case PushSetRefs(n, _, _) => SetRefs(s, n, 1)
    case PushCas(n, head, _) => if s.head == head then s.(head := Some(n)) else s
    case PushRetract(n, _, _) => SetRefs(s, n, FetchAdd(s.nodes[n].refs, SHOULD_BE_ON_FREELIST - 1))
    case GetCasRefs(n, refs) => if s.nodes[n].refs == refs then SetRefs(s, n, FetchAdd(refs, 1)) else s
    case GetCasHead(n, next) => if s.head == Some(n) then s.(head := next) else s
    case GetTake(n) => SetRefs(s, n, FetchAdd(s.nodes[n].refs, -2)).(held := s.held + {n})
    case GetUnref(n, _) => SetRefs(s, n, FetchAdd(s.nodes[n].refs, -1))
    case _ => s
  }

  // Where the thread goes, decided by what that access read.
  function NextPc(s: State, t: nat, req: Request): Pc
    requires InRange(s) && t < |s.threads|
  {
    match s.threads[t]
    case Idle => if req.TryGet? then GetLoadHead else if req.node in s.held then AddFlag(req.node) else Idle
    case AddFlag(n) => if s.nodes[n].refs == 0 then PushLoadHead(n, ToCaller) else Idle
    case PushLoadHead(n, ret) => PushSetNext(n, s.head, ret)
    case PushSetNext(n, head, ret) => PushSetRefs(n, head, ret)
    case PushSetRefs(n, head, ret) => PushCas(n, head, ret)
    case PushCas(n, head, ret) => if s.head == head then ReturnTo(ret) else PushRetract(n, s.head, ret)
    case PushRetract(n, head, ret) => if s.nodes[n].refs == 1 then PushSetNext(n, head, ret) else ReturnTo(ret)
    case GetLoadHead => LoopFrom(s.head)
    case GetLoadRefs(n) =>
      if s.nodes[n].refs % (REFS_MASK + 1) == 0 then GetLoadHead else GetCasRefs(n, s.nodes[n].refs)
    case GetCasRefs(n, refs) => if s.nodes[n].refs == refs then GetLoadNext(n) else GetLoadHead
    case GetLoadNext(n) => GetCasHead(n, s.nodes[n].next)
    case GetCasHead(n, _) => if s.head == Some(n) then GetAssert(n) else GetUnref(n, s.head)
    case GetAssert(n) => GetTake(n)
    case GetTake(n) => Idle
    case GetUnref(n, head) =>
      if s.nodes[n].refs == SHOULD_BE_ON_FREELIST + 1 then PushLoadHead(n, ToLoop(head)) else LoopFrom(head)
  }

  // One step of thread t.
  function Step(s: State, t: nat, req: Request): State
    requires InRange(s) && t < |s.threads|
  {
    Access(s, t, req).(threads := s.threads[t := NextPc(s, t, req)])
  }

  // ---- where each node is ----

  // The node a thread is moving between a client and the list.
  function Owned(pc: Pc): Option<nat> {
    match pc
    case AddFlag(n) => Some(n)
    case PushLoadHead(n, _) => Some(n)
    case PushSetNext(n, _, _) => Some(n)
    case PushSetRefs(n, _, _) => Some(n)
    case PushCas(n, _, _) => Some(n)
    case PushRetract(n, _, _) => Some(n)
    case GetAssert(n) => Some(n)
    case GetTake(n) => Some(n)
    case _ => None
  }

  // A thread inside try_get whose compare-and-swap of the head has succeeded.
  predicate HasPopped(pc: Pc) { pc.GetAssert? || pc.GetTake? }

  // A thread inside try_get that has raised the reference count of the node and not lowered it yet.
  predicate Visits(pc: Pc, n: nat) {
    (pc.GetLoadNext? || pc.GetCasHead? || pc.GetUnref?) && pc.node == n
  }

  function Visitors(threads: seq<Pc>, n: nat): nat {
    if |threads| == 0 then 0
    else Visitors(threads[..|threads| - 1], n) + (if Visits(threads[|threads| - 1], n) then 1 else 0)
  }

  // OnList, Held (by a client), InTransit (one thread is responsible for it), or Waiting: a client has
  // added it, but threads still hold references, and the last of them will put it on the list.
  datatype Place = OnList | Held | InTransit(thread: nat) | Waiting

  // What freeListRefs holds beyond the visitors' references.
  function BaseRefs(pc: Pc): int {
    if pc.PushLoadHead? || pc.PushSetNext? || pc.PushSetRefs? then SHOULD_BE_ON_FREELIST
    else if pc.PushCas? || pc.PushRetract? then 1
    else if pc.GetAssert? || pc.GetTake? then 2
    else 0
  }

  function PlaceRefs(p: Place, threads: seq<Pc>): int
    requires p.InTransit? ==> p.thread < |threads|
  {
    match p
    case OnList => 1
    case Held => 0
    case InTransit(t) => BaseRefs(threads[t])
    case Waiting => SHOULD_BE_ON_FREELIST
  }

  // The i-th node of the list points to the one after it, the last to nothing.
  predicate LinkAt(nodes: seq<Node>, list: seq<nat>, i: nat)
    requires i < |list| && list[i] < |nodes|
  {
    nodes[list[i]].next == if i + 1 < |list| then Some(list[i + 1]) else None
  }

  // The linked list from `head` is exactly `list`, without repetition.
  predicate Linked(s: State, list: seq<nat>) {
    && s.head == (if |list| == 0 then None else Some(list[0]))
    && (forall i :: 0 <= i < |list| ==> list[i] < |s.nodes|)
    && (forall i {:trigger LinkAt(s.nodes, list, i)} :: 0 <= i < |list| ==> LinkAt(s.nodes, list, i))
    && (forall i, j :: 0 <= i < j < |list| ==> list[i] != list[j])
  }

  // Every node is in exactly one place, and the places agree with the list, the clients and the threads.
  predicate Placed(s: State, list: seq<nat>, place: seq<Place>) {
    && |place| == |s.nodes|
    && (forall n :: 0 <= n < |place| ==> (place[n] == OnList <==> n in list))
    && (forall n :: 0 <= n < |place| ==> (place[n] == Held <==> n in s.held))
    && (forall n :: 0 <= n < |place| && place[n].InTransit? ==>
          place[n].thread < |s.threads| && Owned(s.threads[place[n].thread]) == Some(n))
    && (forall t :: 0 <= t < |s.threads| && Owned(s.threads[t]).Some? ==>
          Owned(s.threads[t]).value < |place| && place[Owned(s.threads[t]).value] == InTransit(t))
  }

  predicate NodeCounted(s: State, place: seq<Place>, n: nat)
    requires n < |s.nodes| == |place|
    requires place[n].InTransit? ==> place[n].thread < |s.threads|
  {
    && s.nodes[n].refs == PlaceRefs(place[n], s.threads) + Visitors(s.threads, n)
    && (place[n] == Waiting ==> Visitors(s.threads, n) > 0)
    && (place[n].InTransit? && BaseRefs(s.threads[place[n].thread]) == SHOULD_BE_ON_FREELIST ==>
          Visitors(s.threads, n) == 0)
  }

  // The next pointer a thread has written or read is still the node's.
  predicate Remembers(s: State, pc: Pc)
    requires PcInRange(pc, |s.nodes|)
  {
    match pc
    case PushSetRefs(n, head, _) => s.nodes[n].next == head
    case PushCas(n, head, _) => s.nodes[n].next == head
    case GetCasHead(n, next) => s.nodes[n].next == next
    case GetCasRefs(_, refs) => refs % (REFS_MASK + 1) != 0
    case _ => true
  }

  ghost predicate InvWith(s: State, list: seq<nat>, place: seq<Place>) {
    && |s.threads| < REFS_MASK - 2
    && InRange(s)
    && Linked(s, list)
    && Placed(s, list, place)
    && (forall n :: 0 <= n < |s.nodes| ==> NodeCounted(s, place, n))
    && (forall t :: 0 <= t < |s.threads| ==> Remembers(s, s.threads[t]))
  }

  // ---- counting visitors ----

  lemma {:induction false} VisitorsUpdate(threads: seq<Pc>, t: nat, pc: Pc, n: nat)
    requires t < |threads|
    ensures Visitors(threads[t := pc], n) ==
            Visitors(threads, n) - (if Visits(threads[t], n) then 1 else 0) + (if Visits(pc, n) then 1 else 0)
  {
    var k := |threads| - 1;
    if t == k {
      assert threads[t := pc][..k] == threads[..k];
    } else {
      assert threads[t := pc][..k] == threads[..k][t := pc];
      VisitorsUpdate(threads[..k], t, pc, n);
    }
  }

  lemma {:induction false} VisitorsBound(threads: seq<Pc>, n: nat)
    ensures Visitors(threads, n) <= |threads|
    ensures forall t :: 0 <= t < |threads| && Visits(threads[t], n) ==> Visitors(threads, n) > 0
  {
    if |threads| > 0 {
      VisitorsBound(threads[..|threads| - 1], n);
    }
  }

  // ---- every step keeps the invariant ----

  // The new list and the new places are those below.
  ghost function NextList(s: State, list: seq<nat>, t: nat): seq<nat>
    requires InRange(s) && t < |s.threads|
  {
    var pc := s.threads[t];
    if pc.PushCas? && s.head == pc.head then [pc.node] + list
    else if pc.GetCasHead? && s.head == Some(pc.node) && |list| > 0 then list[1..]
    else list
  }

  ghost function NextPlace(s: State, place: seq<Place>, t: nat, req: Request): seq<Place>
    requires InRange(s) && t < |s.threads| && |place| == |s.nodes|
  {
    var pc := s.threads[t];
    match pc
    case Idle => if req.Add? && req.node in s.held then place[req.node := InTransit(t)] else place
    case AddFlag(n) => if s.nodes[n].refs == 0 then place else place[n := Waiting]
    case PushCas(n, head, _) => if s.head == head then place[n := OnList] else place
    case PushRetract(n, _, _) => if s.nodes[n].refs == 1 then place else place[n := Waiting]
    case GetCasHead(n, _) => if s.head == Some(n) then place[n := InTransit(t)] else place
    case GetTake(n) => place[n := Held]
    case GetUnref(n, _) => if s.nodes[n].refs == SHOULD_BE_ON_FREELIST + 1 then place[n := InTransit(t)] else place
    case _ => place
  }

  lemma NextPcInRange(s: State, t: nat, req: Request)
    requires InRange(s) && t < |s.threads|
    ensures PcInRange(NextPc(s, t, req), |s.nodes|)
  {
    assert PcInRange(s.threads[t], |s.nodes|);
  }

  lemma KeepsRange(s: State, t: nat, req: Request)
    requires InRange(s) && t < |s.threads|
    ensures InRange(Step(s, t, req))
  {
    assert PcInRange(s.threads[t], |s.nodes|);
    NextPcInRange(s, t, req);
  }

  // Only a node owned by the moving thread gets a new next pointer, and it is not on the list.
  lemma KeepsLinks(s: State, list: seq<nat>, place: seq<Place>, t: nat, req: Request)
    requires InvWith(s, list, place) && t < |s.threads|
    ensures Linked(Step(s, t, req), NextList(s, list, t))
  {
    var s', list', pc := Step(s, t, req), NextList(s, list, t), s.threads[t];
    assert Remembers(s, pc);
    if pc.PushCas? && s.head == pc.head {
      assert place[pc.node] == InTransit(t);
      forall i | 0 <= i < |list'| ensures LinkAt(s'.nodes, list', i) {
        if i > 0 { assert LinkAt(s.nodes, list, i - 1); }
      }
    } else if pc.GetCasHead? && s.head == Some(pc.node) {
      assert LinkAt(s.nodes, list, 0);
      forall i | 0 <= i < |list'| ensures LinkAt(s'.nodes, list', i) {
        assert LinkAt(s.nodes, list, i + 1);
      }
    } else {
      LinksUntouched(s, list, place, t, req);
    }
  }

  lemma LinksUntouched(s: State, list: seq<nat>, place: seq<Place>, t: nat, req: Request)
    requires InvWith(s, list, place) && t < |s.threads|
    requires s.threads[t].PushCas? ==> s.head != s.threads[t].head
    requires s.threads[t].GetCasHead? ==> s.head != Some(s.threads[t].node)
    ensures Linked(Step(s, t, req), list)
  {
    var s', pc := Step(s, t, req), s.threads[t];
    if pc.PushSetNext? { assert place[pc.node] == InTransit(t); }
    forall i | 0 <= i < |list| ensures LinkAt(s'.nodes, list, i) {
      assert LinkAt(s.nodes, list, i);
    }
  }

  // Thread t moves node n to place p, or (p the same as before) only changes its own state.
  lemma Moves(s: State, list: seq<nat>, place: seq<Place>, s': State, list': seq<nat>, t: nat, n: nat, p: Place)
    requires Placed(s, list, place) && t < |s.threads| && n < |place|
    requires |s'.nodes| == |s.nodes| && |s'.threads| == |s.threads| && s'.threads == s.threads[t := s'.threads[t]]
    requires forall m :: m != n ==> (m in list' <==> m in list) && (m in s'.held <==> m in s.held)
    requires (n in list' <==> p == OnList) && (n in s'.held <==> p == Held)
    requires Owned(s.threads[t]) == None || Owned(s.threads[t]) == Some(n)
    requires place[n].InTransit? ==> place[n] == InTransit(t)
    requires Owned(s'.threads[t]) == if p.InTransit? then Some(n) else None
    requires p.InTransit? ==> p == InTransit(t)
    ensures Placed(s', list', place[n := p])
  {
    forall u | 0 <= u < |s'.threads| && u != t && Owned(s'.threads[u]).Some?
      ensures Owned(s'.threads[u]).value < |place| && place[n := p][Owned(s'.threads[u]).value] == InTransit(u)
    {
      assert s'.threads[u] == s.threads[u];
    }
  }

  lemma KeepsOwnedPlaces(s: State, list: seq<nat>, place: seq<Place>, t: nat, req: Request)
    requires InvWith(s, list, place) && t < |s.threads| && Owned(s.threads[t]).Some?
    ensures Placed(Step(s, t, req), NextList(s, list, t), NextPlace(s, place, t, req))
  {
    var n := Owned(s.threads[t]).value;
    var place' := NextPlace(s, place, t, req);
    assert place[n] == InTransit(t);
    Moves(s, list, place, Step(s, t, req), NextList(s, list, t), t, n, place'[n]);
    assert place' == place[n := place'[n]];
  }

  lemma KeepsPlaces(s: State, list: seq<nat>, place: seq<Place>, t: nat, req: Request)
    requires InvWith(s, list, place) && t < |s.threads|
    ensures Placed(Step(s, t, req), NextList(s, list, t), NextPlace(s, place, t, req))
  {
    hide NodeCounted, Remembers, LinkAt, Visitors;
    var s', list', pc := Step(s, t, req), NextList(s, list, t), s.threads[t];
    if Owned(pc).Some? {
      KeepsOwnedPlaces(s, list, place, t, req);
    } else if pc.Idle? && req.Add? && req.node in s.held {
      Moves(s, list, place, s', list', t, req.node, InTransit(t));
    } else if pc.GetCasHead? && s.head == Some(pc.node) {
      assert list == [pc.node] + list[1..];
      Moves(s, list, place, s', list', t, pc.node, InTransit(t));
    } else if pc.GetUnref? && s.nodes[pc.node].refs == SHOULD_BE_ON_FREELIST + 1 {
      WaitingNode(s, list, place, t);
      Moves(s, list, place, s', list', t, pc.node, InTransit(t));
    } else {
      assert Owned(s'.threads[t]) == None;
    }
  }

  // The last visitor of a flagged node sees exactly the flag and its own reference.
  lemma WaitingNode(s: State, list: seq<nat>, place: seq<Place>, t: nat)
    requires InvWith(s, list, place) && t < |s.threads| && s.threads[t].GetUnref?
    requires s.nodes[s.threads[t].node].refs == SHOULD_BE_ON_FREELIST + 1
    ensures place[s.threads[t].node] == Waiting && Visitors(s.threads, s.threads[t].node) == 1
  {
    var n := s.threads[t].node;
    assert NodeCounted(s, place, n);
    VisitorsBound(s.threads, n);
    assert Visits(s.threads[t], n);
  }

  // The node a step works on, if any.
  function Touched(pc: Pc, req: Request): Option<nat> {
    match pc
    case Idle => if req.Add? then Some(req.node) else None
    case GetLoadHead => None
    case _ => Some(pc.node)
  }

  // A step does not touch the count of a node it does not work on.
  lemma TouchesOneNode(s: State, place: seq<Place>, t: nat, req: Request, n: nat)
    requires InRange(s) && t < |s.threads| && n < |s.nodes| == |place|
    requires Touched(s.threads[t], req) != Some(n)
    ensures Step(s, t, req).nodes[n].refs == s.nodes[n].refs
    ensures !Visits(s.threads[t], n) && !Visits(Step(s, t, req).threads[t], n)
    ensures NextPlace(s, place, t, req)[n] == place[n]
  {
  }

  // How the count of node n follows its place, the visitors and the word in memory.
  lemma CountMoves(s: State, place: seq<Place>, s': State, t: nat, n: nat, p: Place)
    requires n < |s.nodes| == |place| == |s'.nodes| && t < |s.threads|
    requires place[n].InTransit? ==> place[n].thread < |s.threads|
    requires NodeCounted(s, place, n)
    requires |s'.threads| == |s.threads| && s'.threads == s.threads[t := s'.threads[t]]
    requires p.InTransit? ==> p.thread < |s.threads|
    requires var v := Visitors(s.threads, n);
             var v' := v - (if Visits(s.threads[t], n) then 1 else 0) + (if Visits(s'.threads[t], n) then 1 else 0);
             && s'.nodes[n].refs == PlaceRefs(p, s'.threads) + v'
             && (p == Waiting ==> v' > 0)
             && (p.InTransit? && BaseRefs(s'.threads[p.thread]) == SHOULD_BE_ON_FREELIST ==> v' == 0)
    ensures NodeCounted(s', place[n := p], n)
  {
    VisitorsUpdate(s.threads, t, s'.threads[t], n);
  }

  lemma KeepsOtherCounts(s: State, list: seq<nat>, place: seq<Place>, t: nat, req: Request, n: nat)
    requires InvWith(s, list, place) && t < |s.threads| && n < |s.nodes|
    requires Placed(Step(s, t, req), NextList(s, list, t), NextPlace(s, place, t, req))
    requires Touched(s.threads[t], req) != Some(n)
    ensures NodeCounted(Step(s, t, req), NextPlace(s, place, t, req), n)
  {
    TouchesOneNode(s, place, t, req, n);
    assert place[n] != InTransit(t);
    CountMoves(s, place, Step(s, t, req), t, n, place[n]);
  }

  lemma NoWrap(refs: int, delta: int)
    requires 0 <= refs + delta < WORD
    ensures FetchAdd(refs, delta) == refs + delta
  {
  }

  // A flagged node that nobody references has no low bits set.
  lemma FlagAlone(s: State, place: seq<Place>, n: nat)
    requires n < |s.nodes| == |place| && (place[n].InTransit? ==> place[n].thread < |s.threads|)
    requires NodeCounted(s, place, n) && s.nodes[n].refs % (REFS_MASK + 1) != 0
    ensures place[n].InTransit? ==> BaseRefs(s.threads[place[n].thread]) != SHOULD_BE_ON_FREELIST
  {
  }

  lemma KeepsIdleCount(s: State, list: seq<nat>, place: seq<Place>, t: nat, req: Request)
    requires InvWith(s, list, place) && t < |s.threads| && s.threads[t].Idle?
    requires req.Add? && req.node < |s.nodes|
    ensures CountKept(s, place, t, req, req.node)
  {
    assert NodeCounted(s, place, req.node);
    CountMoves(s, place, Step(s, t, req), t, req.node, if req.node in s.held then InTransit(t) else place[req.node]);
  }

  // Only the place of the node a step works on changes.
  lemma TouchedPlace(s: State, place: seq<Place>, t: nat, req: Request, n: nat)
    requires InRange(s) && t < |s.threads| && n < |s.nodes| == |place|
    requires Touched(s.threads[t], req) == Some(n)
    ensures NextPlace(s, place, t, req) == place[n := NextPlace(s, place, t, req)[n]]
  {
  }

  // The count of the node a step works on, one lemma per kind of step.
  ghost predicate CountKept(s: State, place: seq<Place>, t: nat, req: Request, n: nat)
    requires InRange(s) && t < |s.threads| && n < |s.nodes| == |place|
    requires forall m :: 0 <= m < |place| && place[m].InTransit? ==> place[m].thread < |s.threads|
  {
    var p := NextPlace(s, place, t, req)[n];
    NodeCounted(Step(s, t, req), place[n := p], n)
  }

  lemma KeepsAddCount(s: State, list: seq<nat>, place: seq<Place>, t: nat, req: Request)
    requires InvWith(s, list, place) && t < |s.threads| && s.threads[t].AddFlag?
    ensures CountKept(s, place, t, req, s.threads[t].node)
  {
    var n := s.threads[t].node;
    assert place[n] == InTransit(t) && NodeCounted(s, place, n);
    VisitorsBound(s.threads, n);
    NoWrap(s.nodes[n].refs, SHOULD_BE_ON_FREELIST);
    CountMoves(s, place, Step(s, t, req), t, n, if s.nodes[n].refs == 0 then InTransit(t) else Waiting);
  }

  lemma KeepsPushCount(s: State, list: seq<nat>, place: seq<Place>, t: nat, req: Request)
    requires InvWith(s, list, place) && t < |s.threads| && (s.threads[t].PushLoadHead? || s.threads[t].PushSetNext? || s.threads[t].PushSetRefs?)
    ensures CountKept(s, place, t, req, s.threads[t].node)
  {
    var n := s.threads[t].node;
    assert place[n] == InTransit(t) && NodeCounted(s, place, n);
    VisitorsBound(s.threads, n);
    CountMoves(s, place, Step(s, t, req), t, n, InTransit(t));
  }

  lemma KeepsPushCasCount(s: State, list: seq<nat>, place: seq<Place>, t: nat, req: Request)
    requires InvWith(s, list, place) && t < |s.threads| && s.threads[t].PushCas?
    ensures CountKept(s, place, t, req, s.threads[t].node)
  {
    var n := s.threads[t].node;
    assert place[n] == InTransit(t) && NodeCounted(s, place, n);
    VisitorsBound(s.threads, n);
    CountMoves(s, place, Step(s, t, req), t, n, if s.head == s.threads[t].head then OnList else InTransit(t));
  }

  lemma KeepsRetractCount(s: State, list: seq<nat>, place: seq<Place>, t: nat, req: Request)
    requires InvWith(s, list, place) && t < |s.threads| && s.threads[t].PushRetract?
    ensures CountKept(s, place, t, req, s.threads[t].node)
  {
    var n := s.threads[t].node;
    assert place[n] == InTransit(t) && NodeCounted(s, place, n);
    VisitorsBound(s.threads, n);
    NoWrap(s.nodes[n].refs, SHOULD_BE_ON_FREELIST - 1);
    CountMoves(s, place, Step(s, t, req), t, n, if s.nodes[n].refs == 1 then InTransit(t) else Waiting);
  }

  lemma KeepsTakeCount(s: State, list: seq<nat>, place: seq<Place>, t: nat, req: Request)
    requires InvWith(s, list, place) && t < |s.threads| && (s.threads[t].GetAssert? || s.threads[t].GetTake?)
    ensures CountKept(s, place, t, req, s.threads[t].node)
  {
    var n := s.threads[t].node;
    assert place[n] == InTransit(t) && NodeCounted(s, place, n);
    VisitorsBound(s.threads, n);
    NoWrap(s.nodes[n].refs, -2);
    CountMoves(s, place, Step(s, t, req), t, n, if s.threads[t].GetTake? then Held else InTransit(t));
  }

  lemma KeepsLoadCount(s: State, list: seq<nat>, place: seq<Place>, t: nat, req: Request)
    requires InvWith(s, list, place) && t < |s.threads| && (s.threads[t].GetLoadRefs? || s.threads[t].GetLoadNext?)
    ensures CountKept(s, place, t, req, s.threads[t].node)
  {
    var n := s.threads[t].node;
    assert place[n] != InTransit(t) && NodeCounted(s, place, n);
    VisitorsBound(s.threads, n);
    CountMoves(s, place, Step(s, t, req), t, n, place[n]);
  }

  lemma KeepsCasRefsCount(s: State, list: seq<nat>, place: seq<Place>, t: nat, req: Request)
    requires InvWith(s, list, place) && t < |s.threads| && s.threads[t].GetCasRefs?
    ensures CountKept(s, place, t, req, s.threads[t].node)
  {
    var n := s.threads[t].node;
    assert place[n] != InTransit(t) && NodeCounted(s, place, n);
    VisitorsBound(s.threads, n);
    assert Remembers(s, s.threads[t]);
    if s.nodes[n].refs == s.threads[t].refs {
      FlagAlone(s, place, n);
      NoWrap(s.nodes[n].refs, 1);
    }
    CountMoves(s, place, Step(s, t, req), t, n, place[n]);
  }

  lemma KeepsCasHeadCount(s: State, list: seq<nat>, place: seq<Place>, t: nat, req: Request)
    requires InvWith(s, list, place) && t < |s.threads| && s.threads[t].GetCasHead?
    ensures CountKept(s, place, t, req, s.threads[t].node)
  {
    var n := s.threads[t].node;
    assert place[n] != InTransit(t) && NodeCounted(s, place, n);
    VisitorsBound(s.threads, n);
    if s.head == Some(n) { assert list[0] == n && place[n] == OnList; }
    CountMoves(s, place, Step(s, t, req), t, n, if s.head == Some(n) then InTransit(t) else place[n]);
  }

  lemma KeepsUnrefCount(s: State, list: seq<nat>, place: seq<Place>, t: nat, req: Request)
    requires InvWith(s, list, place) && t < |s.threads| && s.threads[t].GetUnref?
    ensures CountKept(s, place, t, req, s.threads[t].node)
  {
    var n := s.threads[t].node;
    assert place[n] != InTransit(t) && NodeCounted(s, place, n);
    VisitorsBound(s.threads, n);
    var last := s.nodes[n].refs == SHOULD_BE_ON_FREELIST + 1;
    if last { WaitingNode(s, list, place, t); }
    assert Visits(s.threads[t], n);
    NoWrap(s.nodes[n].refs, -1);
    CountMoves(s, place, Step(s, t, req), t, n, if last then InTransit(t) else place[n]);
  }

  // A next pointer changes only while nobody visits the node, so what a visitor read stays true.
  lemma KeepsMemory(s: State, list: seq<nat>, place: seq<Place>, t: nat, req: Request, u: nat)
    requires InvWith(s, list, place) && t < |s.threads| && u < |s.threads|
    requires InRange(Step(s, t, req))
    ensures Remembers(Step(s, t, req), Step(s, t, req).threads[u])
  {
    var pc := s.threads[t];
    assert Remembers(s, s.threads[u]) && Remembers(s, pc);
    if pc.PushSetNext? && u != t {
      assert place[pc.node] == InTransit(t) && NodeCounted(s, place, pc.node);
      VisitorsBound(s.threads, pc.node);
      assert !Visits(s.threads[u], pc.node);
      assert Owned(s.threads[u]) != Some(pc.node);
    }
  }

  lemma KeepsCounts(s: State, list: seq<nat>, place: seq<Place>, t: nat, req: Request, n: nat)
    requires InvWith(s, list, place) && t < |s.threads| && n < |s.nodes|
    requires Placed(Step(s, t, req), NextList(s, list, t), NextPlace(s, place, t, req))
    ensures NodeCounted(Step(s, t, req), NextPlace(s, place, t, req), n)
  {
    var pc := s.threads[t];
    if Touched(pc, req) != Some(n) {
      KeepsOtherCounts(s, list, place, t, req, n);
    } else {
      match pc
      case Idle => KeepsIdleCount(s, list, place, t, req);
      case AddFlag(_) => KeepsAddCount(s, list, place, t, req);
      case PushLoadHead(_, _) => KeepsPushCount(s, list, place, t, req);
      case PushSetNext(_, _, _) => KeepsPushCount(s, list, place, t, req);
      case PushSetRefs(_, _, _) => KeepsPushCount(s, list, place, t, req);
      case PushCas(_, _, _) => KeepsPushCasCount(s, list, place, t, req);
      case PushRetract(_, _, _) => KeepsRetractCount(s, list, place, t, req);
      case GetLoadRefs(_) => KeepsLoadCount(s, list, place, t, req);
      case GetCasRefs(_, _) => KeepsCasRefsCount(s, list, place, t, req);
      case GetLoadNext(_) => KeepsLoadCount(s, list, place, t, req);
      case GetCasHead(_, _) => KeepsCasHeadCount(s, list, place, t, req);
      case GetAssert(_) => KeepsTakeCount(s, list, place, t, req);
      case GetTake(_) => KeepsTakeCount(s, list, place, t, req);
      case GetUnref(_, _) => KeepsUnrefCount(s, list, place, t, req);
      TouchedPlace(s, place, t, req, n);
    }
  }

  // The invariant holds after every step of every thread.
  lemma KeepsInv(s: State, list: seq<nat>, place: seq<Place>, t: nat, req: Request)
    requires InvWith(s, list, place) && t < |s.threads|
    ensures InvWith(Step(s, t, req), NextList(s, list, t), NextPlace(s, place, t, req))
  {
    KeepsRange(s, t, req);
    KeepsLinks(s, list, place, t, req);
    KeepsPlaces(s, list, place, t, req);
    var s', place' := Step(s, t, req), NextPlace(s, place, t, req);
    forall n | 0 <= n < |s'.nodes| ensures NodeCounted(s', place', n) {
      KeepsCounts(s, list, place, t, req, n);
    }
    forall u | 0 <= u < |s'.threads| ensures Remembers(s', s'.threads[u]) {
      KeepsMemory(s, list, place, t, req, u);
    }
  }

  // ---- whole runs ----

  datatype Turn = Turn(thread: nat, req: Request)

  function Below(count: nat): (numbers: set<nat>)
    ensures forall n: nat :: n in numbers <==> n < count
  {
    if count == 0 then {} else Below(count - 1) + {count - 1}
  }

  // An empty list, all nodes with the clients, all threads idle.
  function Start(nodes: nat, threads: nat): State {
    State(None, seq(nodes, _ => Node(0, None)), seq(threads, _ => Idle), Below(nodes))
  }

  function Run(s: State, schedule: seq<Turn>): State
    requires InRange(s) && forall i :: 0 <= i < |schedule| ==> schedule[i].thread < |s.threads|
    decreases |schedule|
  {
    if |schedule| == 0 then s
    else
      var s' := Step(s, schedule[0].thread, schedule[0].req);
      KeepsRange(s, schedule[0].thread, schedule[0].req);
      Run(s', schedule[1..])
  }

  ghost predicate Inv(s: State) { exists list, place :: InvWith(s, list, place) }

  lemma {:induction false} VisitorsOfIdle(threads: seq<Pc>, n: nat)
    requires forall t :: 0 <= t < |threads| ==> threads[t].Idle?
    ensures Visitors(threads, n) == 0
  {
    if |threads| > 0 { VisitorsOfIdle(threads[..|threads| - 1], n); }
  }

  lemma StartInv(nodes: nat, threads: nat)
    requires threads < REFS_MASK - 2
    ensures Inv(Start(nodes, threads))
  {
    var s, place := Start(nodes, threads), seq(nodes, _ => Held);
    forall n | 0 <= n < nodes ensures NodeCounted(s, place, n) {
      VisitorsOfIdle(s.threads, n);
    }
    assert InvWith(s, [], place);
  }

  lemma {:induction false} RunInv(s: State, schedule: seq<Turn>)
    requires Inv(s) && InRange(s) && forall i :: 0 <= i < |schedule| ==> schedule[i].thread < |s.threads|
    ensures Inv(Run(s, schedule))
    decreases |schedule|
  {
    if |schedule| > 0 {
      var list, place :| InvWith(s, list, place);
      KeepsInv(s, list, place, schedule[0].thread, schedule[0].req);
      RunInv(Step(s, schedule[0].thread, schedule[0].req), schedule[1..]);
    }
  }

  // What a reader of the code wants to know of every state.
  ghost predicate Safe(s: State) {
    // one thread at a time is responsible for a node, and never for one a client holds
    && (forall t, u :: 0 <= t < u < |s.threads| && Owned(s.threads[t]).Some? ==>
          Owned(s.threads[t]) != Owned(s.threads[u]))
    && (forall t :: 0 <= t < |s.threads| && Owned(s.threads[t]).Some? ==> Owned(s.threads[t]).value !in s.held)
    // the assertion of line 1471
    && (forall t :: 0 <= t < |s.threads| && s.threads[t].GetAssert? ==>
          s.threads[t].node < |s.nodes| && 0 <= s.nodes[s.threads[t].node].refs < SHOULD_BE_ON_FREELIST)
    // no ABA: the compare-and-swap of try_get that succeeds installs the node's own successor
    && (forall t :: 0 <= t < |s.threads| && s.threads[t].GetCasHead? && s.head == Some(s.threads[t].node) ==>
          s.threads[t].node < |s.nodes| && s.nodes[s.threads[t].node].next == s.threads[t].next)
    // the list is finite, without repetition, and apart from the clients' and the threads' nodes
    && (exists list ::
          && Linked(s, list)
          && (forall n :: n in list ==> n !in s.held)
          && (forall n, t :: n in list && 0 <= t < |s.threads| ==> Owned(s.threads[t]) != Some(n))
          // and when all threads are idle no node is lost
          && ((forall t :: 0 <= t < |s.threads| ==> s.threads[t].Idle?) ==>
                forall n :: 0 <= n < |s.nodes| ==> n in list || n in s.held))
  }

  lemma AssertionHolds(s: State, t: nat)
    requires Inv(s) && t < |s.threads| && s.threads[t].GetAssert?
    ensures s.threads[t].node < |s.nodes| && 0 <= s.nodes[s.threads[t].node].refs < SHOULD_BE_ON_FREELIST
  {
    var list, place :| InvWith(s, list, place);
    var n := s.threads[t].node;
    assert place[n] == InTransit(t) && NodeCounted(s, place, n);
    VisitorsBound(s.threads, n);
  }

  lemma PopInstallsSuccessor(s: State, t: nat)
    requires Inv(s) && t < |s.threads| && s.threads[t].GetCasHead?
    ensures s.threads[t].node < |s.nodes| && s.nodes[s.threads[t].node].next == s.threads[t].next
  {
    var list, place :| InvWith(s, list, place);
    assert Remembers(s, s.threads[t]);
  }

  lemma NoNodeIsLost(s: State, list: seq<nat>, place: seq<Place>, n: nat)
    requires InvWith(s, list, place) && n < |s.nodes|
    requires forall t :: 0 <= t < |s.threads| ==> s.threads[t].Idle?
    ensures n in list || n in s.held
  {
    assert NodeCounted(s, place, n);
    VisitorsOfIdle(s.threads, n);
  }

  lemma InvIsSafe(s: State)
    requires Inv(s)
    ensures Safe(s)
  {
    hide LinkAt, Visitors, NodeCounted, Remembers;
    var list, place :| InvWith(s, list, place);
    forall t | 0 <= t < |s.threads| && s.threads[t].GetAssert?
      ensures s.threads[t].node < |s.nodes| && 0 <= s.nodes[s.threads[t].node].refs < SHOULD_BE_ON_FREELIST
    {
      AssertionHolds(s, t);
    }
    forall t | 0 <= t < |s.threads| && s.threads[t].GetCasHead?
      ensures s.threads[t].node < |s.nodes| && s.nodes[s.threads[t].node].next == s.threads[t].next
    {
      PopInstallsSuccessor(s, t);
    }
    if forall t :: 0 <= t < |s.threads| ==> s.threads[t].Idle? {
      forall n | 0 <= n < |s.nodes| ensures n in list || n in s.held {
        NoNodeIsLost(s, list, place, n);
      }
    }
  }

  // Every schedule of any number of threads (fewer than the count field can hold) is safe at every point.
  lemma EveryRunIsSafe(nodes: nat, threads: nat, schedule: seq<Turn>)
    requires threads < REFS_MASK - 2
    requires forall i :: 0 <= i < |schedule| ==> schedule[i].thread < threads
    ensures Safe(Run(Start(nodes, threads), schedule))
  {
    StartInv(nodes, threads);
    RunInv(Start(nodes, threads), schedule);
    InvIsSafe(Run(Start(nodes, threads), schedule));
  }

  // The node try_get hands out was with nobody else, and is with the clients afterwards.
  lemma TakenNodeWasFree(s: State, t: nat, req: Request)
    requires Inv(s) && InRange(s) && t < |s.threads| && s.threads[t].GetTake?
    ensures var n := s.threads[t].node;
            && n !in s.held
            && Step(s, t, req).held == s.held + {n}
            && (forall u :: 0 <= u < |s.threads| && u != t ==> Owned(s.threads[u]) != Some(n))
            && s.head != Some(n)
  {
    var list, place :| InvWith(s, list, place);
    assert place[s.threads[t].node] == InTransit(t);
  }

  // ---- one thread alone: the list is a stack ----

  function At(s: State, t: nat, pc: Pc): State
    requires t < |s.threads|
  {
    s.(threads := s.threads[t := pc])
  }

  // `steps` steps of thread t from pc lead to pc', with the shared words of s turned into those of s'.
  ghost predicate Alone(s: State, t: nat, pc: Pc, req: Request, steps: nat, s': State, pc': Pc)
    requires t < |s.threads|
    decreases steps
  {
    if steps == 0 then s == s' && pc == pc'
    else
      InRange(At(s, t, pc)) &&
      var next := Access(At(s, t, pc), t, req).(threads := s.threads);
      Alone(next, t, NextPc(At(s, t, pc), t, req), req, steps - 1, s', pc')
  }

  function Solo(s: State, t: nat, req: Request, steps: nat): State
    requires InRange(s) && t < |s.threads|
    decreases steps
  {
    if steps == 0 then s
    else
      KeepsRange(s, t, req);
      Solo(Step(s, t, req), t, req, steps - 1)
  }

  lemma {:induction false} AloneIsSolo(s: State, t: nat, pc: Pc, req: Request, steps: nat, s': State, pc': Pc)
    requires t < |s.threads| && InRange(At(s, t, pc)) && Alone(s, t, pc, req, steps, s', pc')
    ensures t < |s'.threads| && Solo(At(s, t, pc), t, req, steps) == At(s', t, pc')
    decreases steps
  {
    if steps > 0 {
      var here := At(s, t, pc);
      var next := Access(here, t, req).(threads := s.threads);
      KeepsRange(here, t, req);
      assert here.threads[t := NextPc(here, t, req)] == s.threads[t := NextPc(here, t, req)];
      assert Step(here, t, req) == At(next, t, NextPc(here, t, req));
      AloneIsSolo(next, t, NextPc(here, t, req), req, steps - 1, s', pc');
    }
  }

  lemma Before(s: State, t: nat, pc: Pc, req: Request, next: State, pc1: Pc, steps: nat, s': State, pc': Pc)
    requires t < |s.threads| && t < |next.threads| && InRange(s) && PcInRange(pc, |s.nodes|)
    requires next == Access(At(s, t, pc), t, req).(threads := s.threads)
    requires pc1 == NextPc(At(s, t, pc), t, req)
    requires Alone(next, t, pc1, req, steps, s', pc')
    ensures Alone(s, t, pc, req, steps + 1, s', pc')
  {
  }

  // From the new next pointer on.
  lemma SoloAddEnds(s4: State, t: nat, n: nat, head: Option<nat>, s5: State, s6: State)
    requires InRange(s4) && t < |s4.threads| && n < |s4.nodes| && s4.head == head
    requires s5 == s4.(nodes := s4.nodes[n := s4.nodes[n].(refs := 1)]) && s6 == s5.(head := Some(n))
    ensures Alone(s4, t, PushSetRefs(n, head, ToCaller), Add(n), 2, s6, Idle)
  {
    assert Alone(s6, t, Idle, Add(n), 0, s6, Idle);
    Before(s5, t, PushCas(n, head, ToCaller), Add(n), s6, Idle, 0, s6, Idle);
    Before(s4, t, PushSetRefs(n, head, ToCaller), Add(n), s5, PushCas(n, head, ToCaller), 1, s6, Idle);
  }

  lemma SoloAddSteps(s: State, t: nat, n: nat)
    requires InRange(s) && t < |s.threads| && n in s.held && s.nodes[n].refs == 0
    ensures Alone(s, t, Idle, Add(n), 6,
                  s.(head := Some(n), nodes := s.nodes[n := Node(1, s.head)], held := s.held - {n}), Idle)
  {
    var req := Add(n);
    var s1 := s.(held := s.held - {n});
    var s2 := s1.(nodes := s.nodes[n := s.nodes[n].(refs := SHOULD_BE_ON_FREELIST)]);
    var s4 := s1.(nodes := s.nodes[n := Node(SHOULD_BE_ON_FREELIST, s.head)]);
    var s5 := s1.(nodes := s.nodes[n := Node(1, s.head)]);
    var s6 := s5.(head := Some(n));
    assert s4.nodes == s2.nodes[n := s2.nodes[n].(next := s.head)] && s5.nodes == s4.nodes[n := s4.nodes[n].(refs := 1)];
    SoloAddEnds(s4, t, n, s.head, s5, s6);
    Before(s2, t, PushSetNext(n, s.head, ToCaller), req, s4, PushSetRefs(n, s.head, ToCaller), 2, s6, Idle);
    Before(s2, t, PushLoadHead(n, ToCaller), req, s2, PushSetNext(n, s.head, ToCaller), 3, s6, Idle);
    Before(s1, t, AddFlag(n), req, s2, PushLoadHead(n, ToCaller), 4, s6, Idle);
    Before(s, t, Idle, req, s1, AddFlag(n), 5, s6, Idle);
  }

  // An `add` that nobody disturbs takes six steps and pushes the node.
  lemma SoloAdd(s: State, t: nat, n: nat)
    requires Inv(s) && InRange(s) && forall u :: 0 <= u < |s.threads| ==> s.threads[u].Idle?
    requires t < |s.threads| && n in s.held
    ensures Solo(s, t, Add(n), 6) == s.(head := Some(n), nodes := s.nodes[n := Node(1, s.head)], held := s.held - {n})
  {
    var list, place :| InvWith(s, list, place);
    assert place[n] == Held && NodeCounted(s, place, n);
    VisitorsOfIdle(s.threads, n);
    var s6 := s.(head := Some(n), nodes := s.nodes[n := Node(1, s.head)], held := s.held - {n});
    SoloAddSteps(s, t, n);
    assert At(s, t, Idle) == s && At(s6, t, Idle) == s6;
    AloneIsSolo(s, t, Idle, Add(n), 6, s6, Idle);
  }

  // From the raised reference count on.
  lemma SoloTakeEnds(s5: State, t: nat, n: nat, s7: State, s8: State)
    requires InRange(s5) && t < |s5.threads| && s5.head == Some(n) && n < |s5.nodes| && s5.nodes[n].refs == 2
    requires s7 == s5.(head := s5.nodes[n].next)
    requires s8 == s7.(nodes := s7.nodes[n := s7.nodes[n].(refs := 0)], held := s7.held + {n})
    ensures Alone(s5, t, GetLoadNext(n), TryGet, 4, s8, Idle)
  {
    var req, next := TryGet, s5.nodes[n].next;
    assert Alone(s8, t, Idle, req, 0, s8, Idle);
    Before(s7, t, GetTake(n), req, s8, Idle, 0, s8, Idle);
    Before(s7, t, GetAssert(n), req, s7, GetTake(n), 1, s8, Idle);
    Before(s5, t, GetCasHead(n, next), req, s7, GetAssert(n), 2, s8, Idle);
    Before(s5, t, GetLoadNext(n), req, s5, GetCasHead(n, next), 3, s8, Idle);
  }

  lemma SoloTakeSteps(s: State, t: nat)
    requires InRange(s) && t < |s.threads| && s.head.Some? && s.nodes[s.head.value].refs == 1
    ensures var n := s.head.value;
            Alone(s, t, Idle, TryGet, 8,
                  s.(head := s.nodes[n].next, nodes := s.nodes[n := s.nodes[n].(refs := 0)], held := s.held + {n}), Idle)
  {
    var req := TryGet;
    var n := s.head.value;
    var next := s.nodes[n].next;
    var s5 := s.(nodes := s.nodes[n := Node(2, next)]);
    var s7 := s5.(head := next);
    var s8 := s7.(nodes := s.nodes[n := Node(0, next)], held := s.held + {n});
    SoloTakeEnds(s5, t, n, s7, s8);
    Before(s, t, GetCasRefs(n, 1), req, s5, GetLoadNext(n), 4, s8, Idle);
    Before(s, t, GetLoadRefs(n), req, s, GetCasRefs(n, 1), 5, s8, Idle);
    Before(s, t, GetLoadHead, req, s, GetLoadRefs(n), 6, s8, Idle);
    Before(s, t, Idle, req, s, GetLoadHead, 7, s8, Idle);
  }

  // A `try_get` that nobody disturbs takes the node pushed last, or says there is none.
  lemma SoloTryGet(s: State, t: nat)
    requires Inv(s) && InRange(s) && forall u :: 0 <= u < |s.threads| ==> s.threads[u].Idle?
    requires t < |s.threads|
    ensures s.head.None? ==> Solo(s, t, TryGet, 2) == s
    ensures s.head.Some? ==>
            var n := s.head.value;
            Solo(s, t, TryGet, 8) ==
            s.(head := s.nodes[n].next, nodes := s.nodes[n := s.nodes[n].(refs := 0)], held := s.held + {n})
  {
    var list, place :| InvWith(s, list, place);
    assert At(s, t, Idle) == s;
    if s.head.None? {
      assert Alone(s, t, Idle, TryGet, 0, s, Idle);
      Before(s, t, GetLoadHead, TryGet, s, Idle, 0, s, Idle);
      Before(s, t, Idle, TryGet, s, GetLoadHead, 1, s, Idle);
      AloneIsSolo(s, t, Idle, TryGet, 2, s, Idle);
    } else {
      var n := s.head.value;
      assert list[0] == n && NodeCounted(s, place, n);
      VisitorsOfIdle(s.threads, n);
      var s8 := s.(head := s.nodes[n].next, nodes := s.nodes[n := s.nodes[n].(refs := 0)], held := s.held + {n});
      SoloTakeSteps(s, t);
      assert At(s8, t, Idle) == s8;
      AloneIsSolo(s, t, Idle, TryGet, 8, s8, Idle);
    }
  }
}

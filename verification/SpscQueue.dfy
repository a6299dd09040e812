// The single-producer single-consumer queue (hashing/helper/readerwriterqueue.h:60-712): a ring of
// circular buffers.  One thread runs inner_enqueue, another runs try_dequeue; every step below makes
// at most one access to a variable the other thread writes.  Memory is sequentially consistent.
module SpscQueue {
  import opened Powers

  datatype Option<+T> = None | Some(value: T)

  const MAX_BLOCK_SIZE: nat := 512

  // front and localTail belong to the consumer, the other fields to the producer.  A cell is None
  // until the producer has constructed an element in it.
  datatype Block<+T> = Block(data: seq<Option<T>>, front: nat, localTail: nat, tail: nat, localFront: nat, next: nat)

  datatype Producer<+T> =
    | Idle
    | LoadFront(e: T, canAlloc: bool, nextTail: nat)      // line 518
    | Construct(e: T, nextTail: nat)                      // lines 521-526
    | StoreTail(e: T, nextTail: nat)                      // line 529
    | LoadFrontBlock(e: T, canAlloc: bool)                // line 532
    | LoadNextFront(e: T)                                 // lines 541-549
    | ConstructNext(e: T, nb: nat)                        // lines 551-556
    | StoreNextTail(e: T, nb: nat)                        // line 558
    | Link(e: T, nb: nat)                                 // line 581
    | StoreTailBlock(e: T, nb: nat)                       // lines 561, 590
    | Done(e: T, ok: bool)

  datatype Consumer<+T> =
    | Ready
    | LoadTail(front: nat)                                // line 296
    | Read(front: nat)                                    // lines 301, 345
    | StoreFront(front: nat, value: Option<T>)            // lines 308, 351
    | LoadTailBlock                                       // line 309
    | LoadTailAgain                                       // line 313
    | LoadNext                                            // line 323
    | LoadNextTail(nb: nat)                               // lines 328-334
    | StoreFrontBlock(nb: nat, front: nat)                // line 339
    | Returned(result: Option<Option<T>>)

  // `published` and `consumed` record the elements in the order in which enqueue makes them visible
  // and try_dequeue removes them, `accepted` and `delivered` what the finished calls have answered.
  datatype State<+T> = State(
    blocks: seq<Block<T>>,
    frontBlock: nat,
    tailBlock: nat,
    largestBlockSize: nat,
    producer: Producer<T>,
    consumer: Consumer<T>,
    published: seq<Option<T>>,
    consumed: seq<Option<T>>,
    accepted: seq<Option<T>>,
    delivered: seq<Option<T>>)

  // The producer's next call (looked at when it is idle), and whether malloc succeeds for it.
  datatype Turn<+T> = Produce(e: T, canAlloc: bool, memory: bool) | Consume

  // (x + 1) & sizeMask
  function Succ(x: nat, size: nat): nat
    requires size > 0
  {
    (x + 1) % size
  }

  predicate InRange<T>(s: State<T>) {
    && s.frontBlock < |s.blocks| && s.tailBlock < |s.blocks| && s.largestBlockSize > 0
    && (forall b :: 0 <= b < |s.blocks| ==>
          && s.blocks[b].front < |s.blocks[b].data| && s.blocks[b].tail < |s.blocks[b].data|
          && s.blocks[b].next < |s.blocks|)
    && ((s.producer.ConstructNext? || s.producer.StoreNextTail? || s.producer.Link? || s.producer.StoreTailBlock?) ==>
          s.producer.nb < |s.blocks|)
    && ((s.consumer.LoadNextTail? || s.consumer.StoreFrontBlock?) ==> s.consumer.nb < |s.blocks|)
    && ((s.consumer.Read? || s.consumer.StoreFront?) ==> s.consumer.front < |s.blocks[s.frontBlock].data|)
  }

  // make_block and the assignments of lines 567-580: a private block that already holds the element.
  function FreshBlock<T>(e: T, size: nat, next: nat): Block<T>
    requires size > 0
  {
    Block([Some(e)] + seq(size - 1, _ => None), 0, 1, 1, 0, next)
  }

  function ProducerStep<T>(s: State<T>, turn: Turn<T>): State<T>
    requires InRange(s) && turn.Produce?
  {
    var tb := s.tailBlock;
    var block := s.blocks[tb];
    match s.producer
    case Idle =>
      var nextTail := Succ(block.tail, |block.data|);
      s.(producer := if nextTail != block.localFront then Construct(turn.e, nextTail)
                     else LoadFront(turn.e, turn.canAlloc, nextTail))
    case LoadFront(e, canAlloc, nextTail) =>
      s.(blocks := s.blocks[tb := block.(localFront := block.front)],
         producer := if nextTail != block.front then Construct(e, nextTail) else LoadFrontBlock(e, canAlloc))
    case Construct(e, nextTail) =>
      s.(blocks := s.blocks[tb := block.(data := block.data[block.tail := Some(e)])], producer := StoreTail(e, nextTail))
    case StoreTail(e, nextTail) =>
      s.(blocks := s.blocks[tb := block.(tail := nextTail)], published := s.published + [Some(e)], producer := Done(e, true))
    case LoadFrontBlock(e, canAlloc) =>
      if block.next != s.frontBlock then s.(producer := LoadNextFront(e))
      else if !canAlloc || !turn.memory then s.(producer := Done(e, false))
      else
        var size := if s.largestBlockSize >= MAX_BLOCK_SIZE then s.largestBlockSize else s.largestBlockSize * 2;
        s.(blocks := s.blocks + [FreshBlock(e, size, block.next)], largestBlockSize := size,
           producer := Link(e, |s.blocks|))
    case LoadNextFront(e) =>
      var nb := block.next;
      s.(blocks := s.blocks[nb := s.blocks[nb].(localFront := s.blocks[nb].front)], producer := ConstructNext(e, nb))
    case ConstructNext(e, nb) =>
      var b := s.blocks[nb];
      s.(blocks := s.blocks[nb := b.(data := b.data[b.tail := Some(e)])], producer := StoreNextTail(e, nb))
    case StoreNextTail(e, nb) =>
      var b := s.blocks[nb];
      s.(blocks := s.blocks[nb := b.(tail := Succ(b.tail, |b.data|))], producer := StoreTailBlock(e, nb))
    case Link(e, nb) =>
      s.(blocks := s.blocks[tb := block.(next := nb)], producer := StoreTailBlock(e, nb))
    case StoreTailBlock(e, nb) =>
      s.(tailBlock := nb, published := s.published + [Some(e)], producer := Done(e, true))
    case Done(e, ok) => s.(producer := Idle, accepted := if ok then s.accepted + [Some(e)] else s.accepted)
  }

  function ConsumerStep<T>(s: State<T>): State<T>
    requires InRange(s)
  {
    var fb := s.frontBlock;
    var block := s.blocks[fb];
    match s.consumer
    case Ready => s.(consumer := if block.front != block.localTail then Read(block.front) else LoadTail(block.front))
    case LoadTail(front) =>
      s.(blocks := s.blocks[fb := block.(localTail := block.tail)],
         consumer := if front != block.tail then Read(front) else LoadTailBlock)
    case Read(front) => s.(consumer := StoreFront(front, block.data[front]))
    case StoreFront(front, value) =>
      s.(blocks := s.blocks[fb := block.(front := Succ(front, |block.data|))],
         consumed := s.consumed + [value], consumer := Returned(Some(value)))
    case LoadTailBlock => s.(consumer := if fb != s.tailBlock then LoadTailAgain else Returned(None))
    case LoadTailAgain =>
      s.(blocks := s.blocks[fb := block.(localTail := block.tail)],
         consumer := if block.front != block.tail then Read(block.front) else LoadNext)
    case LoadNext => s.(consumer := LoadNextTail(block.next))
    case LoadNextTail(nb) =>
      s.(blocks := s.blocks[nb := s.blocks[nb].(localTail := s.blocks[nb].tail)],
         consumer := StoreFrontBlock(nb, s.blocks[nb].front))
    case StoreFrontBlock(nb, front) =>
      if front < |s.blocks[nb].data| then s.(frontBlock := nb, consumer := Read(front)) else s
    case Returned(result) =>
      s.(consumer := Ready, delivered := if result.Some? then s.delivered + [result.value] else s.delivered)
  }

  // ---- what the blocks hold ----

  // The number of steps from x forward to y in a circular buffer.
  function Distance(x: nat, y: nat, size: nat): int { if x <= y then y - x else y - x + size }

  function Cell(front: nat, i: nat, size: nat): nat
    requires front < size && i < size
  {
    if front + i < size then front + i else front + i - size
  }

  predicate IsBlock<T>(b: Block<T>) {
    |b.data| >= 2 && b.front < |b.data| && b.tail < |b.data|
  }

  // The constructed elements, oldest first.
  function Contents<T>(b: Block<T>): seq<Option<T>> {
    if !IsBlock(b) then []
    else
      seq(Distance(b.front, b.tail, |b.data|),
          i requires 0 <= i < Distance(b.front, b.tail, |b.data|) && IsBlock(b) => b.data[Cell(b.front, i, |b.data|)])
  }

  function Flatten<X>(parts: seq<seq<X>>): seq<X> {
    if |parts| == 0 then [] else parts[0] + Flatten(parts[1..])
  }

  // What the given blocks hold, one after the other.
  function Parts<T>(blocks: seq<Block<T>>, ids: seq<nat>): seq<seq<Option<T>>>
    requires forall i :: 0 <= i < |ids| ==> ids[i] < |blocks|
  {
    seq(|ids|, i requires 0 <= i < |ids| && ids[i] < |blocks| => Contents(blocks[ids[i]]))
  }

  lemma SuccIs(x: nat, size: nat)
    requires x < size
    ensures Succ(x, size) == if x + 1 == size then 0 else x + 1
  {
  }

  lemma ContentsWrite<T>(b: Block<T>, e: Option<T>)
    requires IsBlock(b)
    ensures Contents(b.(data := b.data[b.tail := e])) == Contents(b)
  {
    var c := b.(data := b.data[b.tail := e]);
    forall i | 0 <= i < Distance(b.front, b.tail, |b.data|) ensures Contents(c)[i] == Contents(b)[i] {
      assert Cell(b.front, i, |b.data|) != b.tail;
    }
  }

  lemma ContentsAt<T>(b: Block<T>, i: nat)
    requires IsBlock(b) && i < Distance(b.front, b.tail, |b.data|)
    ensures |Contents(b)| == Distance(b.front, b.tail, |b.data|) && Cell(b.front, i, |b.data|) < |b.data|
    ensures Contents(b)[i] == b.data[Cell(b.front, i, |b.data|)]
  {
  }

  lemma ContentsPush<T>(b: Block<T>)
    requires IsBlock(b) && HasRoom(b)
    ensures Contents(b.(tail := Succ(b.tail, |b.data|))) == Contents(b) + [b.data[b.tail]]
  {
    var c := b.(tail := Succ(b.tail, |b.data|));
    SuccIs(b.tail, |b.data|);
    var n := Distance(b.front, b.tail, |b.data|);
    assert Distance(c.front, c.tail, |c.data|) == n + 1;
    assert Cell(b.front, n, |b.data|) == b.tail;
    forall i | 0 <= i <= n ensures Contents(c)[i] == (Contents(b) + [b.data[b.tail]])[i] {
      ContentsAt(c, i);
      if i < n { ContentsAt(b, i); }
    }
  }

  lemma ContentsPop<T>(b: Block<T>)
    requires IsBlock(b) && b.front != b.tail
    ensures |Contents(b)| > 0 && Contents(b)[0] == b.data[b.front]
    ensures Contents(b.(front := Succ(b.front, |b.data|))) == Contents(b)[1..]
  {
    var c := b.(front := Succ(b.front, |b.data|));
    SuccIs(b.front, |b.data|);
    var n := Distance(b.front, b.tail, |b.data|);
    assert Distance(c.front, c.tail, |c.data|) == n - 1;
    ContentsAt(b, 0);
    forall i | 0 <= i < n - 1 ensures Contents(c)[i] == Contents(b)[1..][i] {
      ContentsAt(c, i);
      ContentsAt(b, i + 1);
      assert Cell(c.front, i, |b.data|) == Cell(b.front, i + 1, |b.data|);
    }
  }

  lemma {:induction false} FlattenAppend<X>(parts: seq<seq<X>>, last: seq<X>)
    ensures Flatten(parts + [last]) == Flatten(parts) + last
  {
    if |parts| == 0 {
      assert Flatten([last]) == last + Flatten([]);
      assert parts + [last] == [last];
    } else {
      FlattenAppend(parts[1..], last);
      assert (parts + [last])[1..] == parts[1..] + [last];
    }
  }

  // A longer last part makes the whole longer by the same elements.
  lemma FlattenGrow<X>(parts: seq<seq<X>>, k: nat, more: seq<X>)
    requires |parts| == k + 1
    ensures Flatten(parts[k := parts[k] + more]) == Flatten(parts) + more
  {
    FlattenAppend(parts[..k], parts[k]);
    FlattenAppend(parts[..k], parts[k] + more);
    assert parts == parts[..k] + [parts[k]] && parts[k := parts[k] + more] == parts[..k] + [parts[k] + more];
  }

  // ---- the invariant ----

  // `ring` lists the blocks in the order of their next pointers, from the front block; the tail block
  // is ring[k], so ring[..k + 1] is the queue and the blocks after it are free.
  predicate NextAt<T>(blocks: seq<Block<T>>, ring: seq<nat>, i: nat)
    requires i < |ring| && ring[i] < |blocks|
  {
    blocks[ring[i]].next == if i + 1 < |ring| then ring[i + 1] else ring[0]
  }

  predicate Ring<T>(s: State<T>, ring: seq<nat>, k: nat) {
    && k < |ring|
    && (forall i :: 0 <= i < |ring| ==> ring[i] < |s.blocks|)
    && (forall i, j :: 0 <= i < j < |ring| ==> ring[i] != ring[j])
    && (forall i {:trigger NextAt(s.blocks, ring, i)} :: 0 <= i < |ring| ==> NextAt(s.blocks, ring, i))
    && ring[0] == s.frontBlock && ring[k] == s.tailBlock
  }

  // The block after the tail block already holds the element about to be published.
  predicate IsNext<T>(s: State<T>, b: nat) { s.producer.StoreTailBlock? && s.producer.nb == b }

  predicate Filled<T>(s: State<T>, ring: seq<nat>, k: nat)
    requires forall i :: 0 <= i < |ring| ==> ring[i] < |s.blocks|
  {
    && (forall i :: 1 <= i < |ring| && i <= k ==> s.blocks[ring[i]].front != s.blocks[ring[i]].tail)
    && (forall i :: k < i < |ring| && !IsNext(s, ring[i]) ==> s.blocks[ring[i]].front == s.blocks[ring[i]].tail)
  }

  predicate Sound<T>(b: Block<T>) { IsBlock(b) && b.localTail < |b.data| && b.localFront < |b.data| }

  predicate AllSound<T>(blocks: seq<Block<T>>) {
    forall b :: 0 <= b < |blocks| ==> Sound(blocks[b]) && blocks[b].next < |blocks|
  }

  // A stale localTail is not ahead of tail; a stale localFront is not ahead of front.
  predicate TailKnown<T>(b: Block<T>) {
    Distance(b.front, b.localTail, |b.data|) <= Distance(b.front, b.tail, |b.data|)
  }

  predicate FrontKnown<T>(b: Block<T>) {
    Distance(b.front, b.tail, |b.data|) <= Distance(b.localFront, b.tail, |b.data|)
  }

  predicate HasRoom<T>(b: Block<T>) { Distance(b.front, b.tail, |b.data|) < |b.data| - 1 }

  // The room the producer can tell from its stale localFront.
  predicate KnownRoom<T>(b: Block<T>) { Distance(b.localFront, b.tail, |b.data|) < |b.data| - 1 }

  ghost predicate ProducerOk<T>(s: State<T>, ring: seq<nat>, k: nat)
    requires Ring(s, ring, k) && AllSound(s.blocks)
  {
    var block := s.blocks[s.tailBlock];
    assert ring[k] == s.tailBlock && Sound(block);
    FrontKnown(block) &&
    match s.producer
    case LoadFront(_, _, nextTail) => nextTail == Succ(block.tail, |block.data|)
    case Construct(_, nextTail) => nextTail == Succ(block.tail, |block.data|) && KnownRoom(block)
    case StoreTail(e, nextTail) =>
      nextTail == Succ(block.tail, |block.data|) && KnownRoom(block) && block.data[block.tail] == Some(e)
    case LoadNextFront(_) => k + 1 < |ring|
    case ConstructNext(_, nb) =>
      k + 1 < |ring| && nb == ring[k + 1] && s.blocks[nb].localFront == s.blocks[nb].front
    case StoreNextTail(e, nb) =>
      k + 1 < |ring| && nb == ring[k + 1] && s.blocks[nb].localFront == s.blocks[nb].front
      && (assert Sound(s.blocks[nb]); s.blocks[nb].data[s.blocks[nb].tail] == Some(e))
    case Link(e, nb) =>
      nb < |s.blocks| && nb !in ring && s.blocks[nb].next == block.next
      && Contents(s.blocks[nb]) == [Some(e)] && FrontKnown(s.blocks[nb])
    case StoreTailBlock(e, nb) =>
      k + 1 < |ring| && nb == ring[k + 1] && Contents(s.blocks[nb]) == [Some(e)] && FrontKnown(s.blocks[nb])
    case _ => true
  }

  ghost predicate ConsumerOk<T>(s: State<T>, ring: seq<nat>, k: nat)
    requires Ring(s, ring, k) && AllSound(s.blocks)
  {
    var block := s.blocks[s.frontBlock];
    assert ring[0] == s.frontBlock && Sound(block);
    TailKnown(block) &&
    match s.consumer
    case LoadTail(front) => front == block.front
    case Read(front) => front == block.front && front != block.localTail
    case StoreFront(front, value) => front == block.front && front != block.localTail && block.data[front] == value
    case LoadTailAgain => k > 0
    case LoadNext => k > 0 && block.front == block.tail
    case LoadNextTail(nb) => k > 0 && block.front == block.tail && nb == ring[1]
    case StoreFrontBlock(nb, front) =>
      k > 0 && block.front == block.tail && nb == ring[1]
      && front == s.blocks[nb].front != s.blocks[nb].localTail && TailKnown(s.blocks[nb])
    case Returned(result) => result.Some? ==> |s.consumed| > 0 && s.consumed[|s.consumed| - 1] == result.value
    case _ => true
  }

  ghost predicate InvWith<T>(s: State<T>, ring: seq<nat>, k: nat) {
    && Ring(s, ring, k)
    && Filled(s, ring, k)
    && AllSound(s.blocks)
    && s.largestBlockSize > 0
    && ProducerOk(s, ring, k)
    && ConsumerOk(s, ring, k)
    && s.published == s.consumed + Flatten(Parts(s.blocks, ring[..k + 1]))
    && (forall i :: 0 <= i < |s.published| ==> s.published[i].Some?)
  }

  lemma InvInRange<T>(s: State<T>, ring: seq<nat>, k: nat)
    requires InvWith(s, ring, k)
    ensures InRange(s)
  {
  }

  // ---- what a step of one thread leaves alone for the other ----

  // b is a after the consumer has looked: only localTail may differ.
  ghost predicate Looked<T>(a: Block<T>, b: Block<T>) { b == a.(localTail := b.localTail) && b.localTail < |b.data| }

  ghost predicate OnlyLooked<T>(s: State<T>, s': State<T>) {
    && |s'.blocks| == |s.blocks|
    && (forall b :: 0 <= b < |s.blocks| ==> Looked(s.blocks[b], s'.blocks[b]))
    && s' == s.(blocks := s'.blocks, consumer := s'.consumer, delivered := s'.delivered)
  }

  predicate ConsumerLooks(c: Consumer) { !c.StoreFront? && !c.StoreFrontBlock? }

  lemma LooksEffect<T>(s: State<T>)
    requires AllSound(s.blocks) && InRange(s) && ConsumerLooks(s.consumer)
    ensures OnlyLooked(s, ConsumerStep(s))
  {
  }

  lemma LookKeepsRing<T>(s: State<T>, s': State<T>, ring: seq<nat>, k: nat)
    requires Ring(s, ring, k) && Filled(s, ring, k) && OnlyLooked(s, s')
    ensures Ring(s', ring, k) && Filled(s', ring, k)
  {
    forall i | 0 <= i < |ring|
      ensures NextAt(s'.blocks, ring, i) && Looked(s.blocks[ring[i]], s'.blocks[ring[i]])
    {
      assert NextAt(s.blocks, ring, i);
    }
  }

  lemma LookKeepsSound<T>(s: State<T>, s': State<T>)
    requires AllSound(s.blocks) && OnlyLooked(s, s')
    ensures AllSound(s'.blocks)
  {
    forall b | 0 <= b < |s'.blocks| ensures Sound(s'.blocks[b]) && s'.blocks[b].next < |s'.blocks| {
      assert Looked(s.blocks[b], s'.blocks[b]) && Sound(s.blocks[b]);
    }
  }

  lemma LookKeepsParts<T>(s: State<T>, s': State<T>, ids: seq<nat>)
    requires OnlyLooked(s, s') && forall i :: 0 <= i < |ids| ==> ids[i] < |s.blocks|
    ensures Parts(s'.blocks, ids) == Parts(s.blocks, ids)
  {
    forall i | 0 <= i < |ids| ensures Contents(s'.blocks[ids[i]]) == Contents(s.blocks[ids[i]]) {
      SameContents(s.blocks[ids[i]], s'.blocks[ids[i]]);
    }
  }

  lemma SameContents<T>(a: Block<T>, b: Block<T>)
    requires Looked(a, b)
    ensures Contents(a) == Contents(b)
  {
  }

  lemma LookKeepsProducer<T>(s: State<T>, s': State<T>, ring: seq<nat>, k: nat)
    requires Ring(s, ring, k) && AllSound(s.blocks) && ProducerOk(s, ring, k) && OnlyLooked(s, s')
    requires Ring(s', ring, k) && AllSound(s'.blocks)
    ensures ProducerOk(s', ring, k)
  {
    assert ring[k] == s.tailBlock && Looked(s.blocks[s.tailBlock], s'.blocks[s.tailBlock]);
    if 0 <= k + 1 < |ring| { assert Looked(s.blocks[ring[k + 1]], s'.blocks[ring[k + 1]]); }
    if s.producer.Link? { assert Looked(s.blocks[s.producer.nb], s'.blocks[s.producer.nb]); }
  }

  // An empty front block that is also the tail block means an empty queue.
  lemma EmptyNow<T>(s: State<T>, ring: seq<nat>, k: nat)
    requires InvWith(s, ring, k) && k == 0 && s.blocks[s.frontBlock].front == s.blocks[s.frontBlock].tail
    ensures s.published == s.consumed
  {
    var parts := Parts(s.blocks, ring[..1]);
    assert parts[0] == [] && parts[1..] == [];
    assert Flatten(parts) == parts[0] + Flatten(parts[1..]);
  }

  lemma LooksKeepConsumer<T>(s: State<T>, ring: seq<nat>, k: nat)
    requires Ring(s, ring, k) && AllSound(s.blocks) && ConsumerOk(s, ring, k)
    requires InRange(s) && ConsumerLooks(s.consumer) && !s.consumer.LoadNextTail?
    requires Ring(ConsumerStep(s), ring, k) && AllSound(ConsumerStep(s).blocks)
    ensures ConsumerOk(ConsumerStep(s), ring, k)
  {
    assert NextAt(s.blocks, ring, 0) && Sound(s.blocks[s.frontBlock]);
  }

  lemma LookAheadKeepsConsumer<T>(s: State<T>, ring: seq<nat>, k: nat)
    requires Ring(s, ring, k) && Filled(s, ring, k) && AllSound(s.blocks) && ConsumerOk(s, ring, k)
    requires InRange(s) && s.consumer.LoadNextTail?
    requires Ring(ConsumerStep(s), ring, k) && AllSound(ConsumerStep(s).blocks)
    ensures ConsumerOk(ConsumerStep(s), ring, k)
  {
    assert Sound(s.blocks[ring[1]]);
  }

  lemma ConsumerLooksStep<T>(s: State<T>, ring: seq<nat>, k: nat)
    requires InvWith(s, ring, k) && InRange(s) && ConsumerLooks(s.consumer)
    ensures InvWith(ConsumerStep(s), ring, k)
  {
    LooksEffect(s);
    LookKeepsRing(s, ConsumerStep(s), ring, k);
    LookKeepsSound(s, ConsumerStep(s));
    LookKeepsParts(s, ConsumerStep(s), ring[..k + 1]);
    LookKeepsProducer(s, ConsumerStep(s), ring, k);
    if s.consumer.LoadNextTail? {
      LookAheadKeepsConsumer(s, ring, k);
    } else {
      LooksKeepConsumer(s, ring, k);
    }
  }

  // ---- the consumer removes an element ----

  lemma FlattenPop<X>(parts: seq<seq<X>>, parts': seq<seq<X>>, x: X)
    requires |parts| == |parts'| > 0 && parts[1..] == parts'[1..] && parts[0] == [x] + parts'[0]
    ensures Flatten(parts) == [x] + Flatten(parts')
  {
  }

  // Moving front forward keeps what both threads know about the block.
  lemma PopBlock<T>(b: Block<T>)
    requires Sound(b) && b.front != b.localTail && TailKnown(b)
    ensures var c := b.(front := Succ(b.front, |b.data|));
            && Sound(c) && TailKnown(c)
            && (FrontKnown(b) ==> FrontKnown(c))
            && Contents(b) == [b.data[b.front]] + Contents(c)
  {
    SuccIs(b.front, |b.data|);
    ContentsPop(b);
  }

  ghost predicate Popped<T>(s: State<T>, s': State<T>) {
    && s.frontBlock < |s.blocks| && Sound(s.blocks[s.frontBlock])
    && var b := s.blocks[s.frontBlock];
    && s' == s.(blocks := s.blocks[s.frontBlock := b.(front := Succ(b.front, |b.data|))],
                consumed := s.consumed + [b.data[b.front]], consumer := Returned(Some(b.data[b.front])))
  }

  lemma PopEffect<T>(s: State<T>, ring: seq<nat>, k: nat)
    requires InRange(s) && AllSound(s.blocks) && Ring(s, ring, k) && ConsumerOk(s, ring, k) && s.consumer.StoreFront?
    ensures Popped(s, ConsumerStep(s))
    ensures s.blocks[s.frontBlock].front != s.blocks[s.frontBlock].localTail && TailKnown(s.blocks[s.frontBlock])
  {
    assert Sound(s.blocks[s.frontBlock]);
  }

  lemma PopKeepsRing<T>(s: State<T>, s': State<T>, ring: seq<nat>, k: nat)
    requires Ring(s, ring, k) && Filled(s, ring, k) && AllSound(s.blocks) && Popped(s, s')
    requires s.blocks[s.frontBlock].front != s.blocks[s.frontBlock].localTail && TailKnown(s.blocks[s.frontBlock])
    ensures Ring(s', ring, k) && Filled(s', ring, k) && AllSound(s'.blocks)
  {
    PopBlock(s.blocks[s.frontBlock]);
    forall i | 0 <= i < |ring| ensures NextAt(s'.blocks, ring, i) {
      assert NextAt(s.blocks, ring, i);
    }
    assert forall i :: 1 <= i < |ring| ==> ring[i] != s.frontBlock;
  }

  lemma PopKeepsParts<T>(s: State<T>, s': State<T>, ring: seq<nat>, k: nat)
    requires Ring(s, ring, k) && AllSound(s.blocks) && Popped(s, s')
    requires s.blocks[s.frontBlock].front != s.blocks[s.frontBlock].localTail && TailKnown(s.blocks[s.frontBlock])
    ensures s.consumed + Flatten(Parts(s.blocks, ring[..k + 1])) == s'.consumed + Flatten(Parts(s'.blocks, ring[..k + 1]))
  {
    hide Contents, Flatten, TailKnown, NextAt;
    var ids := ring[..k + 1];
    var x := s.blocks[s.frontBlock].data[s.blocks[s.frontBlock].front];
    PopBlock(s.blocks[s.frontBlock]);
    assert ids[0] == s.frontBlock;
    FlattenPop(Parts(s.blocks, ids), Parts(s'.blocks, ids), x);
    assert s.consumed + ([x] + Flatten(Parts(s'.blocks, ids))) == (s.consumed + [x]) + Flatten(Parts(s'.blocks, ids));
  }

  lemma PopKeepsProducer<T>(s: State<T>, s': State<T>, ring: seq<nat>, k: nat)
    requires Ring(s, ring, k) && Filled(s, ring, k) && AllSound(s.blocks) && ProducerOk(s, ring, k) && Popped(s, s')
    requires s.blocks[s.frontBlock].front != s.blocks[s.frontBlock].localTail && TailKnown(s.blocks[s.frontBlock])
    requires Ring(s', ring, k) && AllSound(s'.blocks)
    ensures ProducerOk(s', ring, k)
  {
    assert Sound(s.blocks[s.tailBlock]);
    PopBlock(s.blocks[s.frontBlock]);
    assert forall i :: 1 <= i < |ring| ==> ring[i] != s.frontBlock;
    assert ring[k] == s.tailBlock && ring[0] == s.frontBlock;
  }

  lemma PopKeepsConsumer<T>(s: State<T>, s': State<T>, ring: seq<nat>, k: nat)
    requires Ring(s, ring, k) && AllSound(s.blocks) && Popped(s, s') && Ring(s', ring, k) && AllSound(s'.blocks)
    requires s.blocks[s.frontBlock].front != s.blocks[s.frontBlock].localTail && TailKnown(s.blocks[s.frontBlock])
    ensures ConsumerOk(s', ring, k)
  {
    PopBlock(s.blocks[s.frontBlock]);
  }

  lemma PoppedStep<T>(s: State<T>, s': State<T>, ring: seq<nat>, k: nat)
    requires InvWith(s, ring, k) && Popped(s, s')
    requires s.blocks[s.frontBlock].front != s.blocks[s.frontBlock].localTail && TailKnown(s.blocks[s.frontBlock])
    ensures InvWith(s', ring, k)
  {
    PopKeepsRing(s, s', ring, k);
    PopKeepsParts(s, s', ring, k);
    PopKeepsProducer(s, s', ring, k);
    PopKeepsConsumer(s, s', ring, k);
  }

  lemma PopStep<T>(s: State<T>, ring: seq<nat>, k: nat)
    requires InvWith(s, ring, k) && InRange(s) && s.consumer.StoreFront?
    ensures InvWith(ConsumerStep(s), ring, k)
  {
    PopEffect(s, ring, k);
    PoppedStep(s, ConsumerStep(s), ring, k);
  }

  // ---- the consumer moves on to the next block ----

  ghost predicate Advanced<T>(s: State<T>, s': State<T>, nb: nat) {
    && nb < |s.blocks|
    && s' == s.(frontBlock := nb, consumer := Read(s.blocks[nb].front))
  }

  // The block left behind is empty and becomes the last free block.
  function Rotated(ring: seq<nat>): seq<nat>
    requires |ring| > 0
  {
    ring[1..] + [ring[0]]
  }

  lemma AdvanceKeepsRing<T>(s: State<T>, s': State<T>, ring: seq<nat>, k: nat)
    requires Ring(s, ring, k) && Filled(s, ring, k) && 0 < k && Advanced(s, s', ring[1])
    requires s.blocks[s.frontBlock].front == s.blocks[s.frontBlock].tail
    ensures Ring(s', Rotated(ring), k - 1) && Filled(s', Rotated(ring), k - 1)
  {
    var r := Rotated(ring);
    forall i | 0 <= i < |r| ensures NextAt(s'.blocks, r, i) {
      assert NextAt(s.blocks, ring, if i + 1 < |ring| then i + 1 else 0);
    }
  }

  lemma AdvanceKeepsProducer<T>(s: State<T>, s': State<T>, ring: seq<nat>, k: nat)
    requires Ring(s, ring, k) && AllSound(s.blocks) && ProducerOk(s, ring, k) && 0 < k && Advanced(s, s', ring[1])
    requires Ring(s', Rotated(ring), k - 1)
    ensures ProducerOk(s', Rotated(ring), k - 1)
  {
    assert forall i :: 0 <= i < |ring| - 1 ==> Rotated(ring)[i] == ring[i + 1];
  }

  lemma AdvanceKeepsParts<T>(s: State<T>, s': State<T>, ring: seq<nat>, k: nat)
    requires Ring(s, ring, k) && 0 < k && Advanced(s, s', ring[1])
    requires s.blocks[s.frontBlock].front == s.blocks[s.frontBlock].tail
    ensures forall i :: 0 <= i < |Rotated(ring)| ==> Rotated(ring)[i] < |s.blocks|
    ensures Flatten(Parts(s'.blocks, Rotated(ring)[..k])) == Flatten(Parts(s.blocks, ring[..k + 1]))
  {
    var parts := Parts(s.blocks, ring[..k + 1]);
    assert parts[0] == [] && parts[1..] == Parts(s.blocks, Rotated(ring)[..k]);
  }

  lemma AdvanceStep<T>(s: State<T>, ring: seq<nat>, k: nat)
    requires InvWith(s, ring, k) && InRange(s) && s.consumer.StoreFrontBlock?
    ensures k > 0 && InvWith(ConsumerStep(s), Rotated(ring), k - 1)
  {
    var s' := ConsumerStep(s);
    assert Sound(s.blocks[s.consumer.nb]);
    assert Advanced(s, s', ring[1]);
    AdvanceKeepsRing(s, s', ring, k);
    AdvanceKeepsProducer(s, s', ring, k);
    AdvanceKeepsParts(s, s', ring, k);
  }

  // ---- the producer looks ----

  ghost predicate Checked<T>(a: Block<T>, b: Block<T>) { b == a.(localFront := b.localFront) && b.localFront < |b.data| }

  ghost predicate OnlyChecked<T>(s: State<T>, s': State<T>) {
    && |s'.blocks| == |s.blocks|
    && (forall b :: 0 <= b < |s.blocks| ==> Checked(s.blocks[b], s'.blocks[b]))
    && s' == s.(blocks := s'.blocks, producer := s'.producer, accepted := s'.accepted)
    && !s.producer.StoreTailBlock? && !s'.producer.StoreTailBlock?
  }

  predicate ProducerLooks<T>(s: State<T>, turn: Turn<T>)
    requires InRange(s)
  {
    match s.producer
    case Idle => true
    case LoadFront(_, _, _) => true
    case LoadFrontBlock(_, canAlloc) =>
      s.blocks[s.tailBlock].next != s.frontBlock || !canAlloc || (turn.Produce? && !turn.memory)
    case LoadNextFront(_) => true
    case Done(_, _) => true
    case _ => false
  }

  lemma ChecksEffect<T>(s: State<T>, turn: Turn<T>)
    requires AllSound(s.blocks) && InRange(s) && turn.Produce? && ProducerLooks(s, turn)
    ensures OnlyChecked(s, ProducerStep(s, turn))
  {
    assert Sound(s.blocks[s.tailBlock]);
  }

  lemma CheckKeepsRing<T>(s: State<T>, s': State<T>, ring: seq<nat>, k: nat)
    requires Ring(s, ring, k) && Filled(s, ring, k) && AllSound(s.blocks) && OnlyChecked(s, s')
    ensures Ring(s', ring, k) && Filled(s', ring, k) && AllSound(s'.blocks)
  {
    forall b | 0 <= b < |s'.blocks| ensures Sound(s'.blocks[b]) && s'.blocks[b].next < |s'.blocks| {
      assert Checked(s.blocks[b], s'.blocks[b]) && Sound(s.blocks[b]);
    }
    forall i | 0 <= i < |ring|
      ensures NextAt(s'.blocks, ring, i) && Checked(s.blocks[ring[i]], s'.blocks[ring[i]])
    {
      assert NextAt(s.blocks, ring, i);
    }
  }

  lemma CheckKeepsParts<T>(s: State<T>, s': State<T>, ids: seq<nat>)
    requires OnlyChecked(s, s') && forall i :: 0 <= i < |ids| ==> ids[i] < |s.blocks|
    ensures Parts(s'.blocks, ids) == Parts(s.blocks, ids)
  {
    forall i | 0 <= i < |ids| ensures Contents(s'.blocks[ids[i]]) == Contents(s.blocks[ids[i]]) {
      CheckedContents(s.blocks[ids[i]], s'.blocks[ids[i]]);
    }
  }

  lemma CheckedContents<T>(a: Block<T>, b: Block<T>)
    requires Checked(a, b)
    ensures Contents(a) == Contents(b)
  {
  }

  lemma CheckKeepsConsumer<T>(s: State<T>, s': State<T>, ring: seq<nat>, k: nat)
    requires Ring(s, ring, k) && AllSound(s.blocks) && ConsumerOk(s, ring, k) && OnlyChecked(s, s')
    requires Ring(s', ring, k) && AllSound(s'.blocks)
    ensures ConsumerOk(s', ring, k)
  {
    assert ring[0] == s.frontBlock && Checked(s.blocks[s.frontBlock], s'.blocks[s.frontBlock]);
    if k > 0 { assert Checked(s.blocks[ring[1]], s'.blocks[ring[1]]); }
  }

  lemma ChecksKeepProducer<T>(s: State<T>, turn: Turn<T>, ring: seq<nat>, k: nat)
    requires Ring(s, ring, k) && AllSound(s.blocks) && ProducerOk(s, ring, k)
    requires InRange(s) && turn.Produce? && ProducerLooks(s, turn)
    requires Ring(ProducerStep(s, turn), ring, k) && AllSound(ProducerStep(s, turn).blocks)
    ensures ProducerOk(ProducerStep(s, turn), ring, k)
  {
    var block := s.blocks[s.tailBlock];
    assert ring[k] == s.tailBlock && Sound(block) && NextAt(s.blocks, ring, k);
    SuccIs(block.tail, |block.data|);
    if k + 1 < |ring| { assert Sound(s.blocks[ring[k + 1]]); }
  }

  lemma ProducerLooksStep<T>(s: State<T>, turn: Turn<T>, ring: seq<nat>, k: nat)
    requires InvWith(s, ring, k) && InRange(s) && turn.Produce? && ProducerLooks(s, turn)
    ensures InvWith(ProducerStep(s, turn), ring, k)
  {
    var s' := ProducerStep(s, turn);
    ChecksEffect(s, turn);
    CheckKeepsRing(s, s', ring, k);
    CheckKeepsParts(s, s', ring[..k + 1]);
    CheckKeepsConsumer(s, s', ring, k);
    ChecksKeepProducer(s, turn, ring, k);
  }

  // ---- the producer constructs an element ----

  // Block b has an element written at its tail, where no constructed element is.
  ghost predicate Wrote<T>(s: State<T>, s': State<T>, b: nat, e: T) {
    && b < |s.blocks| && Sound(s.blocks[b])
    && s' == s.(blocks := s.blocks[b := s.blocks[b].(data := s.blocks[b].data[s.blocks[b].tail := Some(e)])],
                producer := s'.producer)
    && !s.producer.StoreTailBlock? && !s'.producer.StoreTailBlock?
  }

  lemma WriteKeepsRing<T>(s: State<T>, s': State<T>, b: nat, e: T, ring: seq<nat>, k: nat)
    requires Ring(s, ring, k) && Filled(s, ring, k) && AllSound(s.blocks) && Wrote(s, s', b, e)
    ensures Ring(s', ring, k) && Filled(s', ring, k) && AllSound(s'.blocks)
  {
    forall i | 0 <= i < |ring| ensures NextAt(s'.blocks, ring, i) {
      assert NextAt(s.blocks, ring, i);
    }
  }

  lemma WriteKeepsParts<T>(s: State<T>, s': State<T>, b: nat, e: T, ids: seq<nat>)
    requires Wrote(s, s', b, e) && forall i :: 0 <= i < |ids| ==> ids[i] < |s.blocks|
    ensures Parts(s'.blocks, ids) == Parts(s.blocks, ids)
  {
    ContentsWrite(s.blocks[b], Some(e));
  }

  lemma WriteKeepsConsumer<T>(s: State<T>, s': State<T>, b: nat, e: T, ring: seq<nat>, k: nat)
    requires Ring(s, ring, k) && AllSound(s.blocks) && ConsumerOk(s, ring, k) && Wrote(s, s', b, e)
    requires Ring(s', ring, k) && AllSound(s'.blocks)
    ensures ConsumerOk(s', ring, k)
  {
    assert ring[0] == s.frontBlock;
  }

  lemma ConstructStep<T>(s: State<T>, turn: Turn<T>, ring: seq<nat>, k: nat)
    requires InvWith(s, ring, k) && InRange(s) && turn.Produce? && (s.producer.Construct? || s.producer.ConstructNext?)
    ensures InvWith(ProducerStep(s, turn), ring, k)
  {
    var s' := ProducerStep(s, turn);
    var b := if s.producer.Construct? then s.tailBlock else s.producer.nb;
    assert ring[k] == s.tailBlock && Sound(s.blocks[s.tailBlock]);
    WriteKeepsRing(s, s', b, s.producer.e, ring, k);
    WriteKeepsParts(s, s', b, s.producer.e, ring[..k + 1]);
    WriteKeepsConsumer(s, s', b, s.producer.e, ring, k);
  }

  // ---- the producer publishes an element in the tail block ----

  // Block b's tail moves over an element: in the tail block this publishes it.
  ghost predicate Pushed<T>(s: State<T>, s': State<T>, b: nat) {
    && b < |s.blocks| && Sound(s.blocks[b]) && HasRoom(s.blocks[b])
    && s'.blocks == s.blocks[b := s.blocks[b].(tail := Succ(s.blocks[b].tail, |s.blocks[b].data|))]
    && s'.frontBlock == s.frontBlock && s'.tailBlock == s.tailBlock && s'.consumer == s.consumer
    && s'.consumed == s.consumed && s'.largestBlockSize == s.largestBlockSize
    && !s.producer.StoreTailBlock?
  }

  lemma PushBlock<T>(b: Block<T>)
    requires Sound(b) && HasRoom(b)
    ensures var c := b.(tail := Succ(b.tail, |b.data|));
            && Sound(c) && c.front != c.tail && (TailKnown(b) ==> TailKnown(c)) && (FrontKnown(b) && KnownRoom(b) ==> FrontKnown(c))
            && Contents(c) == Contents(b) + [b.data[b.tail]]
  {
    SuccIs(b.tail, |b.data|);
    ContentsPush(b);
  }

  lemma PushKeepsRing<T>(s: State<T>, s': State<T>, b: nat, ring: seq<nat>, k: nat)
    requires Ring(s, ring, k) && Filled(s, ring, k) && AllSound(s.blocks) && Pushed(s, s', b)
    requires b == ring[k] || IsNext(s', b)
    ensures Ring(s', ring, k) && Filled(s', ring, k) && AllSound(s'.blocks)
  {
    PushBlock(s.blocks[b]);
    forall i | 0 <= i < |ring| ensures NextAt(s'.blocks, ring, i) {
      assert NextAt(s.blocks, ring, i);
    }
  }

  lemma PushKeepsConsumer<T>(s: State<T>, s': State<T>, b: nat, ring: seq<nat>, k: nat)
    requires Ring(s, ring, k) && AllSound(s.blocks) && ConsumerOk(s, ring, k) && Pushed(s, s', b)
    requires k > 0 ==> b != ring[0]
    requires Ring(s', ring, k) && AllSound(s'.blocks)
    ensures ConsumerOk(s', ring, k)
  {
    PushBlock(s.blocks[b]);
    assert ring[0] == s.frontBlock;
  }

  lemma PushGrowsParts<T>(s: State<T>, s': State<T>, ring: seq<nat>, k: nat)
    requires Ring(s, ring, k) && AllSound(s.blocks) && Pushed(s, s', ring[k])
    ensures Flatten(Parts(s'.blocks, ring[..k + 1])) ==
            Flatten(Parts(s.blocks, ring[..k + 1])) + [s.blocks[ring[k]].data[s.blocks[ring[k]].tail]]
  {
    var parts := Parts(s.blocks, ring[..k + 1]);
    var x := s.blocks[ring[k]].data[s.blocks[ring[k]].tail];
    PushBlock(s.blocks[ring[k]]);
    FlattenGrow(parts, k, [x]);
    assert Parts(s'.blocks, ring[..k + 1]) == parts[k := parts[k] + [x]];
  }

  lemma PushKeepsProducer<T>(s: State<T>, s': State<T>, ring: seq<nat>, k: nat)
    requires Ring(s, ring, k) && AllSound(s.blocks) && Pushed(s, s', ring[k]) && s'.producer.Done?
    requires FrontKnown(s.blocks[ring[k]]) && KnownRoom(s.blocks[ring[k]])
    requires Ring(s', ring, k) && AllSound(s'.blocks)
    ensures ProducerOk(s', ring, k)
  {
    PushBlock(s.blocks[ring[k]]);
  }

  lemma StoreTailStep<T>(s: State<T>, turn: Turn<T>, ring: seq<nat>, k: nat)
    requires InvWith(s, ring, k) && InRange(s) && turn.Produce? && s.producer.StoreTail?
    ensures InvWith(ProducerStep(s, turn), ring, k)
  {
    var s' := ProducerStep(s, turn);
    assert ring[k] == s.tailBlock && Sound(s.blocks[s.tailBlock]);
    PushKeepsRing(s, s', ring[k], ring, k);
    PushKeepsConsumer(s, s', ring[k], ring, k);
    PushGrowsParts(s, s', ring, k);
    PushKeepsProducer(s, s', ring, k);
    var parts := Flatten(Parts(s.blocks, ring[..k + 1]));
    assert s.consumed + (parts + [Some(s.producer.e)]) == (s.consumed + parts) + [Some(s.producer.e)];
  }

  // ---- the producer fills the next block and makes it the tail block ----

  // The block after the tail block is empty, and then holds exactly the new element.
  lemma NextHolds<T>(s: State<T>, turn: Turn<T>, ring: seq<nat>, k: nat)
    requires InvWith(s, ring, k) && InRange(s) && turn.Produce? && s.producer.StoreNextTail?
    ensures k + 1 < |ring| && s.producer.nb == ring[k + 1] && Pushed(s, ProducerStep(s, turn), ring[k + 1])
    ensures Contents(ProducerStep(s, turn).blocks[ring[k + 1]]) == [Some(s.producer.e)]
    ensures FrontKnown(ProducerStep(s, turn).blocks[ring[k + 1]])
  {
    var nb := ring[k + 1];
    assert Sound(s.blocks[nb]) && s.blocks[nb].front == s.blocks[nb].tail && Contents(s.blocks[nb]) == [];
    PushBlock(s.blocks[nb]);
  }

  lemma StoreNextTailStep<T>(s: State<T>, turn: Turn<T>, ring: seq<nat>, k: nat)
    requires InvWith(s, ring, k) && InRange(s) && turn.Produce? && s.producer.StoreNextTail?
    ensures InvWith(ProducerStep(s, turn), ring, k)
  {
    var s' := ProducerStep(s, turn);
    NextHolds(s, turn, ring, k);
    PushKeepsRing(s, s', ring[k + 1], ring, k);
    PushKeepsConsumer(s, s', ring[k + 1], ring, k);
    assert Parts(s'.blocks, ring[..k + 1]) == Parts(s.blocks, ring[..k + 1]);
  }

  // The tail block becomes b, the next one, which holds e.
  ghost predicate TailMoved<T>(s: State<T>, s': State<T>, b: nat, e: T) {
    && s.producer == StoreTailBlock(e, b)
    && s' == s.(tailBlock := b, published := s.published + [Some(e)], producer := Done(e, true))
  }

  lemma MoveKeepsRing<T>(s: State<T>, s': State<T>, e: T, ring: seq<nat>, k: nat)
    requires Ring(s, ring, k) && Filled(s, ring, k) && k + 1 < |ring| && TailMoved(s, s', ring[k + 1], e)
    requires Contents(s.blocks[ring[k + 1]]) == [Some(e)]
    ensures Ring(s', ring, k + 1) && Filled(s', ring, k + 1)
  {
    forall i | 0 <= i < |ring| ensures NextAt(s'.blocks, ring, i) {
      assert NextAt(s.blocks, ring, i);
    }
    assert |Contents(s.blocks[ring[k + 1]])| == 1;
  }

  lemma MoveKeepsKnown<T>(s: State<T>, s': State<T>, e: T, ring: seq<nat>, k: nat)
    requires Ring(s, ring, k) && AllSound(s.blocks) && ProducerOk(s, ring, k) && ConsumerOk(s, ring, k)
    requires k + 1 < |ring| && TailMoved(s, s', ring[k + 1], e) && Ring(s', ring, k + 1)
    ensures ProducerOk(s', ring, k + 1) && ConsumerOk(s', ring, k + 1)
  {
    assert ring[0] == s.frontBlock;
  }

  lemma MoveGrowsParts<T>(s: State<T>, s': State<T>, e: T, ring: seq<nat>, k: nat)
    requires Ring(s, ring, k) && k + 1 < |ring| && TailMoved(s, s', ring[k + 1], e)
    requires Contents(s.blocks[ring[k + 1]]) == [Some(e)]
    ensures Flatten(Parts(s'.blocks, ring[..k + 2])) == Flatten(Parts(s.blocks, ring[..k + 1])) + [Some(e)]
  {
    var parts := Parts(s.blocks, ring[..k + 1]);
    FlattenAppend(parts, [Some(e)]);
    assert Parts(s'.blocks, ring[..k + 2]) == parts + [[Some(e)]];
  }

  lemma StoreTailBlockStep<T>(s: State<T>, turn: Turn<T>, ring: seq<nat>, k: nat)
    requires InvWith(s, ring, k) && InRange(s) && turn.Produce? && s.producer.StoreTailBlock?
    ensures k + 1 < |ring| && InvWith(ProducerStep(s, turn), ring, k + 1)
  {
    hide Contents, Flatten, FrontKnown, TailKnown, NextAt, AllSound;
    var s' := ProducerStep(s, turn);
    MoveKeepsRing(s, s', s.producer.e, ring, k);
    MoveKeepsKnown(s, s', s.producer.e, ring, k);
    MoveGrowsParts(s, s', s.producer.e, ring, k);
  }

  // ---- the producer adds a block ----

  ghost predicate Added<T>(s: State<T>, s': State<T>, fresh': Block<T>) {
    && Sound(fresh') && fresh'.next < |s.blocks|
    && s' == s.(blocks := s.blocks + [fresh'], producer := s'.producer, largestBlockSize := s'.largestBlockSize)
    && s'.largestBlockSize > 0
    && !s.producer.StoreTailBlock? && !s'.producer.StoreTailBlock?
  }

  lemma AddKeepsRing<T>(s: State<T>, s': State<T>, fresh': Block<T>, ring: seq<nat>, k: nat)
    requires Ring(s, ring, k) && Filled(s, ring, k) && AllSound(s.blocks) && Added(s, s', fresh')
    ensures Ring(s', ring, k) && Filled(s', ring, k) && AllSound(s'.blocks)
    ensures Parts(s'.blocks, ring[..k + 1]) == Parts(s.blocks, ring[..k + 1])
  {
    forall i | 0 <= i < |ring| ensures NextAt(s'.blocks, ring, i) {
      assert NextAt(s.blocks, ring, i);
    }
  }

  lemma AddKeepsConsumer<T>(s: State<T>, s': State<T>, fresh': Block<T>, ring: seq<nat>, k: nat)
    requires Ring(s, ring, k) && AllSound(s.blocks) && ConsumerOk(s, ring, k) && Added(s, s', fresh')
    requires Ring(s', ring, k) && AllSound(s'.blocks)
    ensures ConsumerOk(s', ring, k)
  {
    assert ring[0] == s.frontBlock;
  }

  lemma FreshHolds<T>(e: T, size: nat, next: nat)
    requires size > 1
    ensures var b := FreshBlock(e, size, next);
            Sound(b) && FrontKnown(b) && Contents(b) == [Some(e)]
  {
  }

  lemma AllocStep<T>(s: State<T>, turn: Turn<T>, ring: seq<nat>, k: nat)
    requires InvWith(s, ring, k) && InRange(s) && turn.Produce? && s.producer.LoadFrontBlock? && !ProducerLooks(s, turn)
    ensures InvWith(ProducerStep(s, turn), ring, k)
  {
    var s' := ProducerStep(s, turn);
    var block := s.blocks[s.tailBlock];
    assert ring[k] == s.tailBlock && Sound(block);
    FreshHolds(s.producer.e, s'.largestBlockSize, block.next);
    var b := FreshBlock(s.producer.e, s'.largestBlockSize, block.next);
    AddKeepsRing(s, s', b, ring, k);
    AddKeepsConsumer(s, s', b, ring, k);
  }

  // The new block goes into the ring after the tail block.
  function Inserted(ring: seq<nat>, k: nat, nb: nat): seq<nat>
    requires k < |ring|
  {
    ring[..k + 1] + [nb] + ring[k + 1..]
  }

  ghost predicate Linked<T>(s: State<T>, s': State<T>, e: T, nb: nat) {
    && s.tailBlock < |s.blocks|
    && s.producer == Link(e, nb)
    && s' == s.(blocks := s.blocks[s.tailBlock := s.blocks[s.tailBlock].(next := nb)], producer := StoreTailBlock(e, nb))
  }

  lemma InsertedAt(ring: seq<nat>, k: nat, nb: nat, i: nat)
    requires k < |ring| && i <= |ring|
    ensures |Inserted(ring, k, nb)| == |ring| + 1
    ensures Inserted(ring, k, nb)[i] == if i <= k then ring[i] else if i == k + 1 then nb else ring[i - 1]
  {
  }

  lemma InsertedDistinct(ring: seq<nat>, k: nat, nb: nat)
    requires k < |ring| && nb !in ring && forall i, j :: 0 <= i < j < |ring| ==> ring[i] != ring[j]
    ensures forall i, j :: 0 <= i < j <= |ring| ==> Inserted(ring, k, nb)[i] != Inserted(ring, k, nb)[j]
  {
    forall i, j | 0 <= i < j <= |ring| ensures Inserted(ring, k, nb)[i] != Inserted(ring, k, nb)[j] {
      InsertedAt(ring, k, nb, i);
      InsertedAt(ring, k, nb, j);
    }
  }

  lemma LinkKeepsNext<T>(s: State<T>, s': State<T>, e: T, nb: nat, ring: seq<nat>, k: nat, i: nat)
    requires Ring(s, ring, k) && Linked(s, s', e, nb) && i <= |ring|
    requires nb < |s.blocks| && nb !in ring && s.blocks[nb].next == s.blocks[s.tailBlock].next
    ensures Inserted(ring, k, nb)[i] < |s'.blocks| && NextAt(s'.blocks, Inserted(ring, k, nb), i)
  {
    InsertedAt(ring, k, nb, i);
    if i < |ring| { InsertedAt(ring, k, nb, i + 1); }
    assert NextAt(s.blocks, ring, if i <= k then i else i - 1);
    assert ring[k] == s.tailBlock;
  }

  lemma LinkKeepsRing<T>(s: State<T>, s': State<T>, e: T, nb: nat, ring: seq<nat>, k: nat)
    requires Ring(s, ring, k) && Linked(s, s', e, nb)
    requires nb < |s.blocks| && nb !in ring && s.blocks[nb].next == s.blocks[s.tailBlock].next
    ensures Ring(s', Inserted(ring, k, nb), k)
  {
    InsertedDistinct(ring, k, nb);
    forall i | 0 <= i <= |ring|
      ensures Inserted(ring, k, nb)[i] < |s'.blocks| && NextAt(s'.blocks, Inserted(ring, k, nb), i)
    {
      LinkKeepsNext(s, s', e, nb, ring, k, i);
    }
  }

  lemma LinkKeepsFilled<T>(s: State<T>, s': State<T>, e: T, nb: nat, ring: seq<nat>, k: nat)
    requires Ring(s, ring, k) && Filled(s, ring, k) && AllSound(s.blocks) && Linked(s, s', e, nb)
    requires nb < |s.blocks| && Ring(s', Inserted(ring, k, nb), k)
    ensures Filled(s', Inserted(ring, k, nb), k) && AllSound(s'.blocks)
  {
    forall i | 0 <= i <= |ring|
      ensures Inserted(ring, k, nb)[i] == if i <= k then ring[i] else if i == k + 1 then nb else ring[i - 1]
    {
      InsertedAt(ring, k, nb, i);
    }
  }

  lemma LinkStep<T>(s: State<T>, turn: Turn<T>, ring: seq<nat>, k: nat)
    requires InvWith(s, ring, k) && InRange(s) && turn.Produce? && s.producer.Link?
    ensures InvWith(ProducerStep(s, turn), Inserted(ring, k, s.producer.nb), k)
  {
    var s' := ProducerStep(s, turn);
    var nb := s.producer.nb;
    LinkKeepsRing(s, s', s.producer.e, nb, ring, k);
    LinkKeepsFilled(s, s', s.producer.e, nb, ring, k);
    LinkKeepsRest(s, s', s.producer.e, nb, ring, k);
    LinkKeepsParts(s, s', s.producer.e, nb, ring, k);
  }

  lemma LinkKeepsRest<T>(s: State<T>, s': State<T>, e: T, nb: nat, ring: seq<nat>, k: nat)
    requires Ring(s, ring, k) && AllSound(s.blocks) && ProducerOk(s, ring, k) && ConsumerOk(s, ring, k)
    requires Linked(s, s', e, nb) && Ring(s', Inserted(ring, k, nb), k) && AllSound(s'.blocks)
    ensures ProducerOk(s', Inserted(ring, k, nb), k) && ConsumerOk(s', Inserted(ring, k, nb), k)
  {
    var r := Inserted(ring, k, nb);
    assert r[0] == ring[0] && r[k] == ring[k] && r[k + 1] == nb;
    assert ring[0] == s.frontBlock && ring[k] == s.tailBlock;
    if k > 0 { assert r[1] == ring[1]; }
    LinkKeepsContents(s, s', e, nb, nb);
  }

  lemma LinkKeepsContents<T>(s: State<T>, s': State<T>, e: T, nb: nat, b: nat)
    requires Linked(s, s', e, nb) && b < |s.blocks|
    ensures Contents(s'.blocks[b]) == Contents(s.blocks[b])
  {
  }

  lemma LinkKeepsParts<T>(s: State<T>, s': State<T>, e: T, nb: nat, ring: seq<nat>, k: nat)
    requires Ring(s, ring, k) && Linked(s, s', e, nb) && Ring(s', Inserted(ring, k, nb), k)
    ensures Parts(s'.blocks, Inserted(ring, k, nb)[..k + 1]) == Parts(s.blocks, ring[..k + 1])
  {
    assert Inserted(ring, k, nb)[..k + 1] == ring[..k + 1];
    forall i | 0 <= i <= k ensures Contents(s'.blocks[ring[i]]) == Contents(s.blocks[ring[i]]) {
      LinkKeepsContents(s, s', e, nb, ring[i]);
    }
  }

  // ---- what the calls answer ----

  // An enqueue that answers true has published its element, one that answers false has not; every element
  // consumed is the answer of one try_dequeue.
  ghost predicate Accounted<T>(s: State<T>) {
    && s.published == s.accepted + (if s.producer.Done? && s.producer.ok then [Some(s.producer.e)] else [])
    && s.consumed == s.delivered + (if s.consumer.Returned? && s.consumer.result.Some? then [s.consumer.result.value] else [])
  }

  lemma ProducerKeepsAccounts<T>(s: State<T>, turn: Turn<T>)
    requires InRange(s) && turn.Produce? && Accounted(s)
    ensures Accounted(ProducerStep(s, turn))
  {
  }

  lemma ConsumerKeepsAccounts<T>(s: State<T>)
    requires InRange(s) && Accounted(s)
    ensures Accounted(ConsumerStep(s))
  {
  }

  // ---- every call returns ----

  // Steps of its own thread until a call returns.
  function ProducerSteps<T>(p: Producer<T>): nat {
    match p
    case Idle => 7
    case LoadFront(_, _, _) => 6
    case Construct(_, _) => 2
    case StoreTail(_, _) => 1
    case LoadFrontBlock(_, _) => 5
    case LoadNextFront(_) => 4
    case ConstructNext(_, _) => 3
    case StoreNextTail(_, _) => 2
    case Link(_, _) => 2
    case StoreTailBlock(_, _) => 1
    case Done(_, _) => 0
  }

  function ConsumerSteps<T>(c: Consumer<T>): nat {
    match c
    case Ready => 9
    case LoadTail(_) => 8
    case LoadTailBlock => 7
    case LoadTailAgain => 6
    case LoadNext => 5
    case LoadNextTail(_) => 4
    case StoreFrontBlock(_, _) => 3
    case Read(_) => 2
    case StoreFront(_, _) => 1
    case Returned(_) => 0
  }

  lemma ProducerReturns<T>(s: State<T>, turn: Turn<T>)
    requires InRange(s) && turn.Produce? && !s.producer.Done?
    ensures ProducerSteps(ProducerStep(s, turn).producer) < ProducerSteps(s.producer)
  {
  }

  lemma ConsumerReturns<T>(s: State<T>)
    requires InRange(s) && !s.consumer.Returned?
    requires s.consumer.StoreFrontBlock? ==> s.consumer.front < |s.blocks[s.consumer.nb].data|
    ensures ConsumerSteps(ConsumerStep(s).consumer) < ConsumerSteps(s.consumer)
  {
  }

  // Whatever the other thread does in between, a call is over after at most that many own steps, and with the next one the
  // thread is ready for another call.
  lemma CallsReturn<T>(s: State<T>, turn: Turn<T>)
    requires Inv(s)
    ensures InRange(s)
    ensures turn.Produce? && !s.producer.Done? ==> ProducerSteps(ProducerStep(s, turn).producer) < ProducerSteps(s.producer)
    ensures !s.consumer.Returned? ==> ConsumerSteps(ConsumerStep(s).consumer) < ConsumerSteps(s.consumer)
    ensures turn.Produce? && s.producer.Done? ==> ProducerStep(s, turn).producer.Idle?
    ensures s.consumer.Returned? ==> ConsumerStep(s).consumer.Ready?
  {
    hide ProducerSteps, ConsumerSteps, Filled, Accounted, ProducerOk;
    var ring, k :| InvWith(s, ring, k);
    InvInRange(s, ring, k);
    if turn.Produce? && !s.producer.Done? { ProducerReturns(s, turn); }
    if s.consumer.StoreFrontBlock? { assert Sound(s.blocks[ring[1]]); }
    if !s.consumer.Returned? { ConsumerReturns(s); }
  }

  // ---- runs ----

  ghost predicate Inv<T>(s: State<T>) { Accounted(s) && exists ring: seq<nat>, k: nat :: InvWith(s, ring, k) }

  function Step<T>(s: State<T>, turn: Turn<T>): State<T>
    requires InRange(s)
  {
    if turn.Produce? then ProducerStep(s, turn) else ConsumerStep(s)
  }

  lemma KeepsInv<T>(s: State<T>, turn: Turn<T>)
    requires Inv(s)
    ensures InRange(s) && Inv(Step(s, turn))
  {
    hide InvWith, Accounted, ProducerStep, ConsumerStep;
    var ring, k :| InvWith(s, ring, k);
    InvInRange(s, ring, k);
    if turn.Produce? {
      ProducerKeepsInv(s, turn, ring, k);
      ProducerKeepsAccounts(s, turn);
    } else {
      ConsumerKeepsAccounts(s);
      if s.consumer.StoreFront? {
        PopStep(s, ring, k);
      } else if s.consumer.StoreFrontBlock? {
        AdvanceStep(s, ring, k);
      } else {
        ConsumerLooksStep(s, ring, k);
      }
    }
  }

  lemma ProducerKeepsInv<T>(s: State<T>, turn: Turn<T>, ring: seq<nat>, k: nat)
    requires InvWith(s, ring, k) && InRange(s) && turn.Produce?
    ensures exists ring', k' :: InvWith(ProducerStep(s, turn), ring', k')
  {
    hide InvWith;
    if ProducerLooks(s, turn) {
      ProducerLooksStep(s, turn, ring, k);
    } else {
      match s.producer
      case Construct(_, _) => ConstructStep(s, turn, ring, k);
      case ConstructNext(_, _) => ConstructStep(s, turn, ring, k);
      case StoreTail(_, _) => StoreTailStep(s, turn, ring, k);
      case LoadFrontBlock(_, _) => AllocStep(s, turn, ring, k);
      case StoreNextTail(_, _) => StoreNextTailStep(s, turn, ring, k);
      case Link(_, _) => LinkStep(s, turn, ring, k);
      case StoreTailBlock(_, _) => StoreTailBlockStep(s, turn, ring, k);
    }
  }

  // ---- the constructor ----

  function InitialBlockSize(maxSize: nat): nat
    requires maxSize > 0
  {
    var size := CeilToPow2(maxSize + 1);
    if size > MAX_BLOCK_SIZE * 2 then MAX_BLOCK_SIZE else size
  }

  function InitialBlockCount(maxSize: nat): nat
    requires maxSize > 0
  {
    if CeilToPow2(maxSize + 1) > MAX_BLOCK_SIZE * 2 then (maxSize + MAX_BLOCK_SIZE * 2 - 3) / (MAX_BLOCK_SIZE - 1) else 1
  }

  // The blocks of a new queue hold maxSize elements, with a spare slot in each block and, when there are
  // several blocks, a spare block.  One block is no larger than it has to be, several are no more than there have to be.
  lemma InitialCapacity(maxSize: nat)
    requires maxSize > 0
    ensures InitialBlockCount(maxSize) >= 1 && InitialBlockSize(maxSize) >= 2
    ensures IsPowerOfTwo(InitialBlockSize(maxSize))
    ensures var n := InitialBlockCount(maxSize);
            maxSize <= (if n == 1 then 1 else n - 1) * (InitialBlockSize(maxSize) - 1)
    ensures var n, size := InitialBlockCount(maxSize), InitialBlockSize(maxSize);
            if n == 1 then size < 2 * (maxSize + 1) && size <= 2 * MAX_BLOCK_SIZE
            else size == MAX_BLOCK_SIZE && (n - 2) * (size - 1) < maxSize && MAX_BLOCK_SIZE <= maxSize
  {
    hide CeilToPow2;
    assert IsPowerOfTwo(512) by { assert IsPowerOfTwo(64) && IsPowerOfTwo(4); }
    var n, size := InitialBlockCount(maxSize), InitialBlockSize(maxSize);
    if CeilToPow2(maxSize + 1) > MAX_BLOCK_SIZE * 2 {
      assert size - 1 == 511 && (n - 2) * 511 < maxSize <= (n - 1) * 511;
    } else {
      assert n == 1;
    }
  }

  function Start<T>(maxSize: nat): State<T>
    requires maxSize > 0
  {
    var n := InitialBlockCount(maxSize);
    var size := InitialBlockSize(maxSize);
    State(seq(n, i requires 0 <= i < n => Block(seq(size, _ => None), 0, 0, 0, 0, if i + 1 < n then i + 1 else 0)),
          0, 0, size, Idle, Ready, [], [], [], [])
  }

  lemma StartInv<T>(maxSize: nat)
    requires maxSize > 0
    ensures Inv<T>(Start(maxSize))
  {
    hide IsPowerOfTwo, InitialBlockSize, InitialBlockCount, Flatten, Parts;
    InitialCapacity(maxSize);
    var s: State<T> := Start(maxSize);
    var ring: seq<nat> := seq(|s.blocks|, i => i);
    forall i | 0 <= i < |ring| ensures NextAt(s.blocks, ring, i) {
    }
    OneEmptyPart(s.blocks, ring[..1]);
    assert InvWith(s, ring, 0);
  }

  lemma OneEmptyPart<T>(blocks: seq<Block<T>>, ring: seq<nat>)
    requires |ring| == 1 && ring[0] < |blocks| && IsBlock(blocks[ring[0]])
    requires blocks[ring[0]].front == blocks[ring[0]].tail == 0
    ensures Flatten(Parts(blocks, ring)) == []
  {
    var parts := Parts(blocks, ring);
    assert |parts| == 1 && parts[0] == [] && Flatten(parts) == parts[0] + Flatten(parts[1..]);
  }

  // ---- every run ----

  ghost function Run<T>(s: State<T>, turns: seq<Turn<T>>): (r: State<T>)
    requires Inv(s)
    ensures Inv(r)
  {
    if |turns| == 0 then s
    else
      var before := Run(s, turns[..|turns| - 1]);
      KeepsInv(before, turns[|turns| - 1]);
      Step(before, turns[|turns| - 1])
  }

  // First in, first out, every accepted element once; lines 334 and 548.
  ghost predicate Safe<T>(s: State<T>) {
    && InRange(s)
    && s.consumed <= s.published && s.accepted <= s.published && s.delivered <= s.consumed
    && |s.published| <= |s.accepted| + 1 && |s.consumed| <= |s.delivered| + 1
    && (forall i :: 0 <= i < |s.published| ==> s.published[i].Some?)
    && (s.consumer.Returned? && s.consumer.result.Some? ==>
          |s.consumed| > 0 && s.consumer.result.value == s.consumed[|s.consumed| - 1])
    && (s.consumer.LoadNextTail? ==> s.blocks[s.consumer.nb].front != s.blocks[s.consumer.nb].tail)
    && (s.producer.LoadNextFront? ==>
          var next := s.blocks[s.tailBlock].next;
          next != s.frontBlock && s.blocks[next].front == s.blocks[next].tail)
  }

  lemma InvSafe<T>(s: State<T>)
    requires Inv(s)
    ensures Safe(s)
  {
    var ring, k :| InvWith(s, ring, k);
    InvInRange(s, ring, k);
    assert NextAt(s.blocks, ring, k) && NextAt(s.blocks, ring, 0);
  }

  lemma EveryRunIsSafe<T>(maxSize: nat, turns: seq<Turn<T>>)
    requires maxSize > 0
    ensures Inv<T>(Start(maxSize)) && Safe(Run(Start(maxSize), turns))
  {
    StartInv<T>(maxSize);
    InvSafe(Run(Start(maxSize), turns));
  }
}

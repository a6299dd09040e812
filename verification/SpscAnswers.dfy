// What the calls of the single-producer single-consumer queue may answer (hashing/helper/readerwriterqueue.h:213-268,
// 270-358, 495-601): said of the states a call goes through, whichever branches it takes.
module SpscAnswers {
  import opened Powers
  import opened SpscQueue

  // The state before turn k of a run from s.
  ghost function At<T>(s: State<T>, turns: seq<Turn<T>>, k: nat): (r: State<T>)
    requires Inv(s) && k <= |turns|
    ensures Inv(r)
  {
    Run(s, turns[..k])
  }

  lemma AtNext<T>(s: State<T>, turns: seq<Turn<T>>, k: nat)
    requires Inv(s) && k < |turns|
    ensures InRange(At(s, turns, k)) && At(s, turns, k + 1) == Step(At(s, turns, k), turns[k])
  {
    hide Step, InRange, Inv;
    assert turns[..k + 1][..k] == turns[..k];
    KeepsInv(At(s, turns, k), turns[k]);
  }

  // The tail block has no slot left but the spare one.
  predicate TailFull<T>(s: State<T>) {
    s.tailBlock < |s.blocks| && |Contents(s.blocks[s.tailBlock])| == |s.blocks[s.tailBlock].data| - 1
  }

  // The ring goes from the tail block straight on to the front block.
  predicate NoBlockFree<T>(s: State<T>) { s.tailBlock < |s.blocks| && s.blocks[s.tailBlock].next == s.frontBlock }

  predicate Full<T>(s: State<T>) { TailFull(s) && NoBlockFree(s) }

  ghost predicate Empty<T>(s: State<T>) { s.published == s.consumed }

  predicate OutOfMemory<T>(turn: Turn<T>) { turn.Produce? && !turn.memory }

  // ---- enqueue and try_enqueue ----

  // A call that begins with turn i and has its answer before turn j.
  ghost predicate IsEnqueue<T>(s: State<T>, turns: seq<Turn<T>>, i: nat, j: nat)
    requires Inv(s)
  {
    && i < j <= |turns| && turns[i].Produce? && At(s, turns, i).producer.Idle? && At(s, turns, j).producer.Done?
    && forall k :: i < k < j ==> !At(s, turns, k).producer.Done?
  }

  // The answer is about the call's own element, which is published exactly if it is true.  A call adds a block, or
  // answers false, only if at some moment of it the tail block was full and no block free; try_enqueue adds none, and
  // enqueue answers false only if it gets no memory.
  ghost predicate EnqueueAnswered<T>(s: State<T>, turns: seq<Turn<T>>, i: nat, j: nat)
    requires Inv(s) && IsEnqueue(s, turns, i, j)
  {
    var a, b, turn := At(s, turns, i), At(s, turns, j), turns[i];
    && b.producer.e == turn.e
    && b.published == a.published + (if b.producer.ok then [Some(turn.e)] else [])
    && (b.producer.ok ==> |b.blocks| == |a.blocks| || (turn.canAlloc && |b.blocks| == |a.blocks| + 1))
    && (!b.producer.ok ==> |b.blocks| == |a.blocks|)
    && (!b.producer.ok || |b.blocks| > |a.blocks| ==> exists m: nat :: i < m < j && Full(At(s, turns, m)))
    && (!b.producer.ok && turn.canAlloc ==> exists n: nat :: i < n < j && OutOfMemory(turns[n]))
  }

  // What holds within the call before turn k; m is the moment the producer has loaded the front of the tail block.
  ghost predicate EnqueueSoFar<T>(s: State<T>, turns: seq<Turn<T>>, i: nat, k: nat, m: nat)
    requires Inv(s) && i < k <= |turns| && i <= m < k && turns[i].Produce?
  {
    var a, b, turn := At(s, turns, i), At(s, turns, k), turns[i];
    && !b.producer.Idle? && b.producer.e == turn.e && b.accepted == a.accepted
    && (b.producer.LoadFront? || b.producer.LoadFrontBlock? ==> b.producer.canAlloc == turn.canAlloc)
    && (|b.blocks| == |a.blocks|
        || (|b.blocks| == |a.blocks| + 1 && turn.canAlloc && (b.producer.Link? || b.producer.StoreTailBlock? || b.producer.Done?)))
    && (|b.blocks| > |a.blocks| ==> i < m && Full(At(s, turns, m)) && (b.producer.Done? ==> b.producer.ok))
    && (b.producer.LoadFrontBlock? ==> i < m && TailFull(At(s, turns, m)) && (NoBlockFree(At(s, turns, m)) || !NoBlockFree(b)))
    && (b.producer.Done? && !b.producer.ok ==>
          i < m && Full(At(s, turns, m)) && (turn.canAlloc ==> exists n: nat :: i < n < k && OutOfMemory(turns[n])))
  }

  lemma FullBlock<T>(b: Block<T>)
    requires IsBlock(b) && Succ(b.tail, |b.data|) == b.front
    ensures |Contents(b)| == |b.data| - 1
  {
    SuccIs(b.tail, |b.data|);
  }

  // The producer finds its block full only if it is.
  lemma LoadFrontFull<T>(s: State<T>)
    requires Inv(s) && InRange(s) && s.producer.LoadFront? && s.producer.nextTail == s.blocks[s.tailBlock].front
    ensures TailFull(s)
  {
    var ring: seq<nat>, k: nat :| InvWith(s, ring, k);
    assert ring[k] == s.tailBlock && Sound(s.blocks[s.tailBlock]);
    FullBlock(s.blocks[s.tailBlock]);
  }

  // The block the consumer leaves is free for the producer.
  lemma AdvanceFrees<T>(s: State<T>)
    requires Inv(s) && InRange(s) && s.consumer.StoreFrontBlock?
    ensures !NoBlockFree(ConsumerStep(s))
  {
    hide Filled, ProducerOk, Flatten, Parts, AllSound, ConsumerStep;
    var ring: seq<nat>, k: nat :| InvWith(s, ring, k);
    AdvanceStep(s, ring, k);
    assert NextAt(ConsumerStep(s).blocks, Rotated(ring), k - 1);
  }

  // What the consumer leaves to the producer.
  lemma ConsumerLeaves<T>(s: State<T>)
    requires InRange(s)
    ensures var s' := ConsumerStep(s);
            && s'.producer == s.producer && s'.accepted == s.accepted && s'.published == s.published
            && |s'.blocks| == |s.blocks| && s'.tailBlock == s.tailBlock
            && s'.blocks[s.tailBlock].next == s.blocks[s.tailBlock].next
            && (!s.consumer.StoreFrontBlock? ==> s'.frontBlock == s.frontBlock)
  {
  }

  lemma EnqueueBegins<T>(s: State<T>, turns: seq<Turn<T>>, i: nat)
    requires Inv(s) && i < |turns| && turns[i].Produce? && At(s, turns, i).producer.Idle?
    ensures EnqueueSoFar(s, turns, i, i + 1, i)
  {
    hide Inv;
    AtNext(s, turns, i);
  }

  lemma EnqueueWaits<T>(s: State<T>, turns: seq<Turn<T>>, i: nat, k: nat, m: nat)
    requires Inv(s) && i < k < |turns| && i <= m < k && turns[i].Produce? && EnqueueSoFar(s, turns, i, k, m) && turns[k].Consume?
    ensures EnqueueSoFar(s, turns, i, k + 1, m)
  {
    hide Inv, ConsumerStep, TailFull, InRange;
    var b := At(s, turns, k);
    AtNext(s, turns, k);
    ConsumerLeaves(b);
    if b.consumer.StoreFrontBlock? { AdvanceFrees(b); }
  }

  lemma EnqueueMoves<T>(s: State<T>, turns: seq<Turn<T>>, i: nat, k: nat, m: nat) returns (m': nat)
    requires Inv(s) && i < k < |turns| && i <= m < k && turns[i].Produce? && EnqueueSoFar(s, turns, i, k, m)
    requires turns[k].Produce? && !At(s, turns, k).producer.Done?
    ensures i <= m' <= k && EnqueueSoFar(s, turns, i, k + 1, m')
  {
    hide Inv, TailFull;
    var b := At(s, turns, k);
    AtNext(s, turns, k);
    m' := m;
    if b.producer.LoadFront? && b.producer.nextTail == b.blocks[b.tailBlock].front {
      m' := k;
      LoadFrontFull(b);
    }
    if b.producer.LoadFrontBlock? && NoBlockFree(b) && b.producer.canAlloc && !turns[k].memory {
      assert OutOfMemory(turns[k]);
    }
  }

  lemma {:induction false} EnqueueGoesOn<T>(s: State<T>, turns: seq<Turn<T>>, i: nat, j: nat, k: nat) returns (m: nat)
    requires Inv(s) && IsEnqueue(s, turns, i, j) && i < k <= j
    ensures i <= m < k && EnqueueSoFar(s, turns, i, k, m)
    decreases k
  {
    hide Inv, EnqueueSoFar;
    if k == i + 1 {
      EnqueueBegins(s, turns, i);
      m := i;
    } else {
      m := EnqueueGoesOn(s, turns, i, j, k - 1);
      if turns[k - 1].Consume? {
        EnqueueWaits(s, turns, i, k - 1, m);
      } else {
        m := EnqueueMoves(s, turns, i, k - 1, m);
      }
    }
  }

  lemma EveryEnqueueAnswers<T>(s: State<T>, turns: seq<Turn<T>>, i: nat, j: nat)
    requires Inv(s) && IsEnqueue(s, turns, i, j)
    ensures EnqueueAnswered(s, turns, i, j)
  {
    hide InvWith, Full;
    var m := EnqueueGoesOn(s, turns, i, j, j);
    assert Accounted(At(s, turns, i)) && Accounted(At(s, turns, j));
  }

  // ---- try_dequeue ----

  ghost predicate IsDequeue<T>(s: State<T>, turns: seq<Turn<T>>, i: nat, j: nat)
    requires Inv(s)
  {
    && i < j <= |turns| && turns[i].Consume? && At(s, turns, i).consumer.Ready? && At(s, turns, j).consumer.Returned?
    && forall k :: i < k < j ==> !At(s, turns, k).consumer.Returned?
  }

  // The answer is the one element consumed by the call; without one, the queue was empty at some moment of the call.
  ghost predicate DequeueAnswered<T>(s: State<T>, turns: seq<Turn<T>>, i: nat, j: nat)
    requires Inv(s) && IsDequeue(s, turns, i, j)
  {
    var a, b := At(s, turns, i), At(s, turns, j);
    && b.consumed == a.consumed + (if b.consumer.result.Some? then [b.consumer.result.value] else [])
    && (b.consumer.result.None? ==> exists m: nat :: i < m < j && Empty(At(s, turns, m)))
  }

  // m is the moment the consumer has loaded the tail of the front block.
  ghost predicate DequeueSoFar<T>(s: State<T>, turns: seq<Turn<T>>, i: nat, k: nat, m: nat)
    requires Inv(s) && i < k <= |turns| && i <= m < k
  {
    var a, b := At(s, turns, i), At(s, turns, k);
    && !b.consumer.Ready? && b.delivered == a.delivered
    && (b.consumer.LoadTailBlock? ==> i < m && (Empty(At(s, turns, m)) || b.frontBlock != b.tailBlock))
    && (b.consumer.Returned? && b.consumer.result.None? ==> i < m && Empty(At(s, turns, m)))
  }

  // Behind an empty front block there is another block, or nothing.
  lemma LoadTailEmpty<T>(s: State<T>)
    requires Inv(s) && InRange(s) && s.consumer.LoadTail? && s.consumer.front == s.blocks[s.frontBlock].tail
    ensures Empty(s) || s.frontBlock != s.tailBlock
  {
    var ring: seq<nat>, k: nat :| InvWith(s, ring, k);
    if k == 0 { EmptyNow(s, ring, k); }
  }

  // What the producer leaves to the consumer; the tail block never comes back to the front block.
  lemma ProducerLeaves<T>(s: State<T>, turn: Turn<T>)
    requires Inv(s) && InRange(s) && turn.Produce?
    ensures var s' := ProducerStep(s, turn);
            && s'.consumer == s.consumer && s'.delivered == s.delivered && s'.frontBlock == s.frontBlock
            && (s.frontBlock != s.tailBlock ==> s'.frontBlock != s'.tailBlock)
  {
    hide Filled, ConsumerOk, Flatten, Parts, FreshBlock, Contents;
    var ring: seq<nat>, k: nat :| InvWith(s, ring, k);
  }

  lemma DequeueBegins<T>(s: State<T>, turns: seq<Turn<T>>, i: nat)
    requires Inv(s) && i < |turns| && turns[i].Consume? && At(s, turns, i).consumer.Ready?
    ensures DequeueSoFar(s, turns, i, i + 1, i)
  {
    hide Inv;
    AtNext(s, turns, i);
  }

  lemma DequeueWaits<T>(s: State<T>, turns: seq<Turn<T>>, i: nat, k: nat, m: nat)
    requires Inv(s) && i < k < |turns| && i <= m < k && DequeueSoFar(s, turns, i, k, m) && turns[k].Produce?
    ensures DequeueSoFar(s, turns, i, k + 1, m)
  {
    hide Inv, ProducerStep, InRange;
    AtNext(s, turns, k);
    ProducerLeaves(At(s, turns, k), turns[k]);
  }

  lemma DequeueMoves<T>(s: State<T>, turns: seq<Turn<T>>, i: nat, k: nat, m: nat) returns (m': nat)
    requires Inv(s) && i < k < |turns| && i <= m < k && DequeueSoFar(s, turns, i, k, m)
    requires turns[k].Consume? && !At(s, turns, k).consumer.Returned?
    ensures i <= m' <= k && DequeueSoFar(s, turns, i, k + 1, m')
  {
    hide Inv, Empty;
    var b := At(s, turns, k);
    AtNext(s, turns, k);
    m' := m;
    if b.consumer.LoadTail? && b.consumer.front == b.blocks[b.frontBlock].tail {
      m' := k;
      LoadTailEmpty(b);
    }
  }

  lemma {:induction false} DequeueGoesOn<T>(s: State<T>, turns: seq<Turn<T>>, i: nat, j: nat, k: nat) returns (m: nat)
    requires Inv(s) && IsDequeue(s, turns, i, j) && i < k <= j
    ensures i <= m < k && DequeueSoFar(s, turns, i, k, m)
    decreases k
  {
    hide Inv, DequeueSoFar;
    if k == i + 1 {
      DequeueBegins(s, turns, i);
      m := i;
    } else {
      m := DequeueGoesOn(s, turns, i, j, k - 1);
      if turns[k - 1].Consume? {
        m := DequeueMoves(s, turns, i, k - 1, m);
      } else {
        DequeueWaits(s, turns, i, k - 1, m);
      }
    }
  }

  lemma EveryDequeueAnswers<T>(s: State<T>, turns: seq<Turn<T>>, i: nat, j: nat)
    requires Inv(s) && IsDequeue(s, turns, i, j)
    ensures DequeueAnswered(s, turns, i, j)
  {
    hide InvWith, Empty;
    var m := DequeueGoesOn(s, turns, i, j, j);
    assert Accounted(At(s, turns, i)) && Accounted(At(s, turns, j));
  }

  // ---- the sizes of the blocks ----

  // All sizes are powers of two, so that `& sizeMask` is the remainder; the newest block is one of the largest.
  predicate SizesOk<T>(s: State<T>) {
    && |s.blocks| > 0 && |s.blocks[|s.blocks| - 1].data| == s.largestBlockSize
    && forall b :: 0 <= b < |s.blocks| ==> IsPowerOfTwo(|s.blocks[b].data|) && |s.blocks[b].data| <= s.largestBlockSize
  }

  // An added block is twice as large as the largest so far, or as large once that has MAX_BLOCK_SIZE slots.
  predicate Grown<T>(a: State<T>, b: State<T>) {
    |a.blocks| == 0 || |b.blocks| <= |a.blocks|
    || var last := |a.blocks[|a.blocks| - 1].data|;
       |b.blocks[|a.blocks|].data| == if last < MAX_BLOCK_SIZE then 2 * last else last
  }

  predicate SameSizes<T>(a: State<T>, b: State<T>) {
    && |b.blocks| == |a.blocks| && b.largestBlockSize == a.largestBlockSize
    && forall i :: 0 <= i < |a.blocks| ==> |b.blocks[i].data| == |a.blocks[i].data|
  }

  predicate Allocates<T>(s: State<T>, turn: Turn<T>) {
    turn.Produce? && s.producer.LoadFrontBlock? && NoBlockFree(s) && s.producer.canAlloc && turn.memory
  }

  lemma ConsumerSizes<T>(s: State<T>)
    requires InRange(s)
    ensures SameSizes(s, ConsumerStep(s))
  {
    hide Succ;
  }

  lemma ProducerSizes<T>(s: State<T>, turn: Turn<T>)
    requires InRange(s) && turn.Produce? && !Allocates(s, turn)
    ensures SameSizes(s, ProducerStep(s, turn))
  {
    hide Succ;
  }

  lemma AllocSizes<T>(s: State<T>, turn: Turn<T>)
    requires InRange(s) && Allocates(s, turn) && SizesOk(s)
    ensures SizesOk(ProducerStep(s, turn)) && Grown(s, ProducerStep(s, turn))
  {
    var s', size := ProducerStep(s, turn), 2 * s.largestBlockSize;
    assert size > 1 && size % 2 == 0 && size / 2 == s.largestBlockSize;
    assert forall b :: 0 <= b < |s.blocks| ==> s'.blocks[b] == s.blocks[b];
  }

  lemma StepSizes<T>(s: State<T>, turn: Turn<T>)
    requires InRange(s) && SizesOk(s)
    ensures SizesOk(Step(s, turn)) && Grown(s, Step(s, turn))
  {
    hide InRange, ProducerStep, ConsumerStep;
    if Allocates(s, turn) {
      AllocSizes(s, turn);
    } else if turn.Produce? {
      ProducerSizes(s, turn);
    } else {
      ConsumerSizes(s);
    }
  }

  lemma {:induction false} RunSizes<T>(maxSize: nat, turns: seq<Turn<T>>)
    requires maxSize > 0
    ensures Inv<T>(Start(maxSize)) && SizesOk(Run(Start(maxSize), turns))
    decreases |turns|
  {
    hide Inv, SizesOk, Step, Start;
    StartInv<T>(maxSize);
    if |turns| == 0 {
      StartSizes<T>(maxSize);
    } else {
      RunSizes(maxSize, turns[..|turns| - 1]);
      var s: State<T> := Run(Start(maxSize), turns[..|turns| - 1]);
      KeepsInv(s, turns[|turns| - 1]);
      StepSizes(s, turns[|turns| - 1]);
    }
  }

  lemma StartSizes<T>(maxSize: nat)
    requires maxSize > 0
    ensures SizesOk<T>(Start(maxSize))
  {
    hide IsPowerOfTwo, InitialBlockSize, InitialBlockCount;
    InitialCapacity(maxSize);
  }

  // In every run the sizes of the blocks are powers of two, and grow by doubling up to MAX_BLOCK_SIZE.
  lemma EveryRunGrows<T>(maxSize: nat, turns: seq<Turn<T>>, turn: Turn<T>)
    requires maxSize > 0
    ensures Inv<T>(Start(maxSize))
    ensures var s: State<T> := Run(Start(maxSize), turns);
            InRange(s) && SizesOk(s) && SizesOk(Step(s, turn)) && Grown(s, Step(s, turn))
  {
    hide Inv, SizesOk, Step, Start, Grown;
    RunSizes(maxSize, turns);
    var s: State<T> := Run(Start(maxSize), turns);
    KeepsInv(s, turn);
    StepSizes(s, turn);
  }

  // ---- every run ----

  // Every call of every run from the constructor answers what it should.
  lemma EveryRunAnswers<T>(maxSize: nat, turns: seq<Turn<T>>)
    requires maxSize > 0
    ensures Inv<T>(Start(maxSize))
    ensures forall i: nat, j: nat :: IsEnqueue(Start(maxSize), turns, i, j) ==> EnqueueAnswered(Start(maxSize), turns, i, j)
    ensures forall i: nat, j: nat :: IsDequeue(Start(maxSize), turns, i, j) ==> DequeueAnswered(Start(maxSize), turns, i, j)
  {
    hide Inv, Start, IsEnqueue, IsDequeue, EnqueueAnswered, DequeueAnswered;
    StartInv<T>(maxSize);
    var s: State<T> := Start(maxSize);
    forall i: nat, j: nat | IsEnqueue(s, turns, i, j) ensures EnqueueAnswered(s, turns, i, j) {
      EveryEnqueueAnswers(s, turns, i, j);
    }
    forall i: nat, j: nat | IsDequeue(s, turns, i, j) ensures DequeueAnswered(s, turns, i, j) {
      EveryDequeueAnswers(s, turns, i, j);
    }
  }
}

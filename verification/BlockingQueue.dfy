// The blocking single-producer single-consumer queue (hashing/helper/readerwriterqueue.h:716-829) over the
// semaphore that counts in user space and enters the kernel only when the consumer has to sleep
// (hashing/helper/atomicops.h:596-685).  The inner queue is one first-in first-out sequence whose operations
// are single steps; each other step makes one access to the count or to the kernel semaphore.
module BlockingQueue {
  const SPINS: nat := 10000

  datatype Call = TryDequeue | WaitDequeue | WaitDequeueTimed(timeout: int)

  datatype Producer =
    | Idle
    | Signal                                       // line 672
    | Post                                         // line 675

  datatype Consumer =
    | Ready
    | TryLoad(call: Call)                          // line 652
    | TryTake                                      // line 653
    | Spin(timeout: int, spin: nat)                // lines 613-614
    | SpinTake                                     // line 615
    | Decrement(timeout: int)                      // line 620
    | KernelWait                                   // line 624
    | KernelTimedWait                              // line 627
    | Restore                                      // line 635
    | Retake                                       // line 639
    | RetryKernel                                  // line 640
    | Dequeue                                      // readerwriterqueue.h lines 778, 793, 816
    | Returned(ok: bool)

  // `signals` and `waits` count the completed increments and the waits that answered true; `entered` and
  // `left` are the elements in the order of the inner queue's operations.
  datatype State<+T> = State(
    count: int,
    kernel: nat,
    queue: seq<T>,
    producer: Producer,
    consumer: Consumer,
    signals: nat,
    waits: nat,
    entered: seq<T>,
    left: seq<T>,
    innerFailed: bool)

  // What the next step of a thread needs from outside: the element to enqueue and whether the inner queue
  // takes it, or the consumer's next call and whether a timed wait now runs out of time.
  datatype Turn<+T> = Produce(e: T, accepted: bool) | Consume(call: Call, timesOut: bool)

  function ProducerStep<T>(s: State<T>, e: T, accepted: bool): State<T> {
    match s.producer
    case Idle => if accepted then s.(queue := s.queue + [e], entered := s.entered + [e], producer := Signal) else s
    case Signal =>
      s.(count := s.count + 1, signals := s.signals + 1, producer := if s.count < 0 then Post else Idle)
    case Post => s.(kernel := s.kernel + 1, producer := Idle)
  }

  function ConsumerStep<T>(s: State<T>, call: Call, timesOut: bool): State<T> {
    match s.consumer
    case Ready => s.(consumer := TryLoad(call))
    case TryLoad(c) =>
      s.(consumer :=
        if s.count > 0 then TryTake
        else match c
             case TryDequeue => Returned(false)
             case WaitDequeue => Spin(-1, SPINS)
             case WaitDequeueTimed(t) => Spin(t, SPINS))
    case TryTake => s.(count := s.count - 1, waits := s.waits + 1, consumer := Dequeue)
    case Spin(t, spin) =>
      s.(consumer := if spin == 0 then Decrement(t) else if s.count > 0 then SpinTake else Spin(t, spin - 1))
    case SpinTake => s.(count := s.count - 1, waits := s.waits + 1, consumer := Dequeue)
    case Decrement(t) =>
      if s.count > 0 then s.(count := s.count - 1, waits := s.waits + 1, consumer := Dequeue)
      else s.(count := s.count - 1, consumer := if t < 0 then KernelWait else KernelTimedWait)
    case KernelWait =>
      if s.kernel > 0 then s.(kernel := s.kernel - 1, waits := s.waits + 1, consumer := Dequeue) else s
    case KernelTimedWait =>
      if timesOut then s.(consumer := Restore)
      else if s.kernel > 0 then s.(kernel := s.kernel - 1, waits := s.waits + 1, consumer := Dequeue)
      else s
    case Restore => s.(count := s.count + 1, consumer := if s.count < 0 then Returned(false) else Retake)
    case Retake => s.(count := s.count - 1, consumer := if s.count > 0 then RetryKernel else Restore)
    case RetryKernel =>
      if s.kernel > 0 then s.(kernel := s.kernel - 1, waits := s.waits + 1, consumer := Dequeue)
      else s.(consumer := Restore)
    case Dequeue =>
      if |s.queue| == 0 then s.(innerFailed := true, consumer := Returned(true))
      else s.(queue := s.queue[1..], left := s.left + [s.queue[0]], consumer := Returned(true))
    case Returned(_) => s.(consumer := Ready)
  }

  function Step<T>(s: State<T>, turn: Turn<T>): State<T> {
    match turn
    case Produce(e, accepted) => ProducerStep(s, e, accepted)
    case Consume(call, timesOut) => ConsumerStep(s, call, timesOut)
  }

  function Start<T>(): State<T> {
    State(0, 0, [], Idle, Ready, 0, 0, [], [], false)
  }

  // The tokens of the kernel semaphore, counting the one the producer is about to post.
  function Tokens(s: State): nat { s.kernel + if s.producer.Post? then 1 else 0 }

  // The consumer has taken one off the count without having been given anything yet.
  predicate Waiting(c: Consumer) { c.KernelWait? || c.KernelTimedWait? || c.Restore? || c.RetryKernel? }

  predicate CountIs(s: State) {
    && s.waits <= s.signals
    && s.count == s.signals - s.waits - (if Waiting(s.consumer) then 1 else 0)
    && Tokens(s) == (if (Waiting(s.consumer) || s.consumer.Retake?) && s.waits < s.signals then 1 else 0)
    && (s.consumer.TryTake? || s.consumer.SpinTake? || s.consumer.Retake? || s.consumer.RetryKernel? ==>
          s.waits < s.signals)
  }

  ghost predicate QueueIs<T>(s: State<T>) {
    && s.entered == s.left + s.queue
    && |s.entered| == s.signals + (if s.producer.Signal? then 1 else 0)
    && |s.left| == s.waits - (if s.consumer.Dequeue? then 1 else 0)
    && !s.innerFailed
  }

  ghost predicate Inv<T>(s: State<T>) { CountIs(s) && QueueIs(s) }

  lemma ProducerKeepsCount<T>(s: State<T>, e: T, accepted: bool)
    requires CountIs(s)
    ensures CountIs(ProducerStep(s, e, accepted))
  {
  }

  lemma ConsumerKeepsCount<T>(s: State<T>, call: Call, timesOut: bool)
    requires CountIs(s)
    ensures CountIs(ConsumerStep(s, call, timesOut))
  {
  }

  lemma ProducerKeepsQueue<T>(s: State<T>, e: T, accepted: bool)
    requires QueueIs(s)
    ensures QueueIs(ProducerStep(s, e, accepted))
  {
    assert s.left + (s.queue + [e]) == (s.left + s.queue) + [e];
  }

  lemma ConsumerKeepsQueue<T>(s: State<T>, call: Call, timesOut: bool)
    requires QueueIs(s) && s.waits <= s.signals
    ensures QueueIs(ConsumerStep(s, call, timesOut))
  {
    if s.consumer.Dequeue? {
      assert |s.queue| > 0;
      assert s.left + s.queue == (s.left + [s.queue[0]]) + s.queue[1..];
    }
  }

  lemma KeepsInv<T>(s: State<T>, turn: Turn<T>)
    requires Inv(s)
    ensures Inv(Step(s, turn))
  {
    match turn
    case Produce(e, accepted) =>
      ProducerKeepsCount(s, e, accepted);
      ProducerKeepsQueue(s, e, accepted);
    case Consume(call, timesOut) =>
      ConsumerKeepsCount(s, call, timesOut);
      ConsumerKeepsQueue(s, call, timesOut);
  }

  function Run<T>(s: State<T>, turns: seq<Turn<T>>): State<T> {
    if |turns| == 0 then s else Step(Run(s, turns[..|turns| - 1]), turns[|turns| - 1])
  }

  lemma {:induction false} RunInv<T>(turns: seq<Turn<T>>)
    ensures Inv(Run(Start(), turns))
  {
    if |turns| > 0 {
      RunInv(turns[..|turns| - 1]);
      KeepsInv(Run(Start(), turns[..|turns| - 1]), turns[|turns| - 1]);
    }
  }

  ghost predicate Safe<T>(s: State<T>) {
    // a wait succeeds at most once per signal
    && s.waits <= s.signals
    // the assertion in signal, which the next increment reads
    && s.count >= -1
    // the inner queue had an element after every successful wait, and gave them out in order
    && !s.innerFailed && (s.consumer.Dequeue? ==> |s.queue| > 0)
    && s.left <= s.entered
    // a wait that takes its decrement back too late decrements a positive count again, and the branch for none is dead
    && (s.consumer.Retake? ==> s.count > 0)
    // a wait that answers false, and one that never started, leave the semaphore as the calls made so far say
    && (s.consumer.Returned? || s.consumer.Ready? ==> s.count == s.signals - s.waits && Tokens(s) == 0)
    // no signal is lost on a sleeping consumer
    && (s.consumer.KernelWait? && s.producer.Idle? && |s.queue| > 0 ==> s.kernel > 0)
    // at rest the count is the number of elements
    && (s.producer.Idle? && (s.consumer.Ready? || s.consumer.Returned?) ==> s.count == |s.queue|)
  }

  lemma EveryRunIsSafe<T>(turns: seq<Turn<T>>)
    ensures Safe(Run(Start(), turns))
  {
    RunInv(turns);
  }

  // A wait that timed out gives up only when every signal so far has been answered.
  lemma TimedOutOnlyWhenEmpty<T>(s: State<T>, turn: Turn<T>)
    requires Inv(s) && turn.Consume? && s.consumer.Restore?
    ensures Step(s, turn).consumer == Returned(false) <==> s.signals == s.waits
    ensures Step(s, turn).consumer == Returned(false) ==> |s.queue| == if s.producer.Signal? then 1 else 0
  {
  }
}

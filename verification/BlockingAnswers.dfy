// What the calls of the blocking queue answer (hashing/helper/readerwriterqueue.h:738-829, hashing/helper/atomicops.h:606-678):
// said of the states a call goes through, whichever branches it takes.
module BlockingAnswers {
  import opened BlockingQueue

  // The state before turn k of a run from the start.
  ghost function At<T>(turns: seq<Turn<T>>, k: nat): (s: State<T>)
    requires k <= |turns|
    ensures Inv(s)
  {
    RunInv(turns[..k]);
    Run(Start(), turns[..k])
  }

  lemma AtNext<T>(turns: seq<Turn<T>>, k: nat)
    requires k < |turns|
    ensures At(turns, k + 1) == Step(At(turns, k), turns[k])
  {
    hide Step, Inv;
    assert turns[..k + 1][..k] == turns[..k];
  }

  // ---- the consumer's calls ----

  // Before turn j the consumer is in the call that begins with turn i, or has just been answered.
  ghost predicate InCall<T>(turns: seq<Turn<T>>, i: nat, j: nat) {
    && i < j <= |turns| && turns[i].Consume? && At(turns, i).consumer.Ready?
    && forall k :: i < k < j ==> !At(turns, k).consumer.Returned?
  }

  // A call that begins with turn i and has its answer before turn j.
  ghost predicate IsCall<T>(turns: seq<Turn<T>>, i: nat, j: nat) { InCall(turns, i, j) && At(turns, j).consumer.Returned? }

  // A negative timeout waits for ever, as wait_dequeue does.
  function Timeout(call: Call): int
    requires !call.TryDequeue?
  {
    if call.WaitDequeue? then -1 else call.timeout
  }

  // All completed signals have been answered: there is no element but one whose signal is still to come.
  predicate AllAnswered<T>(s: State<T>) {
    s.signals == s.waits && |s.queue| == if s.producer.Signal? then 1 else 0
  }

  // The time of a call runs out while it waits in the kernel.
  ghost predicate TimesOut<T>(turns: seq<Turn<T>>, n: nat) {
    n < |turns| && turns[n].Consume? && turns[n].timesOut && At(turns, n).consumer.KernelTimedWait?
  }

  // A call that answers true has taken the oldest element, one that answers false none; then at some moment of it all
  // signals had been answered, and unless it is a try_dequeue, its time had run out before.
  ghost predicate CallAnswered<T>(turns: seq<Turn<T>>, i: nat, j: nat)
    requires IsCall(turns, i, j)
  {
    var a, b, call := At(turns, i), At(turns, j), turns[i].call;
    && (if b.consumer.ok then |b.left| == |a.left| + 1 && a.left <= b.left <= b.entered else b.left == a.left)
    && (!b.consumer.ok && call.TryDequeue? ==> exists m: nat :: i < m < j && AllAnswered(At(turns, m)))
    && (!b.consumer.ok && !call.TryDequeue? ==>
          && call.WaitDequeueTimed? && call.timeout >= 0
          && exists n: nat, m: nat :: i < n < m < j && TimesOut(turns, n) && AllAnswered(At(turns, m)))
  }

  // What holds within the call before turn k: n is the moment its time has run out, m that of the answer false.
  ghost predicate CallSoFar<T>(turns: seq<Turn<T>>, i: nat, k: nat, n: nat, m: nat)
    requires i < k <= |turns| && turns[i].Consume? && n < k && m < k
  {
    var a, b, call := At(turns, i), At(turns, k), turns[i].call;
    && (b.consumer == Returned(true) || b.left == a.left)
    && match b.consumer
       case Ready => false
       case TryLoad(c) => c == call
       case TryTake => true
       case Spin(t, _) => !call.TryDequeue? && t == Timeout(call)
       case SpinTake => true
       case Decrement(t) => !call.TryDequeue? && t == Timeout(call)
       case KernelWait => !call.TryDequeue? && Timeout(call) < 0
       case KernelTimedWait => call.WaitDequeueTimed? && call.timeout >= 0
       case Restore => call.WaitDequeueTimed? && call.timeout >= 0 && i < n && TimesOut(turns, n)
       case Retake => call.WaitDequeueTimed? && call.timeout >= 0 && i < n && TimesOut(turns, n)
       case RetryKernel => call.WaitDequeueTimed? && call.timeout >= 0 && i < n && TimesOut(turns, n)
       case Dequeue => true
       case Returned(ok) =>
         if ok then |b.left| == |a.left| + 1 && a.left <= b.left
         else
           && i < m && AllAnswered(At(turns, m))
           && (call.TryDequeue? || (call.WaitDequeueTimed? && call.timeout >= 0 && i < n < m && TimesOut(turns, n)))
  }

  lemma ProducerLeaves<T>(s: State<T>, e: T, accepted: bool)
    ensures ProducerStep(s, e, accepted).consumer == s.consumer && ProducerStep(s, e, accepted).left == s.left
  {
  }

  // Without a positive count every signal has been answered, but for one the call itself has taken off.
  lemma NoCount<T>(s: State<T>)
    requires Inv(s) && !s.consumer.Dequeue?
    requires if s.consumer.Restore? then s.count < 0 else s.count <= 0 && s.consumer.TryLoad?
    ensures AllAnswered(s)
  {
  }

  lemma CallMoves<T>(turns: seq<Turn<T>>, i: nat, k: nat, n: nat, m: nat) returns (n': nat, m': nat)
    requires i < k < |turns| && turns[i].Consume? && n < k && m < k && CallSoFar(turns, i, k, n, m)
    requires turns[k].Consume? && !At(turns, k).consumer.Returned?
    ensures n' <= k && m' <= k && CallSoFar(turns, i, k + 1, n', m')
  {
    hide TimesOut, AllAnswered;
    var s := At(turns, k);
    AtNext(turns, k);
    n', m' := n, m;
    if s.consumer.TryLoad? && s.count <= 0 && s.consumer.call.TryDequeue? {
      m' := k;
      NoCount(s);
    } else if s.consumer.KernelTimedWait? && turns[k].timesOut {
      n' := k;
      TimesOutNow(turns, k);
    } else if s.consumer.Restore? && s.count < 0 {
      m' := k;
      NoCount(s);
    }
  }

  lemma TimesOutNow<T>(turns: seq<Turn<T>>, k: nat)
    requires k < |turns| && turns[k].Consume? && turns[k].timesOut && At(turns, k).consumer.KernelTimedWait?
    ensures TimesOut(turns, k)
  {
  }

  lemma {:induction false} CallGoesOn<T>(turns: seq<Turn<T>>, i: nat, j: nat, k: nat) returns (n: nat, m: nat)
    requires InCall(turns, i, j) && i < k <= j
    ensures n < k && m < k && CallSoFar(turns, i, k, n, m)
    decreases k
  {
    hide Inv, CallSoFar, ConsumerStep, ProducerStep;
    AtNext(turns, k - 1);
    if k == i + 1 {
      n, m := i, i;
      CallBegins(turns, i);
    } else {
      n, m := CallGoesOn(turns, i, j, k - 1);
      if turns[k - 1].Consume? {
        n, m := CallMoves(turns, i, k - 1, n, m);
      } else {
        CallWaits(turns, i, k - 1, n, m);
      }
    }
  }

  lemma CallBegins<T>(turns: seq<Turn<T>>, i: nat)
    requires i < |turns| && turns[i].Consume? && At(turns, i).consumer.Ready?
    ensures CallSoFar(turns, i, i + 1, i, i)
  {
    hide Inv;
    AtNext(turns, i);
  }

  lemma CallWaits<T>(turns: seq<Turn<T>>, i: nat, k: nat, n: nat, m: nat)
    requires i < k < |turns| && turns[i].Consume? && n < k && m < k && CallSoFar(turns, i, k, n, m) && turns[k].Produce?
    ensures CallSoFar(turns, i, k + 1, n, m)
  {
    hide Inv, ProducerStep, TimesOut, AllAnswered;
    AtNext(turns, k);
    ProducerLeaves(At(turns, k), turns[k].e, turns[k].accepted);
  }

  // ---- the producer's calls ----

  ghost predicate IsEnqueue<T>(turns: seq<Turn<T>>, i: nat, j: nat) {
    && i < j <= |turns| && turns[i].Produce? && At(turns, i).producer.Idle? && At(turns, j).producer.Idle?
    && forall k :: i < k < j ==> !At(turns, k).producer.Idle?
  }

  // What the inner queue accepts enters once and is signalled once; what it refuses leaves no trace.
  ghost predicate EnqueueAnswered<T>(turns: seq<Turn<T>>, i: nat, j: nat)
    requires IsEnqueue(turns, i, j)
  {
    var a, b := At(turns, i), At(turns, j);
    && b.entered == a.entered + (if turns[i].accepted then [turns[i].e] else [])
    && b.signals == a.signals + if turns[i].accepted then 1 else 0
  }

  ghost predicate EnqueueSoFar<T>(turns: seq<Turn<T>>, i: nat, k: nat)
    requires i < k <= |turns| && turns[i].Produce?
  {
    var a, b := At(turns, i), At(turns, k);
    && b.entered == a.entered + (if turns[i].accepted then [turns[i].e] else [])
    && b.signals == a.signals + (if turns[i].accepted && !b.producer.Signal? then 1 else 0)
    && (!b.producer.Idle? ==> turns[i].accepted)
  }

  lemma ConsumerLeaves<T>(s: State<T>, call: Call, timesOut: bool)
    ensures var s' := ConsumerStep(s, call, timesOut);
            s'.producer == s.producer && s'.entered == s.entered && s'.signals == s.signals
  {
  }

  lemma {:induction false} EnqueueGoesOn<T>(turns: seq<Turn<T>>, i: nat, j: nat, k: nat)
    requires IsEnqueue(turns, i, j) && i < k <= j
    ensures EnqueueSoFar(turns, i, k)
    decreases k
  {
    hide Inv, ConsumerStep;
    AtNext(turns, k - 1);
    if k > i + 1 {
      EnqueueGoesOn(turns, i, j, k - 1);
      if turns[k - 1].Consume? { ConsumerLeaves(At(turns, k - 1), turns[k - 1].call, turns[k - 1].timesOut); }
    }
  }

  // ---- when calls end ----

  // Own steps a call takes at most until it ends or has to wait for a signal.
  function StepsLeft(c: Consumer): nat {
    match c
    case Ready => SPINS + 10
    case TryLoad(_) => SPINS + 9
    case Spin(_, spin) => spin + 8
    case Decrement(_) => 7
    case KernelWait => 6
    case KernelTimedWait => 6
    case Restore => 5
    case Retake => 4
    case RetryKernel => 3
    case TryTake => 2
    case SpinTake => 2
    case Dequeue => 1
    case Returned(_) => 0
  }

  // A call's own steps bring it to its end, whatever the producer does, but that it sleeps when all signals have been
  // answered, or until the producer has posted the one it has counted.
  lemma CallsReturn<T>(s: State<T>, call: Call, timesOut: bool)
    requires Inv(s) && (s.consumer.Spin? ==> s.consumer.spin <= SPINS)
    ensures s.consumer.Returned? ==> ConsumerStep(s, call, timesOut).consumer.Ready?
    ensures var s' := ConsumerStep(s, call, timesOut);
            && (s'.consumer.Spin? ==> s'.consumer.spin <= SPINS)
            && (!s.consumer.Returned? ==>
                  StepsLeft(s'.consumer) < StepsLeft(s.consumer) || s.signals == s.waits || s.producer.Post?)
    ensures !s.consumer.Returned? && StepsLeft(ConsumerStep(s, call, timesOut).consumer) >= StepsLeft(s.consumer) ==>
            s.kernel == 0 && (s.consumer.KernelWait? || (s.consumer.KernelTimedWait? && !timesOut) || s.consumer.RetryKernel?)
  {
  }

  // In every run every call of the consumer and every call of the producer answers what it should.
  lemma EveryRunAnswers<T>(turns: seq<Turn<T>>)
    ensures forall i: nat, j: nat :: IsCall(turns, i, j) ==> CallAnswered(turns, i, j)
    ensures forall i: nat, j: nat :: IsEnqueue(turns, i, j) ==> EnqueueAnswered(turns, i, j)
    // only a call without a limit sleeps without one
    ensures forall i: nat, j: nat :: InCall(turns, i, j) && At(turns, j).consumer.KernelWait? ==>
              !turns[i].call.TryDequeue? && Timeout(turns[i].call) < 0
  {
    hide ConsumerStep, ProducerStep, TimesOut, AllAnswered;
    forall i: nat, j: nat | IsCall(turns, i, j) ensures CallAnswered(turns, i, j) {
      var n, m := CallGoesOn(turns, i, j, j);
    }
    forall i: nat, j: nat | InCall(turns, i, j) && At(turns, j).consumer.KernelWait?
      ensures !turns[i].call.TryDequeue? && Timeout(turns[i].call) < 0
    {
      var n, m := CallGoesOn(turns, i, j, j);
    }
    forall i: nat, j: nat | IsEnqueue(turns, i, j) ensures EnqueueAnswered(turns, i, j) {
      EnqueueGoesOn(turns, i, j, j);
    }
  }
}

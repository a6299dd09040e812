// The progressive merge join (hashing/helper/localjoiner.cpp): of one thread, tuple by tuple (462-600), where tuples
// are collected until a step of both relations is there, which becomes a sorted run, and merge() treats the rest
// and merges the runs; and of whole relations at once (146-214).
module ProgressiveMergeJoin {
  import opened Joins
  import opened ProgressiveMerge

  lemma RunAdded(Q: seq<PairRun>, q: PairRun)
    ensures Flat(AllR(Q + [q])) == Flat(AllR(Q)) + q.R && Flat(AllS(Q + [q])) == Flat(AllS(Q)) + q.S
    ensures OwnJoin(AllR(Q + [q]), AllS(Q + [q]), |Q + [q]|) == OwnJoin(AllR(Q), AllS(Q), |Q|) + JoinCount(q.R, q.S)
  {
    hide JoinCount, Flat, OwnJoin;
    var cr, cs := AllR(Q + [q]), AllS(Q + [q]);
    assert cr[..|Q|] == AllR(Q) && cs[..|Q|] == AllS(Q) && cr[|Q|] == q.R && cs[|Q|] == q.S;
    FlatLast(cr);
    FlatLast(cs);
    OwnPrefix(cr, cs, AllR(Q), AllS(Q), |Q|);
    OwnLast(cr, cs, |Q| + 1);
  }

  lemma FlatLast(cs: seq<seq<Tuple>>)
    requires |cs| > 0
    ensures Flat(cs) == Flat(cs[..|cs| - 1]) + cs[|cs| - 1]
  {
  }

  lemma OwnLast(cr: seq<seq<Tuple>>, cs: seq<seq<Tuple>>, n: nat)
    requires 0 < n <= |cr| && n <= |cs|
    ensures OwnJoin(cr, cs, n) == OwnJoin(cr, cs, n - 1) + JoinCount(cr[n - 1], cs[n - 1])
  {
  }

  lemma {:induction false} OwnPrefix(cr: seq<seq<Tuple>>, cs: seq<seq<Tuple>>, cr': seq<seq<Tuple>>, cs': seq<seq<Tuple>>, n: nat)
    requires n <= |cr'| <= |cr| && n <= |cs'| <= |cs| && cr[..|cr'|] == cr' && cs[..|cs'|] == cs'
    ensures OwnJoin(cr, cs, n) == OwnJoin(cr', cs', n)
    decreases n
  {
    hide JoinCount;
    if n > 0 {
      OwnPrefix(cr, cs, cr', cs', n - 1);
      assert cr[n - 1] == cr[..|cr'|][n - 1] && cs[n - 1] == cs[..|cs'|][n - 1];
    }
  }

  // All tuples in one run, then the leftovers once more.
  lemma JoinedTwice(q: PairRun, all: PairRun, left: PairRun, found: nat)
    requires Joined(q, [all, left], found)
    ensures found == JoinCount(all.R, left.S) + JoinCount(left.R, all.S)
  {
    hide JoinCount;
    assert [all, left] == [] + [all] + [left];
    RunAdded([], all);
    RunAdded([] + [all], left);
    assert [] + all.R == all.R && [] + all.S == all.S;
    assert Flat(AllR([])) == [] && Flat(AllS([])) == [];
    JoinAppendLeft(all.R, left.R, all.S + left.S);
    JoinAppend(all.R, all.S, left.S);
    JoinAppend(left.R, all.S, left.S);
  }

  lemma JoinedAll(q: PairRun, Q: seq<PairRun>, found: nat, arrivedR: seq<Tuple>, arrivedS: seq<Tuple>)
    requires Joined(q, Q, found)
    requires multiset(arrivedR) == multiset(Flat(AllR(Q))) && multiset(arrivedS) == multiset(Flat(AllS(Q)))
    ensures RunSorted(q) && q.posR == q.posS == 0
    ensures multiset(q.R) == multiset(arrivedR) && multiset(q.S) == multiset(arrivedS)
    ensures OwnJoin(AllR(Q), AllS(Q), |Q|) + found == JoinCount(arrivedR, arrivedS)
  {
    hide JoinCount;
    JoinPermutation(arrivedR, Flat(AllR(Q)), arrivedS, Flat(AllS(Q)));
  }

  // ---- what the joiner's fields mean ----

  ghost predicate QueueSorted(Q: seq<PairRun>) { forall m :: 0 <= m < |Q| ==> RunSorted(Q[m]) && Q[m].posR == Q[m].posS == 0 }

  // Every tuple is in exactly one run or in the tail, and the runs' own pairs are counted.
  ghost predicate Collected(arrivedR: seq<Tuple>, arrivedS: seq<Tuple>, Q: seq<PairRun>, tailR: seq<Tuple>, tailS: seq<Tuple>, matches: nat) {
    && multiset(arrivedR) == multiset(Flat(AllR(Q))) + multiset(tailR)
    && multiset(arrivedS) == multiset(Flat(AllS(Q))) + multiset(tailS)
    && matches == OwnJoin(AllR(Q), AllS(Q), |Q|)
  }

  // All tuples are in one run, and all pairs are counted.
  ghost predicate JoinedUp(arrivedR: seq<Tuple>, arrivedS: seq<Tuple>, Q: seq<PairRun>, matches: nat) {
    && |Q| == 1 && multiset(Q[0].R) == multiset(arrivedR) && multiset(Q[0].S) == multiset(arrivedS)
    && matches == JoinCount(arrivedR, arrivedS)
  }

  lemma CollectNone()
    ensures Collected([], [], [], [], [], 0)
  {
  }

  lemma CollectOne(arrivedR: seq<Tuple>, arrivedS: seq<Tuple>, Q: seq<PairRun>, tailR: seq<Tuple>, tailS: seq<Tuple>, matches: nat, t: Tuple)
    requires Collected(arrivedR, arrivedS, Q, tailR, tailS, matches)
    ensures Collected(arrivedR + [t], arrivedS, Q, tailR + [t], tailS, matches)
    ensures Collected(arrivedR, arrivedS + [t], Q, tailR, tailS + [t], matches)
  {
    hide OwnJoin, Flat;
  }

  // A new run of the first tuples of both tails.
  lemma CollectRun(arrivedR: seq<Tuple>, arrivedS: seq<Tuple>, Q: seq<PairRun>, r: seq<Tuple>, restR: seq<Tuple>, s: seq<Tuple>, restS: seq<Tuple>,
                   matches: nat, q: PairRun, found: nat)
    requires QueueSorted(Q) && Collected(arrivedR, arrivedS, Q, r + restR, s + restS, matches)
    requires RunSorted(q) && q.posR == q.posS == 0 && multiset(q.R) == multiset(r) && multiset(q.S) == multiset(s)
    requires found == JoinCount(q.R, q.S)
    ensures QueueSorted(Q + [q]) && Collected(arrivedR, arrivedS, Q + [q], restR, restS, matches + found)
  {
    hide OwnJoin, Flat, JoinCount, RunSorted;
    RunAdded(Q, q);
  }

  // With empty tails, merging the runs leaves every pair counted.
  lemma CollectAll(arrivedR: seq<Tuple>, arrivedS: seq<Tuple>, Q: seq<PairRun>, matches: nat, all: seq<PairRun>, hits: nat)
    requires Collected(arrivedR, arrivedS, Q, [], [], matches) && Complete(all, Q, hits)
    ensures QueueSorted(all) && JoinedUp(arrivedR, arrivedS, all, matches + hits)
  {
    hide OwnJoin, Flat, JoinCount, Joined, RunSorted;
    JoinedAll(all[0], Q, hits, arrivedR, arrivedS);
  }

  // After the leftovers have been treated twice.
  lemma CollectTwice(arrivedR: seq<Tuple>, arrivedS: seq<Tuple>, Q: seq<PairRun>, tailR: seq<Tuple>, tailS: seq<Tuple>, matches: nat,
                     q: PairRun, found: nat, all: seq<PairRun>, hits: nat)
    requires JoinedUp(arrivedR, arrivedS, Q, matches) && Complete(all, Q + [q], hits)
    requires multiset(q.R) == multiset(tailR) && multiset(q.S) == multiset(tailS) && found == JoinCount(tailR, tailS)
    ensures matches + found + hits == JoinCount(arrivedR, arrivedS) + Twice(arrivedR, arrivedS, tailR, tailS)
  {
    hide JoinCount, Joined;
    assert Q + [q] == [Q[0], q];
    JoinedTwice(all[0], Q[0], q, hits);
    JoinPermutation(Q[0].R, arrivedR, q.S, tailS);
    JoinPermutation(q.R, tailR, Q[0].S, arrivedS);
  }

  // The pairs counted again when the leftovers are processed twice.
  function Twice(arrivedR: seq<Tuple>, arrivedS: seq<Tuple>, leftR: seq<Tuple>, leftS: seq<Tuple>): nat {
    JoinCount(leftR, leftS) + JoinCount(arrivedR, leftS) + JoinCount(leftR, arrivedS)
  }

  lemma StepNext(runs: nat, step: nat)
    ensures (runs + 1) * step == runs * step + step
  {
  }

  lemma Cut(x: seq<Tuple>, at: nat, k: nat, n: nat)
    requires k <= n && at + n <= |x|
    ensures x[at..at + n] == x[at..at + k] + x[at + k..at + n]
  {
  }

  class PMJJoiner {
    const sizeR: nat
    const sizeS: nat
    const stepR: nat
    const stepS: nat
    const tmpR: array<Tuple>
    const tmpS: array<Tuple>
    var outerR: nat
    var innerR: nat
    var outerS: nat
    var innerS: nat
    var Q: seq<PairRun>
    var matches: nat
    ghost var arrivedR: seq<Tuple>
    ghost var arrivedS: seq<Tuple>
    // whether the branch that has "received everything" was taken
    ghost var fired: bool
    // how many times a step became a run
    ghost var runs: nat

    ghost predicate InRange()
      reads this
    {
      && tmpR != tmpS && tmpR.Length == sizeR && tmpS.Length == sizeS
      && outerR + innerR == |arrivedR| <= sizeR && outerS + innerS == |arrivedS| <= sizeS
    }

    // Steps are taken from the front of the arrivals, and never the last tuple of a relation.
    ghost predicate InSteps()
      reads this, tmpR, tmpS
    {
      && InRange() && tmpR[..outerR + innerR] == arrivedR && tmpS[..outerS + innerS] == arrivedS
      && outerR == runs * stepR && outerS == runs * stepS && (runs > 0 ==> outerR < sizeR && outerS < sizeS)
    }

    // Between the calls a step of at least one relation is missing, as long as the normal process goes on.
    ghost predicate Waiting()
      reads this
    {
      Normal() ==> innerR < stepR || innerS < stepS
    }

    // line 537: both relations have more than a step to come.
    ghost predicate Normal()
      reads this
    {
      outerR < sizeR - stepR && outerS < sizeS - stepS
    }

    // The tuples not in a run yet.
    ghost function TailR(): seq<Tuple>
      requires InRange()
      reads this, tmpR
    {
      tmpR[outerR..outerR + innerR]
    }

    ghost function TailS(): seq<Tuple>
      requires InRange()
      reads this, tmpS
    {
      tmpS[outerS..outerS + innerS]
    }

    ghost predicate Valid()
      reads this, tmpR, tmpS
    {
      && InSteps() && QueueSorted(Q)
      && if fired then JoinedUp(arrivedR, arrivedS, Q, matches) && |arrivedR| == sizeR && |arrivedS| == sizeS && !Normal()
         else Collected(arrivedR, arrivedS, Q, TailR(), TailS(), matches)
    }

    constructor (sizeR: nat, sizeS: nat, stepR: nat, stepS: nat)
      ensures Valid() && fresh(tmpR) && fresh(tmpS) && !fired && arrivedR == arrivedS == []
      ensures this.sizeR == sizeR && this.sizeS == sizeS && this.stepR == stepR && this.stepS == stepS
    {
      this.sizeR, this.sizeS, this.stepR, this.stepS := sizeR, sizeS, stepR, stepS;
      tmpR := new Tuple[sizeR](_ => Tuple(0, 0));
      tmpS := new Tuple[sizeS](_ => Tuple(0, 0));
      outerR, innerR, outerS, innerS, Q, matches, runs := 0, 0, 0, 0, [], 0, 0;
      arrivedR, arrivedS, fired := [], [], false;
      new;
      CollectNone();
      assert TailR() == [] && TailS() == [];
      assert tmpR[..0] == [] && tmpS[..0] == [] && runs * stepR == 0 && runs * stepS == 0;
    }

    // lines 517-523
    method Store(t: Tuple, isR: bool)
      requires Valid() && !fired && (if isR then outerR + innerR < sizeR else outerS + innerS < sizeS)
      modifies this, tmpR, tmpS
      ensures Valid() && !fired && Q == old(Q) && outerR == old(outerR) && outerS == old(outerS)
      ensures innerR == old(innerR) + (if isR then 1 else 0) && innerS == old(innerS) + (if isR then 0 else 1)
      ensures arrivedR == old(arrivedR) + (if isR then [t] else [])
      ensures arrivedS == old(arrivedS) + (if isR then [] else [t])
    {
      hide Collected, QueueSorted;
      ghost var tailR, tailS := TailR(), TailS();
      CollectOne(arrivedR, arrivedS, Q, tailR, tailS, matches, t);
      if isR {
        tmpR[outerR + innerR] := t;
        innerR := innerR + 1;
        arrivedR := arrivedR + [t];
        assert TailR() == tailR + [t] && TailS() == tailS;
        assert tmpR[..outerR + innerR] == arrivedR;
      } else {
        tmpS[outerS + innerS] := t;
        innerS := innerS + 1;
        arrivedS := arrivedS + [t];
        assert TailS() == tailS + [t] && TailR() == tailR;
        assert tmpS[..outerS + innerS] == arrivedS;
      }
    }

    // lines 540-566: a step of each relation becomes a run.
    method StartRun()
      requires Valid() && !fired && innerR >= stepR && innerS >= stepS
      requires outerR < sizeR - stepR && outerS < sizeS - stepS
      modifies this
      ensures Valid() && !fired && arrivedR == old(arrivedR) && arrivedS == old(arrivedS)
      ensures innerR == old(innerR) - stepR && innerS == old(innerS) - stepS
    {
      hide Collected, QueueSorted, JoinCount, RunSorted;
      ghost var tailR, tailS := TailR(), TailS();
      var r, s := tmpR[outerR..outerR + stepR], tmpS[outerS..outerS + stepS];
      var q, found := SortingPhase(r, s);
      ghost var restR, restS := tmpR[outerR + stepR..outerR + innerR], tmpS[outerS + stepS..outerS + innerS];
      Cut(tmpR[..], outerR, stepR, innerR);
      Cut(tmpS[..], outerS, stepS, innerS);
      CollectRun(arrivedR, arrivedS, Q, r, restR, s, restS, matches, q, found);
      Q, matches := Q + [q], matches + found;
      outerR, outerS := outerR + stepR, outerS + stepS;
      innerR, innerS := innerR - stepR, innerS - stepS;
      StepNext(runs, stepR);
      StepNext(runs, stepS);
      runs := runs + 1;
      assert TailR() == restR && TailS() == restS;
    }

    // lines 568-598: everything is there, so the rest is sorted and all runs are merged; the pointers stay.
    method Finish()
      requires Valid() && !fired && |arrivedR| == sizeR && |arrivedS| == sizeS && !Normal()
      modifies this
      ensures Valid() && fired && arrivedR == old(arrivedR) && arrivedS == old(arrivedS)
      ensures outerR == old(outerR) && outerS == old(outerS)
      ensures TailR() == old(TailR()) && TailS() == old(TailS())
    {
      hide Collected, QueueSorted, JoinCount, RunSorted, JoinedUp, ProgressiveMerge.Complete;
      ghost var tailR, tailS := TailR(), TailS();
      assert tmpR[outerR..] == tailR == tailR + [] && tmpS[outerS..] == tailS == tailS + [];
      var q, found := SortingPhase(tmpR[outerR..], tmpS[outerS..]);
      CollectRun(arrivedR, arrivedS, Q, tailR, [], tailS, [], matches, q, found);
      ghost var runs := Q + [q];
      QueueRunsSorted(runs);
      var all, hits := MergingPhase(Q + [q]);
      CollectAll(arrivedR, arrivedS, runs, matches + found, all, hits);
      Q, matches := all, matches + found + hits;
      fired := true;
    }

    method Join(t: Tuple, isR: bool)
      requires Valid() && (if isR then outerR + innerR < sizeR else outerS + innerS < sizeS)
      modifies this, tmpR, tmpS
      ensures Valid()
      ensures arrivedR == old(arrivedR) + (if isR then [t] else [])
      ensures arrivedS == old(arrivedS) + (if isR then [] else [t])
      // the branch is taken when the last tuple arrives outside the normal process
      ensures fired <==> |arrivedR| == sizeR && |arrivedS| == sizeS &&
                         !(old(outerR) < sizeR - stepR && old(outerS) < sizeS - stepS)
      // which, unless both steps are 0, is so whenever the last tuple arrives
      ensures (stepR > 0 || stepS > 0) && old(Waiting()) ==> Waiting() && (fired <==> |arrivedR| == sizeR && |arrivedS| == sizeS)
    {
      hide Collected, JoinedUp, QueueSorted;
      NotFired(isR);
      Store(t, isR);
      if outerR < sizeR - stepR && outerS < sizeS - stepS {
        if innerR >= stepR && innerS >= stepS { StartRun(); }
      } else if outerR + innerR == sizeR && outerS + innerS == sizeS {
        Finish();
      }
    }

    // After the branch there is no tuple left to arrive.
    lemma NotFired(isR: bool)
      requires Valid() && (if isR then outerR + innerR < sizeR else outerS + innerS < sizeS)
      ensures !fired
    {
    }

    // What is left goes into a last run, and all runs are merged.
    method MergeAll()
      requires Valid()
      modifies this
      ensures arrivedR == old(arrivedR) && arrivedS == old(arrivedS)
      ensures matches == JoinCount(arrivedR, arrivedS) +
                         (if old(fired) then Twice(arrivedR, arrivedS, old(TailR()), old(TailS())) else 0)
    {
      hide Collected, QueueSorted, JoinCount, RunSorted, JoinedUp, ProgressiveMerge.Complete, Twice;
      ghost var tailR, tailS := TailR(), TailS();
      var q, found := SortingPhase(tmpR[outerR..outerR + innerR], tmpS[outerS..outerS + innerS]);
      ghost var runs := Q + [q];
      RunsSorted(Q, q);
      QueueRunsSorted(runs);
      var all, hits := MergingPhase(Q + [q]);
      if fired {
        CollectTwice(arrivedR, arrivedS, Q, tailR, tailS, matches, q, found, all, hits);
      } else {
        assert tailR == tailR + [] && tailS == tailS + [];
        CollectRun(arrivedR, arrivedS, Q, tailR, [], tailS, [], matches, q, found);
        CollectAll(arrivedR, arrivedS, runs, matches + found, all, hits);
        Counted(arrivedR, arrivedS, all, matches + found + hits);
      }
      Q, matches := all, matches + found + hits;
    }
  }

  lemma QueueRunsSorted(Q: seq<PairRun>)
    requires QueueSorted(Q)
    ensures forall m :: 0 <= m < |Q| ==> RunSorted(Q[m]) && Q[m].posR == Q[m].posS == 0
  {
  }

  lemma RunsSorted(Q: seq<PairRun>, q: PairRun)
    requires QueueSorted(Q) && RunSorted(q) && q.posR == q.posS == 0
    ensures QueueSorted(Q + [q])
  {
  }

  lemma Counted(arrivedR: seq<Tuple>, arrivedS: seq<Tuple>, Q: seq<PairRun>, matches: nat)
    requires JoinedUp(arrivedR, arrivedS, Q, matches)
    ensures matches == JoinCount(arrivedR, arrivedS)
  {
  }

  // A run of the next n tuples of R and the next m of S.
  method NextRun(relR: seq<Tuple>, relS: seq<Tuple>, i: nat, n: nat, j: nat, m: nat, Q: seq<PairRun>, matches: nat)
    returns (Q': seq<PairRun>, matches': nat)
    requires i + n <= |relR| && j + m <= |relS|
    requires QueueSorted(Q) && Collected(relR, relS, Q, relR[i..], relS[j..], matches)
    ensures QueueSorted(Q') && Collected(relR, relS, Q', relR[i + n..], relS[j + m..], matches')
  {
    hide Collected, QueueSorted, JoinCount, RunSorted;
    var q, found := SortingPhase(relR[i..i + n], relS[j..j + m]);
    assert relR[i..] == relR[i..i + n] + relR[i + n..] && relS[j..] == relS[j..j + m] + relS[j + m..];
    CollectRun(relR, relS, Q, relR[i..i + n], relR[i + n..], relS[j..j + m], relS[j + m..], matches, q, found);
    Q', matches' := Q + [q], matches + found;
  }

  lemma CollectNothing(relR: seq<Tuple>, relS: seq<Tuple>)
    ensures relR[0..] == relR && relS[0..] == relS && QueueSorted([]) && Collected(relR, relS, [], relR, relS, 0)
  {
  }

  // What has been counted twice is nothing exactly if no leftover tuple has a partner.
  lemma TwiceNothing(R: seq<Tuple>, S: seq<Tuple>, n: nat, m: nat)
    requires n <= |R| && m <= |S|
    ensures Twice(R, S, R[n..], S[m..]) == 0 <==> JoinCount(R, S[m..]) == 0 && JoinCount(R[n..], S) == 0
  {
    hide JoinCount;
    assert R == R[..n] + R[n..];
    JoinAppendLeft(R[..n], R[n..], S[m..]);
  }

  lemma TwiceEmpty(R: seq<Tuple>, S: seq<Tuple>, leftR: seq<Tuple>, leftS: seq<Tuple>)
    requires (R == [] && leftR == []) || (S == [] && leftS == [])
    ensures Twice(R, S, leftR, leftS) == 0
  {
    hide JoinCount;
    JoinNone(S);
    JoinNone(leftS);
    JoinSymmetric(R, []);
    JoinSymmetric(leftR, []);
    JoinNone(R);
    JoinNone(leftR);
  }

  // ---- how many runs there are when everything comes to one thread ----

  // The steps that can be taken from a relation and leave a tuple.
  function StepsIn(size: nat, step: nat): nat
    requires step > 0
  {
    if size == 0 then 0 else (size - 1) / step
  }

  function Runs(sizeR: nat, sizeS: nat, stepR: nat, stepS: nat): nat
    requires stepR > 0 || stepS > 0
  {
    if sizeR == 0 || sizeS == 0 then 0
    else if stepR == 0 then StepsIn(sizeS, stepS)
    else if stepS == 0 then StepsIn(sizeR, stepR)
    else if StepsIn(sizeR, stepR) < StepsIn(sizeS, stepS) then StepsIn(sizeR, stepR)
    else StepsIn(sizeS, stepS)
  }

  lemma Times(a: nat, b: nat, n: nat)
    requires a <= b
    ensures a * n <= b * n
  {
  }

  lemma StepsFit(size: nat, step: nat, k: nat)
    requires step > 0 && size > 0
    ensures k * step < size <==> k <= StepsIn(size, step)
  {
    var q := StepsIn(size, step);
    Quotient(size - 1, step);
    if k <= q { Times(k, q, step); } else { Times(q + 1, k, step); }
  }

  lemma Quotient(n: nat, step: nat)
    requires step > 0
    ensures n / step * step <= n < (n / step + 1) * step
  {
    assert n == n / step * step + n % step;
    StepNext(n / step, step);
  }

  // Runs that could all be taken, and after which no more can, are all there can be.
  lemma RunsAre(runs: nat, sizeR: nat, sizeS: nat, stepR: nat, stepS: nat)
    requires stepR > 0 || stepS > 0
    requires runs > 0 ==> runs * stepR < sizeR && runs * stepS < sizeS
    requires !(runs * stepR < sizeR - stepR && runs * stepS < sizeS - stepS)
    ensures runs == Runs(sizeR, sizeS, stepR, stepS)
  {
    hide StepsIn;
    StepNext(runs, stepR);
    StepNext(runs, stepS);
    if sizeR > 0 && sizeS > 0 {
      if stepR > 0 {
        StepsFit(sizeR, stepR, runs);
        StepsFit(sizeR, stepR, runs + 1);
      }
      if stepS > 0 {
        StepsFit(sizeS, stepS, runs);
        StepsFit(sizeS, stepS, runs + 1);
      }
    }
  }

  // pmj: the whole relations at once, in `runs` runs of a step and one of the rest.  The first run is taken before the
  // sizes are looked at; `inBounds` is false when a run reads past the end of a relation.
  method JoinLazily(relR: seq<Tuple>, relS: seq<Tuple>, stepR: nat, stepS: nat)
    returns (matches: nat, inBounds: bool, runs: nat)
    requires stepR > 0 && stepS > 0
    ensures inBounds <==> stepR <= |relR| && stepS <= |relS|
    ensures inBounds ==> matches == JoinCount(relR, relS)
    ensures inBounds ==> runs == if Runs(|relR|, |relS|, stepR, stepS) > 0 then Runs(|relR|, |relS|, stepR, stepS) else 1
  {
    hide Collected, JoinedUp, QueueSorted, JoinCount, ProgressiveMerge.Complete, Runs;
    var i, j, Q := 0, 0, [];
    matches, runs := 0, 0;
    CollectNothing(relR, relS);
    while true
      invariant i == j == 0 || (i + stepR <= |relR| && j + stepS <= |relS|)
      invariant i <= |relR| && j <= |relS| && i == runs * stepR && j == runs * stepS
      invariant runs > 0 ==> i < |relR| - stepR && j < |relS| - stepS
      invariant QueueSorted(Q) && Collected(relR, relS, Q, relR[i..], relS[j..], matches)
      decreases |relR| - i
    {
      inBounds := i + stepR <= |relR| && j + stepS <= |relS|;
      if !inBounds { return; }
      Q, matches := NextRun(relR, relS, i, stepR, j, stepS, Q, matches);
      StepNext(runs, stepR);
      StepNext(runs, stepS);
      i, j, runs := i + stepR, j + stepS, runs + 1;
      if i >= |relR| - stepR || j >= |relS| - stepS { break; }
    }
    LazyRuns(runs, |relR|, |relS|, stepR, stepS);
    Q, matches := NextRun(relR, relS, i, |relR| - i, j, |relS| - j, Q, matches);
    QueueRunsSorted(Q);
    var all, hits := MergingPhase(Q);
    assert relR[|relR|..] == [] && relS[|relS|..] == [];
    CollectAll(relR, relS, Q, matches, all, hits);
    matches := matches + hits;
    Counted(relR, relS, all, matches);
  }

  const DEFAULT_STEP: nat := 640

  // One tuple less than the default step, which is the one PMJ_st runs with, is read past its end.
  method ShortRelation() returns (relR: seq<Tuple>, relS: seq<Tuple>, inBounds: bool)
    ensures |relR| == DEFAULT_STEP - 1 && |relS| == DEFAULT_STEP && !inBounds
  {
    relR, relS := seq(DEFAULT_STEP - 1, i => Tuple(i, i)), seq(DEFAULT_STEP, i => Tuple(i, i));
    var matches, runs;
    matches, inBounds, runs := JoinLazily(relR, relS, DEFAULT_STEP, DEFAULT_STEP);
  }

  lemma LazyRuns(runs: nat, sizeR: nat, sizeS: nat, stepR: nat, stepS: nat)
    requires stepR > 0 && stepS > 0 && runs > 0 && runs * stepR <= sizeR && runs * stepS <= sizeS
    requires runs > 1 ==> runs * stepR < sizeR && runs * stepS < sizeS
    requires !(runs * stepR < sizeR - stepR && runs * stepS < sizeS - stepS)
    ensures runs == if Runs(sizeR, sizeS, stepR, stepS) > 0 then Runs(sizeR, sizeS, stepR, stepS) else 1
  {
    hide Runs;
    if runs * stepR < sizeR && runs * stepS < sizeS {
      RunsAre(runs, sizeR, sizeS, stepR, stepS);
    } else {
      RunsAre(0, sizeR, sizeS, stepR, stepS);
    }
  }

  // All tuples of both relations come here, and there are runs to speak of.
  predicate AllHere(sizeR: nat, sizeS: nat, stepR: nat, stepS: nat, R: seq<Tuple>, S: seq<Tuple>) {
    |R| == sizeR && |S| == sizeS && (stepR > 0 || stepS > 0)
  }

  // What k steps leave.
  function After(x: seq<Tuple>, k: nat, step: nat): seq<Tuple> { if k * step <= |x| then x[k * step..] else [] }

  // Counted twice: the pairs of the tuples no run has taken.
  function Excess(stepR: nat, stepS: nat, R: seq<Tuple>, S: seq<Tuple>): nat
    requires stepR > 0 || stepS > 0
  {
    var k := Runs(|R|, |S|, stepR, stepS);
    Twice(R, S, After(R, k, stepR), After(S, k, stepS))
  }

  // No tuple that the runs leave has a partner.
  predicate LeftoversAlone(stepR: nat, stepS: nat, R: seq<Tuple>, S: seq<Tuple>)
    requires stepR > 0 || stepS > 0
  {
    var k := Runs(|R|, |S|, stepR, stepS);
    JoinCount(R, After(S, k, stepS)) == 0 && JoinCount(After(R, k, stepR), S) == 0
  }

  lemma ExcessNothing(stepR: nat, stepS: nat, R: seq<Tuple>, S: seq<Tuple>)
    requires stepR > 0 || stepS > 0
    ensures Excess(stepR, stepS, R, S) == 0 <==> LeftoversAlone(stepR, stepS, R, S)
  {
    hide JoinCount, Runs;
    var k := Runs(|R|, |S|, stepR, stepS);
    var n, m := |R| - |After(R, k, stepR)|, |S| - |After(S, k, stepS)|;
    assert After(R, k, stepR) == R[n..] && After(S, k, stepS) == S[m..];
    TwiceNothing(R, S, n, m);
  }

  // One thread's share of a join: any arrival order, then merge().  The matches are exactly the pairs if not all
  // tuples of both relations come here.  If they do, the branch that has received everything treats the leftovers,
  // which are what the runs have not taken, and merge() treats them again; so the matches are the pairs exactly if
  // no leftover has a partner.  With both steps 0 no leftover is ever treated before merge().
  method JoinAll(sizeR: nat, sizeS: nat, stepR: nat, stepS: nat, arrivals: seq<Arrival>) returns (matches: nat)
    requires |Side(arrivals, true)| <= sizeR && |Side(arrivals, false)| <= sizeS
    ensures var R, S := Side(arrivals, true), Side(arrivals, false);
            matches == JoinCount(R, S) + if AllHere(sizeR, sizeS, stepR, stepS, R, S) then Excess(stepR, stepS, R, S) else 0
    ensures var R, S := Side(arrivals, true), Side(arrivals, false);
            matches == JoinCount(R, S) <==>
            (AllHere(sizeR, sizeS, stepR, stepS, R, S) ==> LeftoversAlone(stepR, stepS, R, S))
  {
    hide JoinCount, Twice, Collected, JoinedUp, QueueSorted, Side, Runs, LeftoversAlone, Excess;
    var joiner := new PMJJoiner(sizeR, sizeS, stepR, stepS);
    SideNone(arrivals);
    var i := 0;
    while i < |arrivals|
      invariant i <= |arrivals| && joiner.Valid() && fresh(joiner) && fresh(joiner.tmpR) && fresh(joiner.tmpS)
      invariant joiner.sizeR == sizeR && joiner.sizeS == sizeS && joiner.stepR == stepR && joiner.stepS == stepS
      invariant joiner.arrivedR == Side(arrivals[..i], true) && joiner.arrivedS == Side(arrivals[..i], false)
      invariant stepR > 0 || stepS > 0 ==> joiner.Waiting()
      invariant joiner.fired ==> |joiner.arrivedR| == sizeR && |joiner.arrivedS| == sizeS
      invariant (stepR > 0 || stepS > 0) && i > 0 && |joiner.arrivedR| == sizeR && |joiner.arrivedS| == sizeS ==> joiner.fired
    {
      SideNext(arrivals, i);
      SidePrefix(arrivals, i + 1);
      joiner.Join(arrivals[i].tuple, arrivals[i].isR);
      i := i + 1;
    }
    assert arrivals[..i] == arrivals;
    ghost var R, S, runs, fired := joiner.arrivedR, joiner.arrivedS, joiner.runs, joiner.fired;
    assert |arrivals| == 0 ==> R == S == [];
    assert joiner.TailR() == R[runs * stepR..] && joiner.TailS() == S[runs * stepS..];
    ExcessIs(sizeR, sizeS, stepR, stepS, R, S, runs, fired);
    joiner.MergeAll();
    matches := joiner.matches;
    if stepR > 0 || stepS > 0 { ExcessNothing(stepR, stepS, R, S); }
  }

  lemma ExcessIs(sizeR: nat, sizeS: nat, stepR: nat, stepS: nat, R: seq<Tuple>, S: seq<Tuple>, runs: nat, fired: bool)
    requires runs * stepR <= |R| && runs * stepS <= |S| && (runs > 0 ==> runs * stepR < sizeR && runs * stepS < sizeS)
    requires fired ==> |R| == sizeR && |S| == sizeS && !(runs * stepR < sizeR - stepR && runs * stepS < sizeS - stepS)
    requires AllHere(sizeR, sizeS, stepR, stepS, R, S) ==> fired || R == S == []
    ensures (if fired then Twice(R, S, R[runs * stepR..], S[runs * stepS..]) else 0) ==
            (if AllHere(sizeR, sizeS, stepR, stepS, R, S) then Excess(stepR, stepS, R, S) else 0)
  {
    hide JoinCount, Twice, Runs;
    if AllHere(sizeR, sizeS, stepR, stepS, R, S) {
      if fired {
        RunsAre(runs, sizeR, sizeS, stepR, stepS);
      } else {
        TwiceEmpty(R, S, After(R, Runs(0, 0, stepR, stepS), stepR), After(S, Runs(0, 0, stepR, stepS), stepS));
      }
    } else if fired {
      assert runs * stepR == 0 && runs * stepS == 0;
      TwiceEmpty(R, S, R[0..], S[0..]);
    }
  }

  // One tuple of each relation, both to the same thread: the pair is reported four times.
  method OnePairFourTimes(t: Tuple) returns (matches: nat)
    ensures matches == 4 && JoinCount([t], [t]) == 1
  {
    var arrivals := [Arrival(t, true), Arrival(t, false)];
    assert arrivals[..1][..0] == [] && arrivals[..1] == [Arrival(t, true)];
    assert Side(arrivals[..1], true) == [t] && Side(arrivals[..1], false) == [];
    assert Side(arrivals, true) == [t] && Side(arrivals, false) == [t];
    matches := JoinAll(1, 1, 1, 1, arrivals);
    assert Runs(1, 1, 1, 1) == 0 && After([t], 0, 1) == [t];
    JoinOne([t], t);
    CountOne(t, t.key);
  }

  lemma SideNone(arrivals: seq<Arrival>)
    ensures Side(arrivals[..0], true) == Side(arrivals[..0], false) == []
  {
  }

  lemma SideNext(arrivals: seq<Arrival>, i: nat)
    requires i < |arrivals|
    ensures var t := [arrivals[i].tuple];
            && Side(arrivals[..i + 1], true) == Side(arrivals[..i], true) + (if arrivals[i].isR then t else [])
            && Side(arrivals[..i + 1], false) == Side(arrivals[..i], false) + (if arrivals[i].isR then [] else t)
  {
    assert arrivals[..i + 1][..i] == arrivals[..i];
  }

  lemma {:induction false} SidePrefix(arrivals: seq<Arrival>, n: nat)
    requires n <= |arrivals|
    ensures |Side(arrivals[..n], true)| <= |Side(arrivals, true)| && |Side(arrivals[..n], false)| <= |Side(arrivals, false)|
    decreases |arrivals|
  {
    if n < |arrivals| {
      var m := |arrivals| - 1;
      SidePrefix(arrivals[..m], n);
      assert arrivals[..m][..n] == arrivals[..n];
    } else {
      assert arrivals[..n] == arrivals;
    }
  }
}

// What a streaming merge keeps: the output so far, the register that holds the high half of the last network,
// and the unread rest of both lists (hashing/helper/avxsort_core.h:116-586).
module Merging {
  import opened Sequences

  ghost predicate Below(a: seq<int>, b: seq<int>) { forall i, j :: 0 <= i < |a| && 0 <= j < |b| ==> a[i] <= b[j] }

  function Items(out: seq<int>, reg: seq<int>, a: seq<int>, b: seq<int>): multiset<int> {
    multiset(out) + multiset(reg) + multiset(a) + multiset(b)
  }

  // The output is sorted and holds nothing greater than what is still to come.
  ghost predicate Merged(out: seq<int>, reg: seq<int>, a: seq<int>, b: seq<int>) {
    && Sorted(out) && Sorted(reg) && Sorted(a) && Sorted(b)
    && Below(out, reg) && Below(out, a) && Below(out, b)
  }

  // No element of the register exceeds both heads.
  ghost predicate Fits(reg: seq<int>, a: seq<int>, b: seq<int>) {
    |a| > 0 && |b| > 0 ==> forall i :: 0 <= i < |reg| ==> reg[i] <= Max(a[0], b[0])
  }

  // Nothing in the register exceeds the head of b, if b has one.
  ghost predicate UpTo(reg: seq<int>, b: seq<int>) { |b| > 0 ==> forall i :: 0 <= i < |reg| ==> reg[i] <= b[0] }

  lemma FitsOther(reg: seq<int>, a: seq<int>, b: seq<int>)
    requires Fits(reg, a, b) && (|b| > 0 ==> |a| > 0 && a[0] <= b[0])
    ensures UpTo(reg, b)
  {
  }

  // lo and hi are the low and the high half of x and y together.
  ghost predicate Halves(lo: seq<int>, hi: seq<int>, x: seq<int>, y: seq<int>) {
    && |lo| == |hi| == |x| == |y| && Sorted(lo + hi)
    && multiset(lo) + multiset(hi) == multiset(x) + multiset(y)
  }

  lemma Smaller(a: multiset<int>, b: multiset<int>)
    requires a <= b
    ensures |a| <= |b|
  {
    assert b == a + (b - a);
  }

  lemma FromEither(lo: seq<int>, hi: seq<int>, x: seq<int>, y: seq<int>, e: int)
    requires Halves(lo, hi, x, y) && (e in lo || e in hi)
    ensures e in x || e in y
  {
    assert e in multiset(lo) + multiset(hi);
    assert e in multiset(x) + multiset(y);
  }

  // The low half holds nothing greater than a bound on all of x: there are |x| elements within the bound.
  lemma LowWithin(lo: seq<int>, hi: seq<int>, x: seq<int>, y: seq<int>, v: int)
    requires Halves(lo, hi, x, y) && forall i :: 0 <= i < |x| ==> x[i] <= v
    ensures forall i :: 0 <= i < |lo| ==> lo[i] <= v
  {
    var w := |lo|;
    if w > 0 && lo[w - 1] > v {
      var few := multiset(lo[..w - 1]);
      assert lo == lo[..w - 1] + [lo[w - 1]];
      forall e | e in multiset(x) ensures multiset(x)[e] <= few[e] {
        assert e <= v;
        assert forall j :: 0 <= j < |hi| ==> hi[j] == (lo + hi)[w + j] && (lo + hi)[w - 1] <= (lo + hi)[w + j];
        assert e !in multiset(hi);
        assert (multiset(lo) + multiset(hi))[e] == few[e];
        assert (multiset(x) + multiset(y))[e] >= multiset(x)[e];
      }
      Smaller(multiset(x), few);
      assert false;
    }
    forall i | 0 <= i < w ensures lo[i] <= v {
      assert (lo + hi)[i] == lo[i] && (lo + hi)[w - 1] == lo[w - 1];
    }
  }

  lemma SortedAppend(a: seq<int>, b: seq<int>)
    requires Sorted(a) && Sorted(b) && Below(a, b)
    ensures Sorted(a + b)
  {
  }

  lemma SortedParts(a: seq<int>, b: seq<int>)
    requires Sorted(a + b)
    ensures Sorted(a) && Sorted(b) && Below(a, b)
  {
    forall i, j | 0 <= i < j < |a| ensures a[i] <= a[j] {
      assert (a + b)[i] <= (a + b)[j];
    }
    forall i, j | 0 <= i < j < |b| ensures b[i] <= b[j] {
      assert (a + b)[|a| + i] <= (a + b)[|a| + j];
    }
    forall i, j | 0 <= i < |a| && 0 <= j < |b| ensures a[i] <= b[j] {
      assert (a + b)[i] <= (a + b)[|a| + j];
    }
  }

  // One step: the block blk, from the list with the smaller head, goes through the network with the
  // register; the low half is output and the high half stays.  `rest` follows the block, `b` is the other list.
  lemma TakeBlock(out: seq<int>, reg: seq<int>, blk: seq<int>, rest: seq<int>, b: seq<int>, lo: seq<int>, hi: seq<int>)
    requires Merged(out, reg, blk + rest, b) && Halves(lo, hi, reg, blk) && UpTo(reg, b)
    ensures Merged(out + lo, hi, rest, b) && Fits(hi, rest, b)
    ensures Items(out + lo, hi, rest, b) == Items(out, reg, blk + rest, b)
  {
    SortedParts(blk, rest);
    SortedParts(lo, hi);
    AboveOutput(out, reg, blk, rest, b, lo, hi);
    if |rest| > 0 {
      HalvesSwap(lo, hi, reg, blk);
      LowWithin(lo, hi, blk, reg, rest[0]);
    }
    if |b| > 0 { LowWithin(lo, hi, reg, blk, b[0]); }
    SortedAppend(out, lo);
    if |rest| > 0 && |b| > 0 {
      forall i | 0 <= i < |hi| ensures hi[i] <= Max(rest[0], b[0]) {
        FromEither(lo, hi, reg, blk, hi[i]);
      }
    }
    TakeKeepsItems(out, reg, blk, rest, b, lo, hi);
  }

  lemma HalvesLength(lo: seq<int>, hi: seq<int>, x: seq<int>, y: seq<int>)
    requires Halves(lo, hi, x, y)
    ensures |lo| == |hi| == |x| == |y|
  {
  }

  lemma HalvesSwap(lo: seq<int>, hi: seq<int>, x: seq<int>, y: seq<int>)
    requires Halves(lo, hi, x, y)
    ensures Halves(lo, hi, y, x)
  {
  }

  ghost predicate AllUpTo(out: seq<int>, v: int) { forall i :: 0 <= i < |out| ==> out[i] <= v }

  lemma AboveOutput(out: seq<int>, reg: seq<int>, blk: seq<int>, rest: seq<int>, b: seq<int>, lo: seq<int>, hi: seq<int>)
    requires Merged(out, reg, blk + rest, b) && Halves(lo, hi, reg, blk)
    ensures Below(out, lo) && Below(out, hi) && Below(out, rest)
  {
    forall i | 0 <= i < |blk| ensures AllUpTo(out, blk[i]) {
      assert (blk + rest)[i] == blk[i];
    }
    forall i | 0 <= i < |rest| ensures AllUpTo(out, rest[i]) {
      assert (blk + rest)[|blk| + i] == rest[i];
    }
    forall i | 0 <= i < |reg| ensures AllUpTo(out, reg[i]) {
    }
    forall i | 0 <= i < |lo| ensures AllUpTo(out, lo[i]) {
      FromEither(lo, hi, reg, blk, lo[i]);
    }
    forall i | 0 <= i < |hi| ensures AllUpTo(out, hi[i]) {
      FromEither(lo, hi, reg, blk, hi[i]);
    }
  }

  lemma TakeKeepsItems(out: seq<int>, reg: seq<int>, blk: seq<int>, rest: seq<int>, b: seq<int>, lo: seq<int>, hi: seq<int>)
    requires Halves(lo, hi, reg, blk)
    ensures Items(out + lo, hi, rest, b) == Items(out, reg, blk + rest, b)
  {
    var o, r, b' := multiset(out), multiset(rest), multiset(b);
    assert o + multiset(lo) + multiset(hi) + r + b' == o + (multiset(lo) + multiset(hi)) + r + b';
    assert o + multiset(reg) + (multiset(blk) + r) + b' == o + (multiset(reg) + multiset(blk)) + r + b';
  }

  lemma MergedSwap(out: seq<int>, reg: seq<int>, a: seq<int>, b: seq<int>)
    requires Merged(out, reg, a, b)
    ensures Merged(out, reg, b, a) && Items(out, reg, b, a) == Items(out, reg, a, b)
    ensures Fits(reg, a, b) ==> Fits(reg, b, a)
  {
  }

  // Before the first network the whole first block of a is still to come.
  lemma MergeStart(a: seq<int>, b: seq<int>, w: nat)
    requires Sorted(a) && Sorted(b) && w <= |a|
    ensures Merged([], a[..w], a[w..], b) && Items([], a[..w], a[w..], b) == multiset(a) + multiset(b)
    ensures UpTo(a[..w], a[w..])
  {
    assert a == a[..w] + a[w..];
  }

  // The state of a streaming merge of the items in `all` with a register of width w.
  ghost predicate Streaming(out: seq<int>, reg: seq<int>, a: seq<int>, b: seq<int>, all: multiset<int>, w: nat) {
    |reg| == w && Merged(out, reg, a, b) && Fits(reg, a, b) && Items(out, reg, a, b) == all
  }

  lemma StreamTake(out: seq<int>, reg: seq<int>, a: seq<int>, b: seq<int>, all: multiset<int>, w: nat, lo: seq<int>, hi: seq<int>)
    requires Streaming(out, reg, a, b, all, w) && 0 < w <= |a| && Halves(lo, hi, reg, a[..w])
    requires |b| > 0 ==> a[0] <= b[0]
    ensures Streaming(out + lo, hi, a[w..], b, all, w)
  {
    hide Merged, Fits, Items, UpTo, Sorted;
    assert a == a[..w] + a[w..];
    FitsOther(reg, a, b);
    TakeBlock(out, reg, a[..w], a[w..], b, lo, hi);
  }

  lemma StreamSwap(out: seq<int>, reg: seq<int>, a: seq<int>, b: seq<int>, all: multiset<int>, w: nat)
    requires Streaming(out, reg, a, b, all, w)
    ensures Streaming(out, reg, b, a, all, w)
  {
    MergedSwap(out, reg, a, b);
  }

  lemma StreamStart(a: seq<int>, b: seq<int>, w: nat, lo: seq<int>, hi: seq<int>)
    requires Sorted(a) && Sorted(b) && 0 < w <= |a| && w <= |b| && Halves(lo, hi, a[..w], b[..w])
    ensures Streaming(lo, hi, a[w..], b[w..], multiset(a) + multiset(b), w)
  {
    hide Merged, Fits, Items, UpTo, Sorted;
    MergeStart(a, b, w);
    MergedSwap([], a[..w], a[w..], b);
    assert b == b[..w] + b[w..];
    TakeBlock([], a[..w], b[..w], b[w..], a[w..], lo, hi);
    MergedSwap([] + lo, hi, b[w..], a[w..]);
    assert [] + lo == lo;
  }

  lemma StreamEnd(out: seq<int>, reg: seq<int>, a: seq<int>, b: seq<int>, all: multiset<int>, w: nat)
    requires Streaming(out, reg, a, b, all, w) && a == [] && b == []
    ensures |reg| == w && Sorted(out + reg) && multiset(out + reg) == all
  {
    MergeEnd(out, reg);
  }

  lemma StreamFlush(out: seq<int>, reg: seq<int>, a: seq<int>, b: seq<int>, all: multiset<int>, w: nat)
    requires Streaming(out, reg, a, b, all, w) && UpTo(reg, a)
    ensures Streaming(out, [], reg + a, b, all, 0)
  {
    Flush(out, reg, a, b);
  }

  // The head that does not hold the register back is the greater one.
  lemma FitsSome(reg: seq<int>, a: seq<int>, b: seq<int>, v: int)
    requires Fits(reg, a, b) && Sorted(reg) && |reg| > 0 && |a| > 0 && |b| > 0 && v == reg[|reg| - 1]
    ensures UpTo(reg, if a[0] >= v then a else b)
  {
  }

  lemma StreamHead(out: seq<int>, a: seq<int>, b: seq<int>, all: multiset<int>)
    requires Streaming(out, [], a, b, all, 0) && |a| > 0 && (|b| > 0 ==> a[0] <= b[0])
    ensures Streaming(out + a[..1], [], a[1..], b, all, 0)
  {
    assert a[..1] == [a[0]];
    TakeHead(out, a, b);
  }

  lemma {:induction false} StreamCopy(out: seq<int>, a: seq<int>, all: multiset<int>, k: nat)
    requires Streaming(out, [], a, [], all, 0) && k <= |a|
    ensures Streaming(out + a[..k], [], a[k..], [], all, 0)
    decreases k
  {
    hide Streaming, Sorted;
    if k == 0 {
      assert out + a[..0] == out && a[0..] == a;
    } else {
      StreamHead(out, a, [], all);
      StreamCopy(out + a[..1], a[1..], all, k - 1);
      assert out + a[..1] + a[1..][..k - 1] == out + a[..k] && a[1..][k - 1..] == a[k..];
    }
  }

  // Before any network or step.
  lemma StreamBegin(a: seq<int>, b: seq<int>)
    requires Sorted(a) && Sorted(b)
    ensures Streaming([], [], a, b, multiset(a) + multiset(b), 0)
  {
  }

  // Writing the register in front of a list whose head is not below it keeps the list sorted.
  lemma Flush(out: seq<int>, reg: seq<int>, a: seq<int>, b: seq<int>)
    requires Merged(out, reg, a, b) && UpTo(reg, a)
    ensures Merged(out, [], reg + a, b) && Items(out, [], reg + a, b) == Items(out, reg, a, b)
  {
    SortedAppend(reg, a);
  }

  // The serial step: the smaller head, b's on a tie.
  lemma TakeHead(out: seq<int>, a: seq<int>, b: seq<int>)
    requires Merged(out, [], a, b) && |a| > 0 && (|b| > 0 ==> a[0] <= b[0])
    ensures Merged(out + [a[0]], [], a[1..], b) && Items(out + [a[0]], [], a[1..], b) == Items(out, [], a, b)
  {
    assert a == [a[0]] + a[1..];
    SortedAppend(out, [a[0]]);
    assert multiset(a) == multiset{a[0]} + multiset(a[1..]);
    assert multiset(out + [a[0]]) == multiset(out) + multiset{a[0]};
  }

  lemma MergeEnd(out: seq<int>, reg: seq<int>)
    requires Merged(out, reg, [], [])
    ensures Sorted(out + reg) && multiset(out + reg) == Items(out, reg, [], [])
  {
    SortedAppend(out, reg);
  }
}

// The merge routines on memory.  A pointer is an offset into `mem`; one method stands for the three widths
// of a routine, which differ only in the network and the block they move.
module Merge {
  import opened Sequences
  import opened Bitonic
  import opened Merging

  predicate Apart(p: nat, n: nat, q: nat, k: nat) { p + n <= q || q + k <= p }

  // m with x stored from position `at`
  function Spliced(m: seq<int>, at: nat, x: seq<int>): (r: seq<int>)
    requires at + |x| <= |m|
    ensures |r| == |m|
  {
    m[..at] + x + m[at + |x|..]
  }

  lemma SpliceKeeps(m: seq<int>, at: nat, x: seq<int>, p: nat, n: nat)
    requires at + |x| <= |m| && p + n <= |m| && Apart(at, |x|, p, n)
    ensures Spliced(m, at, x)[p..p + n] == m[p..p + n]
  {
    var r := Spliced(m, at, x);
    forall i | p <= i < p + n ensures r[i] == m[i] {
    }
    assert r[p..p + n] == m[p..p + n];
  }

  lemma SpliceExtends(m: seq<int>, at: nat, x: seq<int>, p: nat)
    requires at + |x| <= |m| && p <= at
    ensures Spliced(m, at, x)[p..at + |x|] == m[p..at] + x
  {
  }

  predicate Whole(a: nat, w: nat) { w > 0 && a % w == 0 }

  lemma WholeZero(w: nat)
    requires IsWidth(w)
    ensures Whole(0, w)
  {
  }

  lemma NextBlock(w: nat, a: nat, len: nat)
    requires IsWidth(w) && Whole(a, w) && Whole(len, w) && a < len
    ensures a + w <= len && Whole(a + w, w)
  {
    if w == 4 {} else if w == 8 {} else {}
  }

  method StoreBlock(mem: array<int>, at: nat, x: seq<int>)
    requires at + |x| <= mem.Length
    modifies mem
    ensures mem[..] == Spliced(old(mem[..]), at, x)
  {
    forall i | 0 <= i < |x| {
      mem[at + i] := x[i];
    }
  }

  // Load the block at `from`, merge it with the register, store the low half at `at`.
  method MergeBlock(mem: array<int>, w: nat, reg: seq<int>, from: nat, at: nat, blockFirst: bool)
    returns (hi: seq<int>, ghost lo: seq<int>)
    requires IsWidth(w) && |reg| == w && Sorted(reg)
    requires from + w <= mem.Length && at + w <= mem.Length && Sorted(mem[from..from + w])
    modifies mem
    ensures Halves(lo, hi, reg, old(mem[from..from + w]))
    ensures |lo| == w && mem[..] == Spliced(old(mem[..]), at, lo)
  {
    hide Network;
    var blk := mem[from..from + w];
    if blockFirst { NetworkMerges(w, blk, reg); } else { NetworkMerges(w, reg, blk); }
    var (l, h) := if blockFirst then Network(w, blk, reg) else Network(w, reg, blk);
    StoreBlock(mem, at, l);
    lo, hi := l, h;
  }

  // The lists and the output of one call.
  datatype Job = Job(w: nat, inpA: nat, lenA: nat, inpB: nat, lenB: nat, out: nat) {
    function End(): nat { out + lenA + lenB }

    function Swapped(): Job { Job(w, inpB, lenB, inpA, lenA, out) }
  }

  // The lists are not written to.
  predicate Separate(j: Job, n: nat) {
    && j.inpA + j.lenA <= n && j.inpB + j.lenB <= n && j.out + j.lenA + j.lenB <= n && IsWidth(j.w)
    && Apart(j.inpA, j.lenA, j.out, j.lenA + j.lenB) && Apart(j.inpB, j.lenB, j.out, j.lenA + j.lenB)
  }

  function Region(m: seq<int>, p: nat, n: nat): seq<int>
    requires p + n <= |m|
  {
    m[p..p + n]
  }

  // What is left of the n elements at p after the first k.
  function Rest(m: seq<int>, p: nat, k: nat, n: nat): seq<int>
    requires k <= n && p + n <= |m|
  {
    m[p + k..p + n]
  }

  // Outside the output nothing has changed.
  ghost predicate Frames(m: seq<int>, m0: seq<int>, j: Job)
    requires |m| == |m0| && Separate(j, |m|)
  {
    && Region(m, 0, j.out) == Region(m0, 0, j.out)
    && Region(m, j.End(), |m| - j.End()) == Region(m0, j.End(), |m| - j.End())
    && Region(m, j.inpA, j.lenA) == Region(m0, j.inpA, j.lenA)
    && Region(m, j.inpB, j.lenB) == Region(m0, j.inpB, j.lenB)
  }

  function All(m0: seq<int>, j: Job): multiset<int>
    requires j.inpA + j.lenA <= |m0| && j.inpB + j.lenB <= |m0|
  {
    multiset(Region(m0, j.inpA, j.lenA)) + multiset(Region(m0, j.inpB, j.lenB))
  }

  // a and b elements have been read, a + b - w written.
  ghost predicate EqLenInv(m: seq<int>, m0: seq<int>, j: Job, a: nat, b: nat, reg: seq<int>) {
    && |m| == |m0| && Separate(j, |m|) && j.w <= a <= j.lenA && j.w <= b <= j.lenB
    && Frames(m, m0, j)
    && Streaming(Region(m, j.out, a + b - j.w), reg, Rest(m0, j.inpA, a, j.lenA), Rest(m0, j.inpB, b, j.lenB), All(m0, j), j.w)
  }

  lemma EqLenSwap(m: seq<int>, m0: seq<int>, j: Job, a: nat, b: nat, reg: seq<int>)
    requires EqLenInv(m, m0, j, a, b, reg)
    ensures EqLenInv(m, m0, j.Swapped(), b, a, reg)
  {
    hide Streaming;
    StreamSwap(Region(m, j.out, a + b - j.w), reg, Rest(m0, j.inpA, a, j.lenA), Rest(m0, j.inpB, b, j.lenB), All(m0, j), j.w);
    assert All(m0, j.Swapped()) == All(m0, j) && a + b - j.w == b + a - j.w;
    assert j.Swapped().End() == j.End();
  }

  lemma KeepsRegion(m: seq<int>, at: nat, x: seq<int>, p: nat, n: nat)
    requires at + |x| <= |m| && p + n <= |m| && Apart(at, |x|, p, n)
    ensures Region(Spliced(m, at, x), p, n) == Region(m, p, n)
  {
    SpliceKeeps(m, at, x, p, n);
  }

  lemma ApartWithin(p: nat, n: nat, q: nat, k: nat, at: nat, x: nat)
    requires Apart(p, n, q, k) && q <= at && at + x <= q + k
    ensures Apart(at, x, p, n)
  {
  }

  // Storing x in the output region.
  lemma StoreFrames(m: seq<int>, m0: seq<int>, j: Job, o: nat, x: seq<int>)
    requires |m| == |m0| && Separate(j, |m|) && o + |x| <= j.lenA + j.lenB && Frames(m, m0, j)
    ensures Frames(Spliced(m, j.out + o, x), m0, j)
    ensures Region(Spliced(m, j.out + o, x), j.out, o + |x|) == Region(m, j.out, o) + x
  {
    hide Spliced, Region;
    var at := j.out + o;
    ApartWithin(j.inpA, j.lenA, j.out, j.lenA + j.lenB, at, |x|);
    ApartWithin(j.inpB, j.lenB, j.out, j.lenA + j.lenB, at, |x|);
    KeepsRegion(m, at, x, j.inpA, j.lenA);
    KeepsRegion(m, at, x, j.inpB, j.lenB);
    KeepsRegion(m, at, x, 0, j.out);
    KeepsRegion(m, at, x, j.End(), |m| - j.End());
    ExtendsRegion(m, j.out, o, x);
  }

  lemma ExtendsRegion(m: seq<int>, out: nat, o: nat, x: seq<int>)
    requires out + o + |x| <= |m|
    ensures Region(Spliced(m, out + o, x), out, o + |x|) == Region(m, out, o) + x
  {
    SpliceExtends(m, out + o, x, out);
    assert out + (o + |x|) == out + o + |x|;
  }

  lemma EqLenTake(m: seq<int>, m0: seq<int>, j: Job, a: nat, b: nat, reg: seq<int>, lo: seq<int>, hi: seq<int>)
    requires EqLenInv(m, m0, j, a, b, reg) && a + j.w <= j.lenA
    requires Halves(lo, hi, reg, Region(m0, j.inpA + a, j.w)) && |lo| == j.w
    requires b < j.lenB ==> m0[j.inpA + a] <= m0[j.inpB + b]
    ensures EqLenInv(Spliced(m, j.out + (a + b - j.w), lo), m0, j, a + j.w, b, hi)
  {
    hide Streaming, Spliced, Halves, Frames, Apart;
    var ra, rb := Rest(m0, j.inpA, a, j.lenA), Rest(m0, j.inpB, b, j.lenB);
    StoreFrames(m, m0, j, a + b - j.w, lo);
    assert ra[..j.w] == Region(m0, j.inpA + a, j.w) && ra[j.w..] == Rest(m0, j.inpA, a + j.w, j.lenA);
    StreamTake(Region(m, j.out, a + b - j.w), reg, ra, rb, All(m0, j), j.w, lo, hi);
    assert (a + j.w) + b - j.w == (a + b - j.w) + j.w;
  }

  lemma EqLenStart(m: seq<int>, j: Job, lo: seq<int>, hi: seq<int>)
    requires Separate(j, |m|) && j.w <= j.lenA && j.w <= j.lenB
    requires Sorted(Region(m, j.inpA, j.lenA)) && Sorted(Region(m, j.inpB, j.lenB))
    requires Halves(lo, hi, Region(m, j.inpA, j.w), Region(m, j.inpB, j.w)) && |lo| == j.w
    ensures EqLenInv(Spliced(m, j.out, lo), m, j, j.w, j.w, hi)
  {
    hide Streaming, Spliced, Halves, Sorted, Apart;
    var A, B := Region(m, j.inpA, j.lenA), Region(m, j.inpB, j.lenB);
    StoreFrames(m, m, j, 0, lo);
    assert A[..j.w] == Region(m, j.inpA, j.w) && B[..j.w] == Region(m, j.inpB, j.w);
    assert A[j.w..] == Rest(m, j.inpA, j.w, j.lenA) && B[j.w..] == Rest(m, j.inpB, j.w, j.lenB);
    StreamStart(A, B, j.w, lo, hi);
    assert Region(m, j.out, 0) + lo == lo && j.w + j.w - j.w == 0 + j.w && j.out + 0 == j.out;
  }

  // What the next network needs.
  lemma EqLenNext(m: seq<int>, m0: seq<int>, j: Job, a: nat, b: nat, reg: seq<int>)
    requires EqLenInv(m, m0, j, a, b, reg)
    ensures |m| == |m0| && Separate(j, |m|) && j.w <= a <= j.lenA && j.w <= b <= j.lenB
    ensures |reg| == j.w && Sorted(reg)
    ensures a + j.w <= j.lenA ==>
              Region(m, j.inpA + a, j.w) == Region(m0, j.inpA + a, j.w) && Sorted(Region(m, j.inpA + a, j.w))
    ensures a < j.lenA ==> m[j.inpA + a] == m0[j.inpA + a]
    ensures b < j.lenB ==> m[j.inpB + b] == m0[j.inpB + b]
  {
    hide Fits, Items;
    SameSlice(m, m0, j.inpA, j.lenA, a, j.w);
    SameSlice(m, m0, j.inpB, j.lenB, b, j.w);
  }

  lemma SameSlice(m: seq<int>, m0: seq<int>, p: nat, len: nat, a: nat, w: nat)
    requires p + len <= |m| == |m0| && Region(m, p, len) == Region(m0, p, len) && a <= len && Sorted(Rest(m0, p, a, len))
    ensures a + w <= len ==> Region(m, p + a, w) == Region(m0, p + a, w) && Sorted(Region(m, p + a, w))
    ensures a < len ==> m[p + a] == m0[p + a]
  {
    assert a < len ==> Region(m, p, len)[a] == Region(m0, p, len)[a];
    if a + w <= len {
      Inner(m, p, len, a, w);
      Inner(m0, p, len, a, w);
    }
  }

  lemma Inner(m: seq<int>, p: nat, len: nat, a: nat, w: nat)
    requires p + len <= |m| && a + w <= len
    ensures Region(m, p, len)[a..a + w] == Region(m, p + a, w) && Rest(m, p, a, len)[..w] == Region(m, p + a, w)
  {
    var x, y, z := Region(m, p, len)[a..a + w], Region(m, p + a, w), Rest(m, p, a, len)[..w];
    forall i | 0 <= i < w ensures x[i] == y[i] && z[i] == y[i] {
      assert x[i] == m[p + (a + i)] && y[i] == m[p + a + i] && z[i] == m[p + a + i];
    }
    assert |x| == |y| == |z| == w;
  }

  lemma EqLenEnd(m: seq<int>, m0: seq<int>, j: Job, reg: seq<int>)
    requires EqLenInv(m, m0, j, j.lenA, j.lenB, reg) && |reg| == j.w
    ensures EqLenResult(Spliced(m, j.out + (j.lenA + j.lenB - j.w), reg), m0, j)
  {
    hide Streaming, Spliced, Sorted, Apart, Region;
    var o := j.lenA + j.lenB - j.w;
    StoreFrames(m, m0, j, o, reg);
    StreamEnd(Region(m, j.out, o), reg, Rest(m0, j.inpA, j.lenA, j.lenA), Rest(m0, j.inpB, j.lenB, j.lenB), All(m0, j), j.w);
    assert o + j.w == j.lenA + j.lenB;
  }

  ghost predicate EqLenResult(m: seq<int>, m0: seq<int>, j: Job) {
    && |m| == |m0| && Separate(j, |m|)
    && Sorted(Region(m, j.out, j.lenA + j.lenB))
    && multiset(Region(m, j.out, j.lenA + j.lenB)) == All(m0, j)
    && Region(m, 0, j.out) == Region(m0, 0, j.out)
    && Region(m, j.End(), |m| - j.End()) == Region(m0, j.End(), |m| - j.End())
  }

  // One turn of a loop: the next block of the list at inpA.
  method TakeBlockOf(mem: array<int>, ghost m0: seq<int>, j: Job, a: nat, b: nat, reg: seq<int>, blockFirst: bool)
    returns (hi: seq<int>)
    requires EqLenInv(mem[..], m0, j, a, b, reg) && a + j.w <= j.lenA
    requires b < j.lenB ==> m0[j.inpA + a] <= m0[j.inpB + b]
    modifies mem
    ensures EqLenInv(mem[..], m0, j, a + j.w, b, hi)
  {
    hide EqLenInv, Spliced, Halves, Sorted, Apart;
    ghost var m := mem[..];
    EqLenNext(m, m0, j, a, b, reg);
    assert mem[j.inpA + a..j.inpA + a + j.w] == Region(m, j.inpA + a, j.w);
    ghost var lo;
    hi, lo := MergeBlock(mem, j.w, reg, j.inpA + a, j.out + (a + b - j.w), blockFirst);
    EqLenTake(m, m0, j, a, b, reg, lo, hi);
  }

  lemma SortedStart(m: seq<int>, p: nat, n: nat, w: nat)
    requires p + n <= |m| && w <= n && Sorted(Region(m, p, n))
    ensures Sorted(Region(m, p, w))
  {
    assert Region(m, p, w) == Region(m, p, n)[..w];
  }

  // The first network takes the first block of each list.
  method FirstBlocks(mem: array<int>, j: Job) returns (hi: seq<int>)
    requires Separate(j, mem.Length) && j.w <= j.lenA && j.w <= j.lenB
    requires Sorted(Region(mem[..], j.inpA, j.lenA)) && Sorted(Region(mem[..], j.inpB, j.lenB))
    modifies mem
    ensures EqLenInv(mem[..], old(mem[..]), j, j.w, j.w, hi)
  {
    hide EqLenInv, Spliced, Halves, Sorted;
    ghost var m := mem[..];
    SortedStart(m, j.inpA, j.lenA, j.w);
    SortedStart(m, j.inpB, j.lenB, j.w);
    assert mem[j.inpA..j.inpA + j.w] == Region(m, j.inpA, j.w) && mem[j.inpB..j.inpB + j.w] == Region(m, j.inpB, j.w);
    ghost var lo;
    hi, lo := MergeBlock(mem, j.w, mem[j.inpA..j.inpA + j.w], j.inpB, j.out, false);
    EqLenStart(m, j, lo, hi);
  }

  // The loops that run when one list has been read.
  method RestOfList(mem: array<int>, ghost m0: seq<int>, j: Job, start: nat, reg: seq<int>, blockFirst: bool) returns (hi: seq<int>)
    requires EqLenInv(mem[..], m0, j, start, j.lenB, reg) && Whole(start, j.w) && Whole(j.lenA, j.w)
    modifies mem
    ensures EqLenInv(mem[..], m0, j, j.lenA, j.lenB, hi)
  {
    hide EqLenInv, Whole, Sorted;
    hi := reg;
    var a := start;
    EqLenNext(mem[..], m0, j, a, j.lenB, hi);
    while a < j.lenA
      invariant a <= j.lenA && Whole(a, j.w) && EqLenInv(mem[..], m0, j, a, j.lenB, hi)
    {
      NextBlock(j.w, a, j.lenA);
      hi := TakeBlockOf(mem, m0, j, a, j.lenB, hi, blockFirst);
      a := a + j.w;
    }
  }

  // merge4_eqlen, merge8_eqlen and merge16_eqlen
  method MergeEqLen(mem: array<int>, w: nat, inpA: nat, inpB: nat, out: nat, len: nat)
    requires Separate(Job(w, inpA, len, inpB, len, out), mem.Length) && Whole(len, w) && len > 0
    requires Sorted(Region(mem[..], inpA, len)) && Sorted(Region(mem[..], inpB, len))
    modifies mem
    ensures EqLenResult(mem[..], old(mem[..]), Job(w, inpA, len, inpB, len, out))
  {
    hide EqLenInv, Spliced, Sorted, Apart, Whole, EqLenResult;
    ghost var m0 := mem[..];
    var j := Job(w, inpA, len, inpB, len, out);
    WholeZero(w);
    NextBlock(w, 0, len);
    var hi := FirstBlocks(mem, j);
    var a, b := w, w;
    while a < len && b < len
      invariant w <= a <= len && w <= b <= len && Whole(a, w) && Whole(b, w) && EqLenInv(mem[..], m0, j, a, b, hi)
      decreases 2 * len - a - b
    {
      EqLenNext(mem[..], m0, j, a, b, hi);
      if mem[inpA + a] < mem[inpB + b] {
        NextBlock(w, a, len);
        hi := TakeBlockOf(mem, m0, j, a, b, hi, false);
        a := a + w;
      } else {
        NextBlock(w, b, len);
        EqLenSwap(mem[..], m0, j, a, b, hi);
        hi := TakeBlockOf(mem, m0, j.Swapped(), b, a, hi, false);
        b := b + w;
        EqLenSwap(mem[..], m0, j.Swapped(), b, a, hi);
      }
    }
    if b == len {
      hi := RestOfList(mem, m0, j, a, hi, true);
    } else {
      EqLenSwap(mem[..], m0, j, a, b, hi);
      hi := RestOfList(mem, m0, j.Swapped(), b, hi, false);
      EqLenSwap(mem[..], m0, j.Swapped(), len, len, hi);
    }
    ghost var m := mem[..];
    EqLenNext(m, m0, j, len, len, hi);
    StoreBlock(mem, out + (len + len - w), hi);
    EqLenEnd(m, m0, j, hi);
  }

  // ---- merging lists of any lengths ----

  // List B may lie in the output memory, right behind the room for A's elements.
  predicate Laid(j: Job, n: nat) {
    && j.inpA + j.lenA <= n && j.inpB + j.lenB <= n && j.End() <= n && IsWidth(j.w)
    && Apart(j.inpA, j.lenA, j.inpB, j.lenB) && Apart(j.inpA, j.lenA, j.out, j.lenA + j.lenB)
    && (Apart(j.inpB, j.lenB, j.out, j.lenA + j.lenB) || j.inpB == j.out + j.lenA)
  }

  predicate Inside(i: int, p: nat, n: nat) { p <= i < p + n }

  // Only the lists and the output have changed.
  predicate InUse(i: int, j: Job) {
    Inside(i, j.inpA, j.lenA) || Inside(i, j.inpB, j.lenB) || Inside(i, j.out, j.lenA + j.lenB)
  }

  ghost predicate Outside(m: seq<int>, m0: seq<int>, j: Job) {
    |m| == |m0| && forall i :: 0 <= i < |m| && !InUse(i, j) ==> m[i] == m0[i]
  }

  // a and b elements have been read, and all of them but the register's have been written.
  ghost predicate VarLenInv(m: seq<int>, m0: seq<int>, j: Job, a: nat, b: nat, reg: seq<int>) {
    && Laid(j, |m|) && Outside(m, m0, j) && a <= j.lenA && b <= j.lenB && |reg| <= a + b
    && Streaming(Region(m, j.out, a + b - |reg|), reg, Rest(m, j.inpA, a, j.lenA), Rest(m, j.inpB, b, j.lenB), All(m0, j), |reg|)
  }

  lemma KeepsRest(m: seq<int>, at: nat, x: seq<int>, p: nat, k: nat, n: nat)
    requires at + |x| <= |m| && p + n <= |m| && k <= n && (Apart(at, |x|, p, n) || at + |x| <= p + k)
    ensures Rest(Spliced(m, at, x), p, k, n) == Rest(m, p, k, n)
  {
    SpliceKeeps(m, at, x, p + k, n - k);
    assert p + k + (n - k) == p + n;
  }

  lemma KeepsOutside(m: seq<int>, m0: seq<int>, j: Job, at: nat, x: seq<int>, p: nat, n: nat)
    requires Outside(m, m0, j) && at + |x| <= |m| && p <= at && at + |x| <= p + n
    requires (p == j.inpA && n == j.lenA) || (p == j.inpB && n == j.lenB) || (p == j.out && n == j.lenA + j.lenB)
    ensures Outside(Spliced(m, at, x), m0, j)
  {
  }

  // Storing x in the output keeps what has not been read, even when B lies behind it.
  lemma OutputFrames(m: seq<int>, m0: seq<int>, j: Job, o: nat, x: seq<int>, a: nat, b: nat)
    requires Laid(j, |m|) && Outside(m, m0, j) && a <= j.lenA && b <= j.lenB && o + |x| <= j.lenA + b
    ensures var m' := Spliced(m, j.out + o, x);
            && Outside(m', m0, j) && Region(m', j.out, o + |x|) == Region(m, j.out, o) + x
            && Rest(m', j.inpA, a, j.lenA) == Rest(m, j.inpA, a, j.lenA)
            && Rest(m', j.inpB, b, j.lenB) == Rest(m, j.inpB, b, j.lenB)
  {
    hide Spliced, Region, Rest, Outside;
    OutsideLength(m, m0, j);
    var at := j.out + o;
    ApartWithin(j.inpA, j.lenA, j.out, j.lenA + j.lenB, at, |x|);
    if Apart(j.inpB, j.lenB, j.out, j.lenA + j.lenB) {
      ApartWithin(j.inpB, j.lenB, j.out, j.lenA + j.lenB, at, |x|);
    }
    KeepsOutside(m, m0, j, at, x, j.out, j.lenA + j.lenB);
    KeepsRest(m, at, x, j.inpA, a, j.lenA);
    KeepsRest(m, at, x, j.inpB, b, j.lenB);
    ExtendsRegion(m, j.out, o, x);
  }

  lemma OutsideLength(m: seq<int>, m0: seq<int>, j: Job)
    requires Outside(m, m0, j)
    ensures |m| == |m0|
  {
  }

  lemma RestOf(m: seq<int>, p: nat, k: nat, n: nat, w: nat)
    requires k + w <= n && p + n <= |m|
    ensures Rest(m, p, k, n)[..w] == Region(m, p + k, w) && Rest(m, p, k, n)[w..] == Rest(m, p, k + w, n)
    ensures |Rest(m, p, k, n)| == n - k && (k < n ==> Rest(m, p, k, n)[0] == m[p + k])
  {
  }

  lemma VarLenTakeA(m: seq<int>, m0: seq<int>, j: Job, a: nat, b: nat, reg: seq<int>, lo: seq<int>, hi: seq<int>)
    requires VarLenInv(m, m0, j, a, b, reg) && 0 < |reg| == |lo| == |hi| && a + |reg| <= j.lenA
    requires Halves(lo, hi, reg, Region(m, j.inpA + a, |reg|))
    requires b < j.lenB ==> m[j.inpA + a] <= m[j.inpB + b]
    ensures VarLenInv(Spliced(m, j.out + (a + b - |reg|), lo), m0, j, a + |reg|, b, hi)
  {
    hide Streaming, Spliced, Halves, Outside, Region, Rest, Laid;
    LaidRoom(j, |m|);
    OutsideLength(m, m0, j);
    var w := |reg|;
    RestOf(m, j.inpA, a, j.lenA, w);
    RestOf(m, j.inpB, b, j.lenB, 0);
    OutputFrames(m, m0, j, a + b - w, lo, a + w, b);
    StreamTake(Region(m, j.out, a + b - w), reg, Rest(m, j.inpA, a, j.lenA), Rest(m, j.inpB, b, j.lenB), All(m0, j), w, lo, hi);
    assert (a + w) + b - w == (a + b - w) + w;
  }

  lemma VarLenTakeB(m: seq<int>, m0: seq<int>, j: Job, a: nat, b: nat, reg: seq<int>, lo: seq<int>, hi: seq<int>)
    requires VarLenInv(m, m0, j, a, b, reg) && 0 < |reg| == |lo| == |hi| && b + |reg| <= j.lenB
    requires Halves(lo, hi, reg, Region(m, j.inpB + b, |reg|))
    requires a < j.lenA ==> m[j.inpB + b] <= m[j.inpA + a]
    ensures VarLenInv(Spliced(m, j.out + (a + b - |reg|), lo), m0, j, a, b + |reg|, hi)
  {
    hide Streaming, Spliced, Halves, Outside, Region, Rest, Laid;
    LaidRoom(j, |m|);
    OutsideLength(m, m0, j);
    var w := |reg|;
    RestOf(m, j.inpB, b, j.lenB, w);
    RestOf(m, j.inpA, a, j.lenA, 0);
    OutputFrames(m, m0, j, a + b - w, lo, a, b + w);
    StreamSwap(Region(m, j.out, a + b - w), reg, Rest(m, j.inpA, a, j.lenA), Rest(m, j.inpB, b, j.lenB), All(m0, j), w);
    StreamTake(Region(m, j.out, a + b - w), reg, Rest(m, j.inpB, b, j.lenB), Rest(m, j.inpA, a, j.lenA), All(m0, j), w, lo, hi);
    StreamSwap(Region(m, j.out, a + b - w) + lo, hi, Rest(m, j.inpB, b + w, j.lenB), Rest(m, j.inpA, a, j.lenA), All(m0, j), w);
    assert a + (b + w) - w == (a + b - w) + w;
  }

  lemma LaidRoom(j: Job, n: nat)
    requires Laid(j, n)
    ensures j.inpA + j.lenA <= n && j.inpB + j.lenB <= n && j.out + j.lenA + j.lenB <= n && IsWidth(j.w)
  {
  }

  // Writing the register back over the last block read from A; nothing else that counts is there.
  lemma VarLenFlushA(m: seq<int>, m0: seq<int>, j: Job, a: nat, b: nat, reg: seq<int>)
    requires VarLenInv(m, m0, j, a, b, reg) && |reg| <= a && UpTo(reg, Rest(m, j.inpA, a, j.lenA))
    ensures VarLenInv(Spliced(m, j.inpA + (a - |reg|), reg), m0, j, a - |reg|, b, [])
  {
    hide Streaming, Spliced, Outside, Region, Rest;
    OutsideLength(m, m0, j);
    var w, at := |reg|, j.inpA + (a - |reg|);
    FlushedRest(m, j.inpA, a, j.lenA, reg);
    KeepsRest(m, at, reg, j.inpB, b, j.lenB);
    KeepsRegion(m, at, reg, j.out, a + b - w);
    KeepsOutside(m, m0, j, at, reg, j.inpA, j.lenA);
    StreamFlush(Region(m, j.out, a + b - w), reg, Rest(m, j.inpA, a, j.lenA), Rest(m, j.inpB, b, j.lenB), All(m0, j), w);
    assert (a - w) + b - 0 == a + b - w;
  }

  lemma VarLenFlushB(m: seq<int>, m0: seq<int>, j: Job, a: nat, b: nat, reg: seq<int>)
    requires VarLenInv(m, m0, j, a, b, reg) && |reg| <= b && UpTo(reg, Rest(m, j.inpB, b, j.lenB))
    ensures VarLenInv(Spliced(m, j.inpB + (b - |reg|), reg), m0, j, a, b - |reg|, [])
  {
    hide Streaming, Spliced, Outside, Region, Rest;
    OutsideLength(m, m0, j);
    var w, at := |reg|, j.inpB + (b - |reg|);
    FlushedRest(m, j.inpB, b, j.lenB, reg);
    KeepsRest(m, at, reg, j.inpA, a, j.lenA);
    KeepsRegion(m, at, reg, j.out, a + b - w);
    KeepsOutside(m, m0, j, at, reg, j.inpB, j.lenB);
    var out, ra, rb := Region(m, j.out, a + b - w), Rest(m, j.inpA, a, j.lenA), Rest(m, j.inpB, b, j.lenB);
    StreamSwap(out, reg, ra, rb, All(m0, j), w);
    StreamFlush(out, reg, rb, ra, All(m0, j), w);
    StreamSwap(out, [], reg + rb, ra, All(m0, j), 0);
    assert a + (b - w) - 0 == a + b - w;
  }

  lemma FlushedRest(m: seq<int>, p: nat, k: nat, n: nat, x: seq<int>)
    requires |x| <= k <= n && p + n <= |m|
    ensures Rest(Spliced(m, p + (k - |x|), x), p, k - |x|, n) == x + Rest(m, p, k, n)
  {
  }

  // The serial steps.
  lemma VarLenHeadA(m: seq<int>, m0: seq<int>, j: Job, a: nat, b: nat)
    requires VarLenInv(m, m0, j, a, b, []) && a < j.lenA && (b < j.lenB ==> m[j.inpA + a] <= m[j.inpB + b])
    ensures VarLenInv(Spliced(m, j.out + (a + b), [m[j.inpA + a]]), m0, j, a + 1, b, [])
  {
    hide Streaming, Spliced, Outside, Region, Rest, Laid;
    LaidRoom(j, |m|);
    OutsideLength(m, m0, j);
    RestOf(m, j.inpA, a, j.lenA, 1);
    RestOf(m, j.inpB, b, j.lenB, 0);
    var out, ra, rb := Region(m, j.out, a + b), Rest(m, j.inpA, a, j.lenA), Rest(m, j.inpB, b, j.lenB);
    assert ra[..1] == [m[j.inpA + a]];
    OutputFrames(m, m0, j, a + b, [m[j.inpA + a]], a + 1, b);
    StreamHead(out, ra, rb, All(m0, j));
    assert (a + 1) + b - 0 == a + b + 1 && a + b - 0 == a + b;
  }

  lemma VarLenHeadB(m: seq<int>, m0: seq<int>, j: Job, a: nat, b: nat)
    requires VarLenInv(m, m0, j, a, b, []) && b < j.lenB && (a < j.lenA ==> m[j.inpB + b] <= m[j.inpA + a])
    ensures VarLenInv(Spliced(m, j.out + (a + b), [m[j.inpB + b]]), m0, j, a, b + 1, [])
  {
    hide Streaming, Spliced, Outside, Region, Rest, Laid;
    LaidRoom(j, |m|);
    OutsideLength(m, m0, j);
    RestOf(m, j.inpB, b, j.lenB, 1);
    RestOf(m, j.inpA, a, j.lenA, 0);
    var out, ra, rb := Region(m, j.out, a + b), Rest(m, j.inpA, a, j.lenA), Rest(m, j.inpB, b, j.lenB);
    assert rb[..1] == [m[j.inpB + b]];
    OutputFrames(m, m0, j, a + b, [m[j.inpB + b]], a, b + 1);
    StreamSwap(out, [], ra, rb, All(m0, j), 0);
    StreamHead(out, rb, ra, All(m0, j));
    StreamSwap(out + rb[..1], [], rb[1..], ra, All(m0, j), 0);
    assert a + (b + 1) - 0 == a + b + 1 && a + b - 0 == a + b;
  }

  // Copying k elements of the only list left.
  lemma VarLenCopyA(m: seq<int>, m0: seq<int>, j: Job, a: nat, k: nat)
    requires VarLenInv(m, m0, j, a, j.lenB, []) && a + k <= j.lenA
    ensures j.out + (a + j.lenB) + k <= |m| && j.inpA + a + k <= |m|
    ensures VarLenInv(Spliced(m, j.out + (a + j.lenB), Region(m, j.inpA + a, k)), m0, j, a + k, j.lenB, [])
  {
    hide Streaming, Spliced, Outside, Rest, Laid;
    LaidRoom(j, |m|);
    OutsideLength(m, m0, j);
    RestOf(m, j.inpA, a, j.lenA, k);
    RestOf(m, j.inpB, j.lenB, j.lenB, 0);
    OutputFrames(m, m0, j, a + j.lenB, Region(m, j.inpA + a, k), a + k, j.lenB);
    assert Rest(m, j.inpB, j.lenB, j.lenB) == [];
    StreamCopy(Region(m, j.out, a + j.lenB), Rest(m, j.inpA, a, j.lenA), All(m0, j), k);
    assert (a + k) + j.lenB - 0 == a + j.lenB + k && a + j.lenB - 0 == a + j.lenB;
  }

  lemma VarLenCopyB(m: seq<int>, m0: seq<int>, j: Job, b: nat, k: nat)
    requires VarLenInv(m, m0, j, j.lenA, b, []) && b + k <= j.lenB
    ensures j.out + (j.lenA + b) + k <= |m| && j.inpB + b + k <= |m|
    ensures VarLenInv(Spliced(m, j.out + (j.lenA + b), Region(m, j.inpB + b, k)), m0, j, j.lenA, b + k, [])
  {
    hide Streaming, Spliced, Outside, Rest, Laid;
    LaidRoom(j, |m|);
    OutsideLength(m, m0, j);
    RestOf(m, j.inpB, b, j.lenB, k);
    RestOf(m, j.inpA, j.lenA, j.lenA, 0);
    OutputFrames(m, m0, j, j.lenA + b, Region(m, j.inpB + b, k), j.lenA, b + k);
    assert Rest(m, j.inpA, j.lenA, j.lenA) == [];
    var out, rb, all := Region(m, j.out, j.lenA + b), Rest(m, j.inpB, b, j.lenB), All(m0, j);
    StreamSwap(out, [], [], rb, all, 0);
    StreamCopy(out, rb, all, k);
    StreamSwap(out + rb[..k], [], rb[k..], [], all, 0);
    assert j.lenA + (b + k) - 0 == j.lenA + b + k && j.lenA + b - 0 == j.lenA + b;
  }

  // What the next step may read.
  lemma VarLenNext(m: seq<int>, m0: seq<int>, j: Job, a: nat, b: nat, reg: seq<int>)
    requires VarLenInv(m, m0, j, a, b, reg)
    ensures j.inpA + j.lenA <= |m| && j.inpB + j.lenB <= |m| && j.out + j.lenA + j.lenB <= |m| && IsWidth(j.w)
    ensures a <= j.lenA && b <= j.lenB && |reg| <= a + b && Sorted(reg)
    ensures a + j.w <= j.lenA ==> Sorted(Region(m, j.inpA + a, j.w))
    ensures b + j.w <= j.lenB ==> Sorted(Region(m, j.inpB + b, j.w))
  {
    hide Fits, Items, Outside;
    if a + j.w <= j.lenA { RestOf(m, j.inpA, a, j.lenA, j.w); }
    if b + j.w <= j.lenB { RestOf(m, j.inpB, b, j.lenB, j.w); }
  }

  // Every cell holds what it held or one of the items: the lists and the output have no other values, even where
  // a list has been overwritten or the output not yet written.
  ghost predicate NoNews(m: seq<int>, m0: seq<int>, items: multiset<int>) {
    |m| == |m0| && forall i :: 0 <= i < |m| ==> m[i] == m0[i] || m[i] in items
  }

  ghost predicate OldNews(m: seq<int>, m0: seq<int>, j: Job) {
    j.inpA + j.lenA <= |m0| && j.inpB + j.lenB <= |m0| && NoNews(m, m0, All(m0, j))
  }

  lemma NoNewsYet(m: seq<int>, j: Job)
    requires j.inpA + j.lenA <= |m| && j.inpB + j.lenB <= |m|
    ensures OldNews(m, m, j)
  {
  }

  lemma NewsSpliced(m: seq<int>, m0: seq<int>, items: multiset<int>, at: nat, x: seq<int>)
    requires NoNews(m, m0, items) && at + |x| <= |m| && forall i :: 0 <= i < |x| ==> x[i] in items
    ensures NoNews(Spliced(m, at, x), m0, items)
  {
    var m' := Spliced(m, at, x);
    forall i | 0 <= i < |m'| ensures m'[i] == m0[i] || m'[i] in items {
      assert at <= i < at + |x| ==> m'[i] == x[i - at];
      assert !(at <= i < at + |x|) ==> m'[i] == m[i];
    }
  }

  lemma AmongItems(out: seq<int>, reg: seq<int>, a: seq<int>, b: seq<int>)
    ensures forall i :: 0 <= i < |reg| ==> reg[i] in Items(out, reg, a, b)
    ensures forall i :: 0 <= i < |out| ==> out[i] in Items(out, reg, a, b)
  {
    forall i | 0 <= i < |reg| ensures reg[i] in Items(out, reg, a, b) { assert reg[i] in multiset(reg); }
    forall i | 0 <= i < |out| ensures out[i] in Items(out, reg, a, b) { assert out[i] in multiset(out); }
  }

  // What is stored in the output is among the items.
  lemma NewsStored(m: seq<int>, m0: seq<int>, j: Job, at: nat, x: seq<int>, a: nat, b: nat, reg: seq<int>)
    requires OldNews(m, m0, j) && at + |x| <= |m| && VarLenInv(Spliced(m, at, x), m0, j, a, b, reg)
    requires j.out <= at && at + |x| <= j.out + (a + b - |reg|)
    ensures OldNews(Spliced(m, at, x), m0, j)
  {
    hide Fits, Outside, Items, Merged, NoNews, Rest;
    var m', k := Spliced(m, at, x), a + b - |reg|;
    AmongItems(Region(m', j.out, k), reg, Rest(m', j.inpA, a, j.lenA), Rest(m', j.inpB, b, j.lenB));
    forall i | 0 <= i < |x| ensures x[i] in All(m0, j) {
      assert Region(m', j.out, k)[at + i - j.out] == m'[at + i] == x[i];
    }
    NewsSpliced(m, m0, All(m0, j), at, x);
  }

  // What is flushed is the register.
  lemma NewsFlushed(m: seq<int>, m0: seq<int>, j: Job, at: nat, a: nat, b: nat, reg: seq<int>)
    requires OldNews(m, m0, j) && at + |reg| <= |m| && VarLenInv(m, m0, j, a, b, reg)
    ensures OldNews(Spliced(m, at, reg), m0, j)
  {
    hide Fits, Outside, Items, Merged, NoNews, Rest, Spliced, Region;
    AmongItems(Region(m, j.out, a + b - |reg|), reg, Rest(m, j.inpA, a, j.lenA), Rest(m, j.inpB, b, j.lenB));
    NewsSpliced(m, m0, All(m0, j), at, reg);
  }

  ghost predicate VarLenResult(m: seq<int>, m0: seq<int>, j: Job) {
    && Laid(j, |m|) && Outside(m, m0, j) && OldNews(m, m0, j)
    && Sorted(Region(m, j.out, j.lenA + j.lenB)) && multiset(Region(m, j.out, j.lenA + j.lenB)) == All(m0, j)
  }

  lemma VarLenBegin(m: seq<int>, j: Job)
    requires Laid(j, |m|) && Sorted(Region(m, j.inpA, j.lenA)) && Sorted(Region(m, j.inpB, j.lenB))
    ensures VarLenInv(m, m, j, 0, 0, [])
  {
    hide Streaming, Sorted;
    StreamBegin(Region(m, j.inpA, j.lenA), Region(m, j.inpB, j.lenB));
    assert Region(m, j.out, 0) == [];
    assert Rest(m, j.inpA, 0, j.lenA) == Region(m, j.inpA, j.lenA) && Rest(m, j.inpB, 0, j.lenB) == Region(m, j.inpB, j.lenB);
  }

  lemma VarLenEnd(m: seq<int>, m0: seq<int>, j: Job)
    requires VarLenInv(m, m0, j, j.lenA, j.lenB, []) && OldNews(m, m0, j)
    ensures VarLenResult(m, m0, j)
  {
    hide Streaming, Sorted, Outside, NoNews;
    OutsideLength(m, m0, j);
    var out := Region(m, j.out, j.lenA + j.lenB);
    StreamEnd(out, [], Rest(m, j.inpA, j.lenA, j.lenA), Rest(m, j.inpB, j.lenB, j.lenB), All(m0, j), 0);
    assert out + [] == out;
  }

  // The first network of the vector loop: the register starts as the first block of A.
  lemma VarLenStart(m: seq<int>, j: Job, lo: seq<int>, hi: seq<int>)
    requires Laid(j, |m|) && Sorted(Region(m, j.inpA, j.lenA)) && Sorted(Region(m, j.inpB, j.lenB))
    requires j.w <= j.lenA && j.w <= j.lenB && |lo| == |hi| == j.w
    requires Halves(lo, hi, Region(m, j.inpA, j.w), Region(m, j.inpB, j.w))
    ensures VarLenInv(Spliced(m, j.out, lo), m, j, j.w, j.w, hi)
  {
    hide Streaming, Spliced, Halves, Sorted, Region, Rest;
    var A, B, w := Region(m, j.inpA, j.lenA), Region(m, j.inpB, j.lenB), j.w;
    WholeRest(m, j.inpA, j.lenA, w);
    WholeRest(m, j.inpB, j.lenB, w);
    WholeRest(m, j.out, 0, 0);
    OutputFrames(m, m, j, 0, lo, w, w);
    StreamStart(A, B, w, lo, hi);
    assert [] + lo == lo && w + w - w == 0 + w && j.out + 0 == j.out;
  }

  lemma WholeRest(m: seq<int>, p: nat, n: nat, w: nat)
    requires p + n <= |m| && w <= n
    ensures Region(m, p, n)[..w] == Region(m, p, w) && Region(m, p, n)[w..] == Rest(m, p, w, n)
    ensures |Region(m, p, n)| == n && Region(m, p, 0) == []
  {
  }

  method FirstBlocksVarLen(mem: array<int>, j: Job) returns (hi: seq<int>)
    requires Laid(j, mem.Length) && j.w <= j.lenA && j.w <= j.lenB
    requires Sorted(Region(mem[..], j.inpA, j.lenA)) && Sorted(Region(mem[..], j.inpB, j.lenB))
    modifies mem
    ensures VarLenInv(mem[..], old(mem[..]), j, j.w, j.w, hi) && |hi| == j.w && OldNews(mem[..], old(mem[..]), j)
  {
    hide VarLenInv, Spliced, Halves, Sorted, Laid;
    ghost var m := mem[..];
    LaidRoom(j, |m|);
    SortedStart(m, j.inpA, j.lenA, j.w);
    SortedStart(m, j.inpB, j.lenB, j.w);
    assert mem[j.inpA..j.inpA + j.w] == Region(m, j.inpA, j.w) && mem[j.inpB..j.inpB + j.w] == Region(m, j.inpB, j.w);
    ghost var lo;
    hi, lo := MergeBlock(mem, j.w, mem[j.inpA..j.inpA + j.w], j.inpB, j.out, false);
    HalvesLength(lo, hi, Region(m, j.inpA, j.w), Region(m, j.inpB, j.w));
    VarLenStart(m, j, lo, hi);
    NewsStored(m, m, j, j.out, lo, j.w, j.w, hi);
  }

  // One turn of the vector loop.
  method VectorTurnA(mem: array<int>, ghost m0: seq<int>, j: Job, a: nat, b: nat, reg: seq<int>) returns (hi: seq<int>)
    requires VarLenInv(mem[..], m0, j, a, b, reg) && OldNews(mem[..], m0, j) && |reg| == j.w && a + j.w <= j.lenA
    requires j.inpA + j.lenA <= mem.Length && j.inpB + j.lenB <= mem.Length
    requires b < j.lenB ==> mem[j.inpA + a] <= mem[j.inpB + b]
    modifies mem
    ensures VarLenInv(mem[..], m0, j, a + j.w, b, hi) && |hi| == j.w && OldNews(mem[..], m0, j)
  {
    hide VarLenInv, Spliced, Halves, Sorted, OldNews;
    ghost var m := mem[..];
    ghost var lo;
    VarLenNext(m, m0, j, a, b, reg);
    assert mem[j.inpA + a..j.inpA + a + j.w] == Region(m, j.inpA + a, j.w);
    hi, lo := MergeBlock(mem, j.w, reg, j.inpA + a, j.out + (a + b - j.w), false);
    HalvesLength(lo, hi, reg, Region(m, j.inpA + a, j.w));
    VarLenTakeA(m, m0, j, a, b, reg, lo, hi);
    NewsStored(m, m0, j, j.out + (a + b - j.w), lo, a + j.w, b, hi);
  }

  method VectorTurnB(mem: array<int>, ghost m0: seq<int>, j: Job, a: nat, b: nat, reg: seq<int>) returns (hi: seq<int>)
    requires VarLenInv(mem[..], m0, j, a, b, reg) && OldNews(mem[..], m0, j) && |reg| == j.w && b + j.w <= j.lenB
    requires j.inpA + j.lenA <= mem.Length && j.inpB + j.lenB <= mem.Length
    requires a < j.lenA ==> mem[j.inpB + b] <= mem[j.inpA + a]
    modifies mem
    ensures VarLenInv(mem[..], m0, j, a, b + j.w, hi) && |hi| == j.w && OldNews(mem[..], m0, j)
  {
    hide VarLenInv, Spliced, Halves, Sorted, OldNews;
    ghost var m := mem[..];
    ghost var lo;
    VarLenNext(m, m0, j, a, b, reg);
    assert mem[j.inpB + b..j.inpB + b + j.w] == Region(m, j.inpB + b, j.w);
    hi, lo := MergeBlock(mem, j.w, reg, j.inpB + b, j.out + (a + b - j.w), false);
    HalvesLength(lo, hi, reg, Region(m, j.inpB + b, j.w));
    VarLenTakeB(m, m0, j, a, b, reg, lo, hi);
    NewsStored(m, m0, j, j.out + (a + b - j.w), lo, a, b + j.w, hi);
  }

  // The vector loop and the flush of its register.
  method VectorLoop(mem: array<int>, j: Job) returns (ai: nat, bi: nat)
    requires Laid(j, mem.Length) && 2 * j.w <= j.lenA && 2 * j.w <= j.lenB
    requires Sorted(Region(mem[..], j.inpA, j.lenA)) && Sorted(Region(mem[..], j.inpB, j.lenB))
    modifies mem
    ensures VarLenInv(mem[..], old(mem[..]), j, ai, bi, []) && OldNews(mem[..], old(mem[..]), j)
  {
    hide VarLenInv, Spliced, Halves, Sorted, Laid, UpTo, Rest, OldNews;
    ghost var m0 := mem[..];
    LaidRoom(j, mem.Length);
    var w := j.w;
    var hi := FirstBlocksVarLen(mem, j);
    var a, b := w, w;
    while a < j.lenA - w && b < j.lenB - w
      invariant w <= a < j.lenA && w <= b < j.lenB && |hi| == w && VarLenInv(mem[..], m0, j, a, b, hi)
      invariant OldNews(mem[..], m0, j)
      decreases j.lenA + j.lenB - a - b
    {
      VarLenNext(mem[..], m0, j, a, b, hi);
      if mem[j.inpA + a] < mem[j.inpB + b] {
        hi := VectorTurnA(mem, m0, j, a, b, hi);
        a := a + w;
      } else {
        hi := VectorTurnB(mem, m0, j, a, b, hi);
        b := b + w;
      }
    }
    ghost var m := mem[..];
    VarLenNext(m, m0, j, a, b, hi);
    VarLenFits(m, m0, j, a, b, hi);
    if mem[j.inpA + a] >= hi[w - 1] {
      StoreBlock(mem, j.inpA + (a - w), hi);
      VarLenFlushA(m, m0, j, a, b, hi);
      NewsFlushed(m, m0, j, j.inpA + (a - w), a, b, hi);
      ai, bi := a - w, b;
    } else {
      StoreBlock(mem, j.inpB + (b - w), hi);
      VarLenFlushB(m, m0, j, a, b, hi);
      NewsFlushed(m, m0, j, j.inpB + (b - w), a, b, hi);
      ai, bi := a, b - w;
    }
  }

  lemma VarLenFits(m: seq<int>, m0: seq<int>, j: Job, a: nat, b: nat, reg: seq<int>)
    requires VarLenInv(m, m0, j, a, b, reg) && 0 < |reg| && a < j.lenA && b < j.lenB
    ensures j.inpA + j.lenA <= |m| && j.inpB + j.lenB <= |m|
    ensures UpTo(reg, if m[j.inpA + a] >= reg[|reg| - 1] then Rest(m, j.inpA, a, j.lenA) else Rest(m, j.inpB, b, j.lenB))
  {
    hide Outside, Fits, UpTo, Items;
    RestOf(m, j.inpA, a, j.lenA, 0);
    RestOf(m, j.inpB, b, j.lenB, 0);
    FitsSome(reg, Rest(m, j.inpA, a, j.lenA), Rest(m, j.inpB, b, j.lenB), reg[|reg| - 1]);
  }

  // The rest of A: blocks of eight, then one by one.
  method CopyRestA(mem: array<int>, ghost m0: seq<int>, j: Job, start: nat)
    requires VarLenInv(mem[..], m0, j, start, j.lenB, []) && OldNews(mem[..], m0, j)
    modifies mem
    ensures VarLenInv(mem[..], m0, j, j.lenA, j.lenB, []) && OldNews(mem[..], m0, j)
  {
    hide VarLenInv, Spliced, OldNews;
    var ai := start;
    VarLenNext(mem[..], m0, j, ai, j.lenB, []);
    var end := ai + (j.lenA - ai) / 8 * 8;
    while ai < end
      invariant ai <= end <= j.lenA && (end - ai) % 8 == 0 && VarLenInv(mem[..], m0, j, ai, j.lenB, []) && OldNews(mem[..], m0, j)
    {
      VarLenCopyA(mem[..], m0, j, ai, 8);
      NewsStored(mem[..], m0, j, j.out + (ai + j.lenB), mem[..][j.inpA + ai..j.inpA + ai + 8], ai + 8, j.lenB, []);
      StoreBlock(mem, j.out + (ai + j.lenB), mem[..][j.inpA + ai..j.inpA + ai + 8]);
      ai := ai + 8;
    }
    while ai < j.lenA
      invariant ai <= j.lenA && VarLenInv(mem[..], m0, j, ai, j.lenB, []) && OldNews(mem[..], m0, j)
    {
      VarLenCopyA(mem[..], m0, j, ai, 1);
      NewsStored(mem[..], m0, j, j.out + (ai + j.lenB), mem[..][j.inpA + ai..j.inpA + ai + 1], ai + 1, j.lenB, []);
      StoreBlock(mem, j.out + (ai + j.lenB), mem[..][j.inpA + ai..j.inpA + ai + 1]);
      ai := ai + 1;
    }
  }

  method CopyRestB(mem: array<int>, ghost m0: seq<int>, j: Job, start: nat)
    requires VarLenInv(mem[..], m0, j, j.lenA, start, []) && OldNews(mem[..], m0, j)
    modifies mem
    ensures VarLenInv(mem[..], m0, j, j.lenA, j.lenB, []) && OldNews(mem[..], m0, j)
  {
    hide VarLenInv, Spliced, OldNews;
    var bi := start;
    VarLenNext(mem[..], m0, j, j.lenA, bi, []);
    var end := bi + (j.lenB - bi) / 8 * 8;
    while bi < end
      invariant bi <= end <= j.lenB && (end - bi) % 8 == 0 && VarLenInv(mem[..], m0, j, j.lenA, bi, []) && OldNews(mem[..], m0, j)
    {
      VarLenCopyB(mem[..], m0, j, bi, 8);
      NewsStored(mem[..], m0, j, j.out + (j.lenA + bi), mem[..][j.inpB + bi..j.inpB + bi + 8], j.lenA, bi + 8, []);
      StoreBlock(mem, j.out + (j.lenA + bi), mem[..][j.inpB + bi..j.inpB + bi + 8]);
      bi := bi + 8;
    }
    while bi < j.lenB
      invariant bi <= j.lenB && VarLenInv(mem[..], m0, j, j.lenA, bi, []) && OldNews(mem[..], m0, j)
    {
      VarLenCopyB(mem[..], m0, j, bi, 1);
      NewsStored(mem[..], m0, j, j.out + (j.lenA + bi), mem[..][j.inpB + bi..j.inpB + bi + 1], j.lenA, bi + 1, []);
      StoreBlock(mem, j.out + (j.lenA + bi), mem[..][j.inpB + bi..j.inpB + bi + 1]);
      bi := bi + 1;
    }
  }

  // merge4_varlen, merge8_varlen and merge16_varlen
  method MergeVarLen(mem: array<int>, w: nat, inpA: nat, inpB: nat, out: nat, lenA: nat, lenB: nat)
    requires Laid(Job(w, inpA, lenA, inpB, lenB, out), mem.Length)
    requires Sorted(Region(mem[..], inpA, lenA)) && Sorted(Region(mem[..], inpB, lenB))
    modifies mem
    ensures VarLenResult(mem[..], old(mem[..]), Job(w, inpA, lenA, inpB, lenB, out))
  {
    hide VarLenInv, VarLenResult, Spliced, Sorted, Laid, OldNews;
    var j := Job(w, inpA, lenA, inpB, lenB, out);
    LaidRoom(j, mem.Length);
    ghost var m0 := mem[..];
    var ai: nat, bi: nat := 0, 0;
    VarLenBegin(m0, j);
    NoNewsYet(m0, j);
    if lenA - lenA % w > w && lenB - lenB % w > w {
      TwoBlocks(w, lenA);
      TwoBlocks(w, lenB);
      ai, bi := VectorLoop(mem, j);
    }
    VarLenNext(mem[..], m0, j, ai, bi, []);
    while ai < lenA && bi < lenB
      invariant ai <= lenA && bi <= lenB && VarLenInv(mem[..], m0, j, ai, bi, []) && OldNews(mem[..], m0, j)
      decreases lenA + lenB - ai - bi
    {
      if mem[inpA + ai] < mem[inpB + bi] {
        VarLenHeadA(mem[..], m0, j, ai, bi);
        NewsStored(mem[..], m0, j, out + (ai + bi), [mem[inpA + ai]], ai + 1, bi, []);
        StoreBlock(mem, out + (ai + bi), [mem[inpA + ai]]);
        ai := ai + 1;
      } else {
        VarLenHeadB(mem[..], m0, j, ai, bi);
        NewsStored(mem[..], m0, j, out + (ai + bi), [mem[inpB + bi]], ai, bi + 1, []);
        StoreBlock(mem, out + (ai + bi), [mem[inpB + bi]]);
        bi := bi + 1;
      }
    }
    if ai < lenA {
      CopyRestA(mem, m0, j, ai);
    } else if bi < lenB {
      CopyRestB(mem, m0, j, bi);
    }
    VarLenEnd(mem[..], m0, j);
  }

  lemma TwoBlocks(w: nat, len: nat)
    requires IsWidth(w) && len - len % w > w
    ensures 2 * w <= len
  {
    if w == 4 {} else if w == 8 {} else {}
  }
}

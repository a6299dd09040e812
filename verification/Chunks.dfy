// The chunks of the sort's driver, as its arrays record them (hashing/helper/avxsort.cpp:58-118): where the chunks
// of a pass lie, what the 32-bit sizes say, and what a pass does to both for any number of items.
module Chunks {
  import opened Bitonic
  import opened Sequences
  import opened Merge
  import opened BlockSort

  const LOG2_BLOCKSIZE: nat := 14
  const BLOCKSIZE: nat := 16384
  const UINT32: nat := 0x1_0000_0000

  // ptrs[i][0], ptrs[i][1] and sizes[i]
  datatype Chunk = Chunk(cur: nat, tmp: nat, size: nat)

  // The chunk as the arrays record it.
  function Recorded(c: Chunk): Chunk { c.(size := c.size % UINT32) }

  // The merge of two neighbours, with the sizes recorded for them.
  function RecordedJob(a: Chunk, b: Chunk): Job { Job(16, a.cur, a.size % UINT32, b.cur, b.size % UINT32, a.tmp) }

  function Both(a: Chunk, b: Chunk): Chunk { Chunk(a.tmp, a.cur, a.size + b.size) }

  // The two buffers.
  datatype Buffers = Buffers(input: nat, output: nat, items: nat)

  predicate Fit(f: Buffers, n: nat) { f.input + f.items <= n && f.output + f.items <= n && Apart(f.input, f.items, f.output, f.items) }

  // The size of chunk c when the items are cut into pieces of b.
  function SizeAt(items: nat, b: nat, c: nat): nat {
    if (c + 1) * b <= items then b else if c * b <= items then items - c * b else 0
  }

  // n pieces of b hold the items, and n - 1 do not.
  predicate Pieces(items: nat, b: nat, n: nat) { n > 0 && (n - 1) * b < items <= n * b }

  // A chunk in one of the buffers, at its own offset; as far as its recorded size says it is sorted.
  ghost predicate SpotOk(m: seq<int>, c: Chunk, x: nat, y: nat) {
    && x + c.size <= |m| && y + c.size <= |m| && ((c.cur == x && c.tmp == y) || (c.cur == y && c.tmp == x))
    && Sorted(Region(m, c.cur, c.size % UINT32))
  }

  ghost predicate ChunkOk(m: seq<int>, c: Chunk, i: nat, b: nat, f: Buffers) {
    && c.size == SizeAt(f.items, b, i) && i * b + c.size <= f.items
    && SpotOk(m, c, f.input + i * b, f.output + i * b)
  }

  ghost predicate Spots(m: seq<int>, cs: seq<Chunk>, lo: nat, hi: nat, b: nat, f: Buffers) {
    hi <= |cs| && forall i {:trigger cs[i]} :: lo <= i < hi ==> ChunkOk(m, cs[i], i, b, f)
  }

  // ---- the word and the lengths of a pass ----

  // Lengths below 2^32 divide it twice over, the others are multiples of it.
  ghost predicate Aligned(b: nat) { exists q: nat :: q > 0 && (UINT32 == q * (2 * b) || b == q * UINT32) }

  lemma AlignedWord(b: nat)
    requires Aligned(b)
    ensures b > 0 && (2 * b <= UINT32 || b % UINT32 == 0)
    ensures 2 * b > UINT32 ==> b >= UINT32
  {
    var q: nat :| q > 0 && (UINT32 == q * (2 * b) || b == q * UINT32);
    if UINT32 == q * (2 * b) { Product(1, q, 2 * b); } else { Product(1, q, UINT32); }
  }

  lemma Product(a: nat, b: nat, n: nat)
    requires a <= b
    ensures a * n <= b * n
  {
  }

  lemma Next(a: nat, b: nat)
    ensures (a + 1) * b == a * b + b && (2 * a) * b == a * (2 * b)
  {
  }

  lemma Sum(k: nat, x: nat, y: nat)
    requires x <= k && y <= k && (2 * k <= UINT32 || (k % UINT32 == 0 && x == k))
    ensures (x + y) % UINT32 <= x % UINT32 + y % UINT32
    ensures x % UINT32 <= x && y % UINT32 <= y
  {
  }

  // ---- one merge ----

  // What the merge of two neighbours at offset 0 of x and y needs, and where it works.
  lemma PairLaid(m: seq<int>, a: Chunk, c: Chunk, x: nat, y: nat, b: nat)
    requires SpotOk(m, a, x, y) && SpotOk(m, c, x + b, y + b) && a.size == b && c.size <= b
    requires Apart(x, b + c.size, y, b + c.size) && (2 * b <= UINT32 || b % UINT32 == 0) && (2 * b > UINT32 ==> b >= UINT32)
    ensures Laid(RecordedJob(a, c), |m|)
    ensures Sorted(Region(m, a.cur, a.size % UINT32)) && Sorted(Region(m, c.cur, c.size % UINT32))
    ensures forall i :: InUse(i, RecordedJob(a, c)) ==> Inside(i, x, b + c.size) || Inside(i, y, b + c.size)
  {
    hide Sorted, Region;
    Sum(b, a.size, c.size);
  }

  lemma PairMerged(m': seq<int>, m: seq<int>, a: Chunk, c: Chunk, x: nat, y: nat, b: nat)
    requires SpotOk(m, a, x, y) && SpotOk(m, c, x + b, y + b) && a.size == b && c.size <= b
    requires 2 * b <= UINT32 || b % UINT32 == 0
    requires VarLenResult(m', m, RecordedJob(a, c))
    ensures SpotOk(m', Both(a, c), x, y)
  {
    hide Laid, OldNews;
    Sum(b, a.size, c.size);
    var n, k := a.size % UINT32 + c.size % UINT32, (a.size + c.size) % UINT32;
    var out := Region(m', a.tmp, n);
    assert Region(m', a.tmp, k) == out[..k];
  }

  // A chunk elsewhere.
  lemma SpotKept(m': seq<int>, m: seq<int>, j: Job, c: Chunk, x: nat, y: nat)
    requires SpotOk(m, c, x, y) && Outside(m', m, j)
    requires forall i :: Inside(i, x, c.size) || Inside(i, y, c.size) ==> !InUse(i, j)
    ensures SpotOk(m', c, x, y)
  {
    var n := c.size % UINT32;
    assert n <= c.size;
    forall i | 0 <= i < n ensures Region(m', c.cur, n)[i] == Region(m, c.cur, n)[i] {
      assert !InUse(c.cur + i, j);
    }
    assert Region(m', c.cur, n) == Region(m, c.cur, n);
  }

  // ---- a pass ----

  // k results, and the chunks from j on.
  ghost predicate HalfSpots(m: seq<int>, cs: seq<Chunk>, k: nat, j: nat, n: nat, b: nat, f: Buffers) {
    && k <= j <= n <= |cs| && Fit(f, |m|) && Spots(m, cs, 0, k, 2 * b, f) && Spots(m, cs, j, n, b, f)
  }

  // The sizes and offsets of two neighbours.
  lemma PairSizes(items: nat, b: nat, n: nat, k: nat)
    requires Pieces(items, b, n) && 2 * k + 2 <= n
    ensures var off, s := k * (2 * b), SizeAt(items, b, 2 * k + 1);
            && (2 * k) * b == off && (2 * k + 1) * b == off + b
            && SizeAt(items, b, 2 * k) == b && 0 < s <= b && off + b + s <= items && SizeAt(items, 2 * b, k) == b + s
  {
    var off := k * (2 * b);
    Next(k, b);
    Next(2 * k, b);
    Next(2 * k + 1, b);
    Next(k, 2 * b);
    Product(2 * k + 1, n - 1, b);
  }

  // Two neighbours, by their offset.
  lemma Neighbours(m: seq<int>, cs: seq<Chunk>, k: nat, n: nat, b: nat, f: Buffers)
    requires HalfSpots(m, cs, k, 2 * k, n, b, f) && 2 * k + 2 <= n && Pieces(f.items, b, n)
    ensures var off, a, c := k * (2 * b), cs[2 * k], cs[2 * k + 1];
            && a.size == b && 0 < c.size <= b && off + b + c.size <= f.items
            && b + c.size == SizeAt(f.items, 2 * b, k)
            && SpotOk(m, a, f.input + off, f.output + off) && SpotOk(m, c, f.input + off + b, f.output + off + b)
            && Apart(f.input + off, b + c.size, f.output + off, b + c.size)
  {
    hide SpotOk, SizeAt, Pieces;
    PairSizes(f.items, b, n, k);
    assert ChunkOk(m, cs[2 * k], 2 * k, b, f) && ChunkOk(m, cs[2 * k + 1], 2 * k + 1, b, f);
    assert f.input + (k * (2 * b) + b) == f.input + k * (2 * b) + b && f.output + (k * (2 * b) + b) == f.output + k * (2 * b) + b;
  }

  lemma PairReady(m: seq<int>, cs: seq<Chunk>, k: nat, n: nat, b: nat, f: Buffers)
    requires HalfSpots(m, cs, k, 2 * k, n, b, f) && 2 * k + 2 <= n && Pieces(f.items, b, n) && Aligned(b)
    ensures var a, c := cs[2 * k], cs[2 * k + 1];
            && Laid(RecordedJob(a, c), |m|)
            && Sorted(Region(m, a.cur, a.size % UINT32)) && Sorted(Region(m, c.cur, c.size % UINT32))
            && a.size == b && c.size <= b
  {
    hide Sorted, Region, Laid, Spots, SizeAt, Pieces, Aligned;
    Neighbours(m, cs, k, n, b, f);
    AlignedWord(b);
    var off := k * (2 * b);
    PairLaid(m, cs[2 * k], cs[2 * k + 1], f.input + off, f.output + off, b);
  }

  lemma PairTurn(m': seq<int>, m: seq<int>, cs: seq<Chunk>, k: nat, n: nat, b: nat, f: Buffers)
    requires HalfSpots(m, cs, k, 2 * k, n, b, f) && 2 * k + 2 <= n && Pieces(f.items, b, n) && Aligned(b)
    requires VarLenResult(m', m, RecordedJob(cs[2 * k], cs[2 * k + 1]))
    ensures HalfSpots(m', cs[k := Both(cs[2 * k], cs[2 * k + 1])], k + 1, 2 * k + 2, n, b, f)
  {
    hide Sorted, Region, Laid, VarLenResult, SizeAt, SpotOk, Outside, InUse, Pieces, Aligned;
    Neighbours(m, cs, k, n, b, f);
    AlignedWord(b);
    var off, a, c := k * (2 * b), cs[2 * k], cs[2 * k + 1];
    PairLaid(m, a, c, f.input + off, f.output + off, b);
    PairMerged(m', m, a, c, f.input + off, f.output + off, b);
    ResultOutside(m', m, RecordedJob(a, c));
    var cs' := cs[k := Both(a, c)];
    forall i | 0 <= i < k + 1 ensures ChunkOk(m', cs'[i], i, 2 * b, f) {
      if i < k {
        assert ChunkOk(m, cs[i], i, 2 * b, f);
        ResultKept(m', m, cs, k, off, b, c, f, i, a);
      }
    }
    forall i | 2 * k + 2 <= i < n ensures ChunkOk(m', cs'[i], i, b, f) {
      assert ChunkOk(m, cs[i], i, b, f);
      LaterKept(m', m, cs, k, off, b, c, f, i, a);
    }
  }

  lemma PairTouches(m': seq<int>, m: seq<int>, m0: seq<int>, cs: seq<Chunk>, k: nat, n: nat, b: nat, f: Buffers)
    requires HalfSpots(m, cs, k, 2 * k, n, b, f) && 2 * k + 2 <= n && Pieces(f.items, b, n) && Aligned(b)
    requires VarLenResult(m', m, RecordedJob(cs[2 * k], cs[2 * k + 1])) && Touched(m, m0, f.input, f.output, f.items)
    ensures Touched(m', m0, f.input, f.output, f.items)
  {
    hide Sorted, Region, Laid, VarLenResult, SizeAt, Outside, InUse, Pieces, Aligned, Spots, Touched, OldNews, SpotOk;
    Neighbours(m, cs, k, n, b, f);
    AlignedWord(b);
    var off, a, c := k * (2 * b), cs[2 * k], cs[2 * k + 1];
    PairLaid(m, a, c, f.input + off, f.output + off, b);
    ResultOutside(m', m, RecordedJob(a, c));
    TouchedHere(m', m, m0, RecordedJob(a, c), f);
  }

  lemma ResultOutside(m': seq<int>, m: seq<int>, j: Job)
    requires VarLenResult(m', m, j)
    ensures Outside(m', m, j) && |m'| == |m| && OldNews(m', m, j)
  {
  }

  lemma TouchedHere(m': seq<int>, m: seq<int>, m0: seq<int>, j: Job, f: Buffers)
    requires Outside(m', m, j) && Touched(m, m0, f.input, f.output, f.items)
    requires forall i :: InUse(i, j) ==> Inside(i, f.input, f.items) || Inside(i, f.output, f.items)
    ensures Touched(m', m0, f.input, f.output, f.items)
  {
  }

  // The results lie before the two chunks, the chunks still to be merged behind them.
  lemma OtherKept(m': seq<int>, m: seq<int>, a: Chunk, c: Chunk, off: nat, b: nat, d: Chunk, at: nat, f: Buffers)
    requires Fit(f, |m|) && off + b + c.size <= f.items && at + d.size <= f.items && SpotOk(m, d, f.input + at, f.output + at)
    requires at + d.size <= off || off + b + c.size <= at
    requires Outside(m', m, RecordedJob(a, c))
    requires forall i :: InUse(i, RecordedJob(a, c)) ==> Inside(i, f.input + off, b + c.size) || Inside(i, f.output + off, b + c.size)
    ensures SpotOk(m', d, f.input + at, f.output + at)
  {
    hide Sorted, Region, Outside, InUse, SpotOk;
    SpotKept(m', m, RecordedJob(a, c), d, f.input + at, f.output + at);
  }

  lemma ResultKept(m': seq<int>, m: seq<int>, cs: seq<Chunk>, k: nat, off: nat, b: nat, c: Chunk, f: Buffers, i: nat, a: Chunk)
    requires Fit(f, |m|) && i < k <= |cs| && ChunkOk(m, cs[i], i, 2 * b, f) && off == k * (2 * b) && off + b + c.size <= f.items
    requires Outside(m', m, RecordedJob(a, c))
    requires forall i :: InUse(i, RecordedJob(a, c)) ==> Inside(i, f.input + off, b + c.size) || Inside(i, f.output + off, b + c.size)
    ensures ChunkOk(m', cs[i], i, 2 * b, f)
  {
    hide Outside, InUse, SpotOk;
    Next(i, 2 * b);
    Product(i + 1, k, 2 * b);
    OtherKept(m', m, a, c, off, b, cs[i], i * (2 * b), f);
  }

  lemma LaterKept(m': seq<int>, m: seq<int>, cs: seq<Chunk>, k: nat, off: nat, b: nat, c: Chunk, f: Buffers, i: nat, a: Chunk)
    requires Fit(f, |m|) && 2 * k + 2 <= i < |cs| && ChunkOk(m, cs[i], i, b, f) && off == k * (2 * b) && off + b + c.size <= f.items
    requires c.size <= b && Outside(m', m, RecordedJob(a, c))
    requires forall i :: InUse(i, RecordedJob(a, c)) ==> Inside(i, f.input + off, b + c.size) || Inside(i, f.output + off, b + c.size)
    ensures ChunkOk(m', cs[i], i, b, f)
  {
    hide Outside, InUse, SpotOk, SizeAt;
    Next(k, b);
    Next(2 * k, b);
    Next(2 * k + 1, b);
    Product(2 * k + 2, i, b);
    OtherKept(m', m, a, c, off, b, cs[i], i * b, f);
  }

  // An odd last chunk is only moved.
  lemma MoveLast(m: seq<int>, cs: seq<Chunk>, k: nat, n: nat, b: nat, f: Buffers)
    requires HalfSpots(m, cs, k, 2 * k, n, b, f) && n == 2 * k + 1 && Pieces(f.items, b, n)
    ensures HalfSpots(m, cs[k := cs[n - 1]], k + 1, n, n, b, f)
  {
    hide SpotOk;
    assert ChunkOk(m, cs[2 * k], 2 * k, b, f);
    Next(k, b);
    Next(2 * k, b);
    Next(k, 2 * b);
    var cs' := cs[k := cs[n - 1]];
    forall i | 0 <= i < k + 1 ensures ChunkOk(m, cs'[i], i, 2 * b, f) {
      if i < k { assert ChunkOk(m, cs[i], i, 2 * b, f); }
    }
  }

  lemma HalfPieces(items: nat, b: nat, n: nat)
    requires Pieces(items, b, n)
    ensures Pieces(items, 2 * b, (n + 1) / 2)
  {
    var k := (n + 1) / 2;
    Next(k, b);
    Next(k - 1, b);
    Product(n, 2 * k, b);
    Product(2 * (k - 1), n - 1, b);
  }

  // ---- beyond the word ----

  predicate Far(i: int, f: Buffers) { UINT32 <= i - f.input < f.items || UINT32 <= i - f.output < f.items }

  // Behind the first 2^32 places both buffers hold nothing but 0.
  ghost predicate Quiet(m: seq<int>, f: Buffers) {
    Fit(f, |m|) && forall i :: 0 <= i < |m| && Far(i, f) ==> m[i] == 0
  }

  predicate OnlyZeros(items: multiset<int>) { forall v :: v in items ==> v == 0 }

  // Work on the offsets from off to off + n, before the word or with nothing but zeros.
  lemma QuietWork(m': seq<int>, m: seq<int>, off: nat, n: nat, items: multiset<int>, f: Buffers)
    requires Quiet(m, f) && NoNews(m', m, items) && off + n <= f.items
    requires Touched(m', m, f.input + off, f.output + off, n)
    requires off + n <= UINT32 || OnlyZeros(items)
    ensures Quiet(m', f)
  {
    forall i | 0 <= i < |m'| && Far(i, f) ensures m'[i] == 0 {
      assert m[i] == 0;
    }
  }

  lemma ZeroRegion(m: seq<int>, f: Buffers, x: nat, off: nat, n: nat)
    requires Quiet(m, f) && UINT32 <= off && off + n <= f.items && (x == f.input || x == f.output)
    ensures x + off + n <= |m| && OnlyZeros(multiset(Region(m, x + off, n)))
  {
    var s := Region(m, x + off, n);
    forall v | v in multiset(s) ensures v == 0 {
      var i :| 0 <= i < |s| && s[i] == v;
      assert v == m[x + (off + i)] && Far(x + (off + i), f);
    }
  }

  lemma TouchedPair(m': seq<int>, m: seq<int>, j: Job, p: nat, q: nat, n: nat)
    requires Outside(m', m, j) && forall i :: InUse(i, j) ==> Inside(i, p, n) || Inside(i, q, n)
    ensures Touched(m', m, p, q, n)
  {
  }

  // Beyond the word two neighbours hold, as far as is recorded of them, only zeros.
  lemma QuietItems(m: seq<int>, a: Chunk, c: Chunk, off: nat, b: nat, f: Buffers)
    requires Quiet(m, f) && a.size == b && c.size <= b && off + b + c.size <= f.items && off + b >= UINT32
    requires off >= UINT32 || (b >= UINT32 && b % UINT32 == 0)
    requires a.cur == f.input + off || a.cur == f.output + off
    requires c.cur == f.input + off + b || c.cur == f.output + off + b
    ensures a.cur + a.size <= |m| && c.cur + c.size <= |m| && OnlyZeros(All(m, RecordedJob(a, c)))
  {
    hide Quiet, Region;
    var n1, n2 := a.size % UINT32, c.size % UINT32;
    var xa, xc := if a.cur == f.input + off then f.input else f.output, if c.cur == f.input + off + b then f.input else f.output;
    QuietFits(m, f);
    ZeroRegion(m, f, xc, off + b, n2);
    assert c.cur == xc + (off + b) && a.cur == xa + off;
    if off >= UINT32 {
      ZeroRegion(m, f, xa, off, n1);
    } else {
      NoItems(m, a.cur);
    }
  }

  lemma QuietFits(m: seq<int>, f: Buffers)
    requires Quiet(m, f)
    ensures Fit(f, |m|)
  {
  }

  lemma QuietPair(m': seq<int>, m: seq<int>, cs: seq<Chunk>, k: nat, n: nat, b: nat, f: Buffers)
    requires HalfSpots(m, cs, k, 2 * k, n, b, f) && 2 * k + 2 <= n && Pieces(f.items, b, n) && Aligned(b) && Quiet(m, f)
    requires VarLenResult(m', m, RecordedJob(cs[2 * k], cs[2 * k + 1]))
    ensures Quiet(m', f)
  {
    hide Sorted, Quiet, NoNews, Touched, Outside, Spots, Region, SizeAt, Pieces, VarLenResult, Laid, InUse, Aligned, OnlyZeros;
    Neighbours(m, cs, k, n, b, f);
    AlignedWord(b);
    var off, a, c := k * (2 * b), cs[2 * k], cs[2 * k + 1];
    PairLaid(m, a, c, f.input + off, f.output + off, b);
    var job := RecordedJob(a, c);
    ResultOutside(m', m, job);
    TouchedPair(m', m, job, f.input + off, f.output + off, b + c.size);
    PairSide(k, b, off);
    if off + b + c.size > UINT32 { QuietItems(m, a, c, off, b, f); }
    QuietWork(m', m, off, b + c.size, All(m, job), f);
  }

  lemma NoItems(m: seq<int>, p: nat)
    requires p <= |m|
    ensures multiset(Region(m, p, 0)) == multiset{}
  {
    assert Region(m, p, 0) == [];
  }

  // A pair of a pass lies on one side of the word, or its first chunk alone fills the words before it.
  lemma PairSide(k: nat, b: nat, off: nat)
    requires Aligned(b) && off == k * (2 * b)
    ensures off + 2 * b <= UINT32 || off >= UINT32 || (b >= UINT32 && b % UINT32 == 0)
    ensures off + 2 * b > UINT32 ==> off + b >= UINT32
  {
    var q: nat :| q > 0 && (UINT32 == q * (2 * b) || b == q * UINT32);
    if UINT32 == q * (2 * b) {
      Next(k, 2 * b);
      if k < q { Product(k + 1, q, 2 * b); } else { Product(q, k, 2 * b); }
    } else {
      Product(1, q, UINT32);
    }
  }
}

// The driver (hashing/helper/avxsort.cpp:47-126, 133-211): sort cache-sized chunks, then merge neighbours until one
// chunk is left.  A chunk's data may be in either buffer, always at the chunk's own offset.
module AvxSort {
  import opened Bitonic
  import opened Powers
  import opened Sequences
  import opened Merging
  import opened Merge
  import opened BlockSort
  import opened Chunks

  // The chunk at offset x of one buffer and y of the other.
  ghost predicate HeadOk(m: seq<int>, c: Chunk, x: nat, y: nat, n: nat)
    requires x + n <= |m| && y + n <= |m|
  {
    && c.size <= n && ((c.cur == x && c.tmp == y) || (c.cur == y && c.tmp == x))
    && Sorted(Region(m, c.cur, c.size))
  }

  // The chunks lie one behind the other in [x, x + n) and [y, y + n), and each is sorted.
  ghost predicate Tiled(m: seq<int>, cs: seq<Chunk>, x: nat, y: nat, n: nat)
    decreases |cs|
  {
    && x + n <= |m| && y + n <= |m|
    && if |cs| == 0 then n == 0
       else
         var c := cs[0];
         && HeadOk(m, c, x, y, n)
         && Tiled(m, cs[1..], x + c.size, y + c.size, n - c.size)
  }

  function ChunkItems(m: seq<int>, c: Chunk): multiset<int> {
    if c.cur + c.size <= |m| then multiset(Region(m, c.cur, c.size)) else multiset{}
  }

  function ItemsOf(m: seq<int>, cs: seq<Chunk>): multiset<int> {
    if |cs| == 0 then multiset{} else ChunkItems(m, cs[0]) + ItemsOf(m, cs[1..])
  }

  function Total(cs: seq<Chunk>): nat { if |cs| == 0 then 0 else cs[0].size + Total(cs[1..]) }

  lemma {:induction false} TiledTotal(m: seq<int>, cs: seq<Chunk>, x: nat, y: nat, n: nat)
    requires Tiled(m, cs, x, y, n)
    ensures n == Total(cs)
    decreases |cs|
  {
    hide Sorted, Region;
    if |cs| > 0 { TiledTotal(m, cs[1..], x + cs[0].size, y + cs[0].size, n - cs[0].size); }
  }

  lemma {:induction false} TiledSplit(m: seq<int>, p: seq<Chunk>, r: seq<Chunk>, x: nat, y: nat, n: nat)
    requires Tiled(m, p + r, x, y, n)
    ensures Total(p) <= n && Tiled(m, p, x, y, Total(p)) && Tiled(m, r, x + Total(p), y + Total(p), n - Total(p))
    ensures ItemsOf(m, p + r) == ItemsOf(m, p) + ItemsOf(m, r)
    decreases |p|
  {
    hide Sorted, Region, ChunkItems;
    if |p| == 0 {
      assert p + r == r;
    } else {
      assert (p + r)[1..] == p[1..] + r;
      TiledSplit(m, p[1..], r, x + p[0].size, y + p[0].size, n - p[0].size);
    }
  }

  lemma TiledCons(m: seq<int>, c: Chunk, cs: seq<Chunk>, x: nat, y: nat, n: nat)
    requires x + n <= |m| && y + n <= |m| && HeadOk(m, c, x, y, n) && Tiled(m, cs, x + c.size, y + c.size, n - c.size)
    ensures Tiled(m, [c] + cs, x, y, n) && ItemsOf(m, [c] + cs) == ChunkItems(m, c) + ItemsOf(m, cs)
  {
    hide Sorted, Region, ChunkItems;
    assert ([c] + cs)[0] == c && ([c] + cs)[1..] == cs;
  }

  lemma TiledUncons(m: seq<int>, c: Chunk, cs: seq<Chunk>, x: nat, y: nat, n: nat)
    requires Tiled(m, [c] + cs, x, y, n)
    ensures x + n <= |m| && y + n <= |m| && HeadOk(m, c, x, y, n) && c.size <= n
    ensures Tiled(m, cs, x + c.size, y + c.size, n - c.size)
    ensures ItemsOf(m, [c] + cs) == ChunkItems(m, c) + ItemsOf(m, cs)
  {
    hide Sorted, Region, ChunkItems;
    assert ([c] + cs)[0] == c && ([c] + cs)[1..] == cs;
  }

  lemma TiledNone(m: seq<int>, x: nat, y: nat, n: nat)
    requires Tiled(m, [], x, y, n)
    ensures n == 0 && forall r :: ItemsOf(m, [] + r) == ItemsOf(m, []) + ItemsOf(m, r) && [] + r == r
  {
    forall r ensures ItemsOf(m, [] + r) == ItemsOf(m, []) + ItemsOf(m, r) && [] + r == r {
      assert [] + r == r;
    }
  }

  lemma {:induction false} TiledJoin(m: seq<int>, p: seq<Chunk>, r: seq<Chunk>, x: nat, y: nat, k: nat, n: nat)
    requires k <= n && x + n <= |m| && y + n <= |m| && Tiled(m, p, x, y, k) && Tiled(m, r, x + k, y + k, n - k)
    ensures Tiled(m, p + r, x, y, n) && ItemsOf(m, p + r) == ItemsOf(m, p) + ItemsOf(m, r)
    decreases |p|
  {
    hide HeadOk, Tiled, ItemsOf, ChunkItems;
    if |p| == 0 {
      TiledNone(m, x, y, k);
    } else {
      var c, p' := p[0], p[1..];
      assert p == [c] + p';
      TiledUncons(m, c, p', x, y, k);
      TiledJoinStep(m, c, p', r, x, y, k, n);
      TiledJoin(m, p', r, x + c.size, y + c.size, k - c.size, n - c.size);
      TiledCons(m, c, p' + r, x, y, n);
      assert p + r == [c] + (p' + r);
      var i, j, l := ChunkItems(m, c), ItemsOf(m, p'), ItemsOf(m, r);
      assert i + (j + l) == (i + j) + l;
    }
  }

  lemma TiledJoinStep(m: seq<int>, c: Chunk, p: seq<Chunk>, r: seq<Chunk>, x: nat, y: nat, k: nat, n: nat)
    requires k <= n && x + n <= |m| && y + n <= |m| && c.size <= k
    requires HeadOk(m, c, x, y, k) && Tiled(m, r, x + k, y + k, n - k)
    ensures HeadOk(m, c, x, y, n)
    ensures Tiled(m, r, (x + c.size) + (k - c.size), (y + c.size) + (k - c.size), (n - c.size) - (k - c.size))
  {
    hide Sorted, Region, Tiled;
    assert (x + c.size) + (k - c.size) == x + k && (y + c.size) + (k - c.size) == y + k;
    assert (n - c.size) - (k - c.size) == n - k;
  }

  // Chunks whose memory is unchanged stay sorted.
  lemma {:induction false} TiledFrame(m: seq<int>, m': seq<int>, cs: seq<Chunk>, x: nat, y: nat, n: nat)
    requires Tiled(m, cs, x, y, n) && |m'| == |m| && Region(m', x, n) == Region(m, x, n) && Region(m', y, n) == Region(m, y, n)
    ensures Tiled(m', cs, x, y, n) && ItemsOf(m', cs) == ItemsOf(m, cs)
    decreases |cs|
  {
    hide Sorted, Region, HeadOk, ChunkItems;
    if |cs| > 0 {
      assert cs == [cs[0]] + cs[1..];
      TiledUncons(m, cs[0], cs[1..], x, y, n);
      HeadFrame(m, m', cs[0], x, y, n);
      TiledFrame(m, m', cs[1..], x + cs[0].size, y + cs[0].size, n - cs[0].size);
    }
  }

  lemma HeadFrame(m: seq<int>, m': seq<int>, c: Chunk, x: nat, y: nat, n: nat)
    requires |m'| == |m| && x + n <= |m| && y + n <= |m| && HeadOk(m, c, x, y, n)
    requires Region(m', x, n) == Region(m, x, n) && Region(m', y, n) == Region(m, y, n)
    ensures HeadOk(m', c, x, y, n) && ChunkItems(m', c) == ChunkItems(m, c)
    ensures Region(m', x + c.size, n - c.size) == Region(m, x + c.size, n - c.size)
    ensures Region(m', y + c.size, n - c.size) == Region(m, y + c.size, n - c.size)
  {
    hide Sorted, Region;
    SameParts(m, m', x, n, c.size);
    SameParts(m, m', y, n, c.size);
  }

  lemma SameParts(m: seq<int>, m': seq<int>, x: nat, n: nat, k: nat)
    requires |m'| == |m| && x + n <= |m| && Region(m', x, n) == Region(m, x, n) && k <= n
    ensures Region(m', x, k) == Region(m, x, k) && Region(m', x + k, n - k) == Region(m, x + k, n - k)
  {
    hide Region;
    SubRegion(m, x, n, 0, k);
    SubRegion(m', x, n, 0, k);
    SubRegion(m, x, n, k, n - k);
    SubRegion(m', x, n, k, n - k);
    assert x + 0 == x;
  }

  // ---- one merge of two neighbours ----

  function MergeJob(a: Chunk, b: Chunk): Job { Job(16, a.cur, a.size, b.cur, b.size, a.tmp) }

  // What a merge leaves behind does not depend on the width of its registers.
  lemma AnyWidth(m': seq<int>, m: seq<int>, j: Job, w: nat)
    requires IsWidth(w) && VarLenResult(m', m, j.(w := w)) && IsWidth(j.w)
    ensures VarLenResult(m', m, j)
  {
    hide Sorted, Region, NoNews;
    assert |m'| == |m| && All(m, j) == All(m, j.(w := w));
    forall i | 0 <= i < |m| && !InUse(i, j) ensures m'[i] == m[i] {
      assert !InUse(i, j.(w := w));
    }
  }

  lemma AnyWidthLaid(j: Job, w: nat, n: nat)
    requires IsWidth(w) && Laid(j, n)
    ensures Laid(j.(w := w), n)
  {
  }

  // Nothing outside the two chunks' own offsets changes.
  lemma OutsideKeeps(m': seq<int>, m: seq<int>, j: Job, p: nat, n: nat)
    requires Outside(m', m, j) && p + n <= |m|
    requires forall i :: p <= i < p + n ==> !InUse(i, j)
    ensures |m'| == |m| && Region(m', p, n) == Region(m, p, n)
  {
    forall i | 0 <= i < n ensures Region(m', p, n)[i] == Region(m, p, n)[i] {
      assert !InUse(p + i, j);
    }
  }

  lemma MergeResult(m': seq<int>, m: seq<int>, a: Chunk, b: Chunk, q: seq<Chunk>, x: nat, y: nat, n: nat)
    requires Tiled(m, [a, b] + q, x, y, n) && Apart(x, n, y, n) && VarLenResult(m', m, MergeJob(a, b))
    ensures Tiled(m', [Chunk(a.tmp, a.cur, a.size + b.size)] + q, x, y, n)
    ensures ItemsOf(m', [Chunk(a.tmp, a.cur, a.size + b.size)] + q) == ItemsOf(m, [a, b] + q)
  {
    hide Sorted, Region, Tiled, ItemsOf, VarLenResult;
    var c, k := Chunk(a.tmp, a.cur, a.size + b.size), a.size + b.size;
    assert [a, b] + q == [a] + ([b] + q);
    TiledUncons(m, a, [b] + q, x, y, n);
    TiledUncons(m, b, q, x + a.size, y + a.size, n - a.size);
    assert x + a.size + b.size == x + k && y + a.size + b.size == y + k && n - a.size - b.size == n - k;
    MergeKeepsAfter(m', m, a, b, x, y, n);
    TiledFrame(m, m', q, x + k, y + k, n - k);
    MergedChunk(m', m, a, b, x, y, n);
    TiledCons(m', c, q, x, y, n);
  }

  ghost predicate Neighbours(m: seq<int>, a: Chunk, b: Chunk, x: nat, y: nat, n: nat) {
    && x + n <= |m| && y + n <= |m| && Apart(x, n, y, n)
    && HeadOk(m, a, x, y, n) && HeadOk(m, b, x + a.size, y + a.size, n - a.size)
  }

  lemma MergeKeepsAfter(m': seq<int>, m: seq<int>, a: Chunk, b: Chunk, x: nat, y: nat, n: nat)
    requires Neighbours(m, a, b, x, y, n) && VarLenResult(m', m, MergeJob(a, b))
    ensures var k := a.size + b.size;
            |m'| == |m| && Region(m', x + k, n - k) == Region(m, x + k, n - k) && Region(m', y + k, n - k) == Region(m, y + k, n - k)
  {
    hide Sorted, Region;
    var k := a.size + b.size;
    OutsideKeeps(m', m, MergeJob(a, b), x + k, n - k);
    OutsideKeeps(m', m, MergeJob(a, b), y + k, n - k);
  }

  lemma MergedChunk(m': seq<int>, m: seq<int>, a: Chunk, b: Chunk, x: nat, y: nat, n: nat)
    requires |m'| == |m| && Neighbours(m, a, b, x, y, n) && VarLenResult(m', m, MergeJob(a, b))
    ensures HeadOk(m', Chunk(a.tmp, a.cur, a.size + b.size), x, y, n)
    ensures ChunkItems(m', Chunk(a.tmp, a.cur, a.size + b.size)) == ChunkItems(m, a) + ChunkItems(m, b)
  {
    hide Sorted, Region, Outside;
  }

  // One turn of the inner loop: chunks before p and after q keep their place.
  lemma MergeTurn(m': seq<int>, m: seq<int>, p: seq<Chunk>, a: Chunk, b: Chunk, q: seq<Chunk>, x: nat, y: nat, n: nat)
    requires Tiled(m, p + ([a, b] + q), x, y, n) && Apart(x, n, y, n) && VarLenResult(m', m, MergeJob(a, b))
    ensures Tiled(m', p + ([Chunk(a.tmp, a.cur, a.size + b.size)] + q), x, y, n)
    ensures ItemsOf(m', p + ([Chunk(a.tmp, a.cur, a.size + b.size)] + q)) == ItemsOf(m, p + ([a, b] + q))
  {
    hide Sorted, Region, VarLenResult, Tiled, ItemsOf;
    var k, r, r' := Total(p), [a, b] + q, [Chunk(a.tmp, a.cur, a.size + b.size)] + q;
    TiledRoom(m, p + r, x, y, n);
    TiledSplit(m, p, r, x, y, n);
    MergeResult(m', m, a, b, q, x + k, y + k, n - k);
    MergeKeepsBefore(m', m, a, b, q, x, y, n, k);
    TiledFrame(m, m', p, x, y, k);
    TiledJoin(m', p, r', x, y, k, n);
  }

  lemma TiledRoom(m: seq<int>, cs: seq<Chunk>, x: nat, y: nat, n: nat)
    requires Tiled(m, cs, x, y, n)
    ensures x + n <= |m| && y + n <= |m|
  {
  }

  lemma MergeKeepsBefore(m': seq<int>, m: seq<int>, a: Chunk, b: Chunk, q: seq<Chunk>, x: nat, y: nat, n: nat, k: nat)
    requires x + n <= |m| && y + n <= |m| && k <= n && Apart(x, n, y, n)
    requires Tiled(m, [a, b] + q, x + k, y + k, n - k) && VarLenResult(m', m, MergeJob(a, b))
    ensures |m'| == |m| && Region(m', x, k) == Region(m, x, k) && Region(m', y, k) == Region(m, y, k)
  {
    hide Sorted, Region, VarLenResult, Outside;
    ResultOutside(m', m, MergeJob(a, b));
    var cs := [a, b] + q;
    assert cs[0] == a && cs[1..] == [b] + q && cs[1..][0] == b;
    OutsideKeeps(m', m, MergeJob(a, b), x, k);
    OutsideKeeps(m', m, MergeJob(a, b), y, k);
  }

  // ---- a pass ----

  // The chunks of a pass over the first n: k results, then those from j on.
  function View(chunks: seq<Chunk>, k: nat, j: nat, n: nat): seq<Chunk>
    requires k <= j <= n <= |chunks|
  {
    chunks[..k] + chunks[j..n]
  }

  ghost predicate PassInv(m: seq<int>, m0: seq<int>, chunks: seq<Chunk>, k: nat, j: nat, n: nat, input: nat, output: nat, items: nat) {
    && k <= j <= n <= |chunks| && Apart(input, items, output, items)
    && Touched(m, m0, input, output, items)
    && Tiled(m, View(chunks, k, j, n), input, output, items)
    && ItemsOf(m, View(chunks, k, j, n)) == multiset(Region(m0, input, items))
  }

  lemma ViewMerge(chunks: seq<Chunk>, k: nat, j: nat, n: nat, c: Chunk)
    requires k <= j && j + 2 <= n <= |chunks|
    ensures var p, q := chunks[..k], chunks[j + 2..n];
            && View(chunks, k, j, n) == p + ([chunks[j], chunks[j + 1]] + q)
            && View(chunks[k := c], k + 1, j + 2, n) == p + ([c] + q)
  {
  }

  lemma ViewMove(chunks: seq<Chunk>, k: nat, n: nat)
    requires k < n <= |chunks|
    ensures View(chunks[k := chunks[n - 1]], k + 1, n, n) == View(chunks, k, n - 1, n)
  {
  }

  lemma TouchedOutside(m': seq<int>, m: seq<int>, m0: seq<int>, input: nat, output: nat, n: nat, j: Job)
    requires Touched(m, m0, input, output, n) && Outside(m', m, j)
    requires forall i :: InUse(i, j) ==> Inside(i, input, n) || Inside(i, output, n)
    ensures Touched(m', m0, input, output, n)
  {
  }

  lemma PassTurn(m': seq<int>, m: seq<int>, m0: seq<int>, chunks: seq<Chunk>, k: nat, j: nat, n: nat,
                 input: nat, output: nat, items: nat)
    requires PassInv(m, m0, chunks, k, j, n, input, output, items) && j + 2 <= n
    requires VarLenResult(m', m, MergeJob(chunks[j], chunks[j + 1]))
    ensures PassInv(m', m0, chunks[k := Chunk(chunks[j].tmp, chunks[j].cur, chunks[j].size + chunks[j + 1].size)], k + 1, j + 2, n,
                    input, output, items)
  {
    hide Sorted, Region, VarLenResult, Tiled, ItemsOf, Touched, View;
    var a, b := chunks[j], chunks[j + 1];
    var p, q := chunks[..k], chunks[j + 2..n];
    ViewMerge(chunks, k, j, n, Chunk(a.tmp, a.cur, a.size + b.size));
    MergeTurn(m', m, p, a, b, q, input, output, items);
    MergeTouches(m', m, m0, p, a, b, q, input, output, items);
  }

  lemma MergeTouches(m': seq<int>, m: seq<int>, m0: seq<int>, p: seq<Chunk>, a: Chunk, b: Chunk, q: seq<Chunk>,
                     input: nat, output: nat, items: nat)
    requires Tiled(m, p + ([a, b] + q), input, output, items) && Touched(m, m0, input, output, items)
    requires VarLenResult(m', m, MergeJob(a, b))
    ensures Touched(m', m0, input, output, items)
  {
    hide Sorted, Region, Tiled, ItemsOf, Touched, HeadOk, Laid, Outside;
    TiledSplit(m, p, [a, b] + q, input, output, items);
    var k := Total(p);
    assert [a, b] + q == [a] + ([b] + q);
    TiledUncons(m, a, [b] + q, input + k, output + k, items - k);
    TiledUncons(m, b, q, input + k + a.size, output + k + a.size, items - k - a.size);
    JobWithin(m, a, b, input, output, items, k);
    TouchedOutside(m', m, m0, input, output, items, MergeJob(a, b));
  }

  lemma JobWithin(m: seq<int>, a: Chunk, b: Chunk, x: nat, y: nat, n: nat, k: nat)
    requires k <= n && x + n <= |m| && y + n <= |m| && HeadOk(m, a, x + k, y + k, n - k)
    requires HeadOk(m, b, x + k + a.size, y + k + a.size, n - k - a.size)
    ensures forall i :: InUse(i, MergeJob(a, b)) ==> Inside(i, x, n) || Inside(i, y, n)
  {
    hide Sorted, Region;
  }

  // The arrays hold what is recorded of the chunks.
  predicate Records(chunks: seq<Chunk>, full: seq<Chunk>, lo: nat, hi: nat) {
    hi <= |chunks| == |full| && forall c :: lo <= c < hi ==> chunks[c] == Recorded(full[c])
  }

  // A turn of a pass that merges whole chunks.
  lemma StrongTurn(m': seq<int>, m: seq<int>, m0: seq<int>, full: seq<Chunk>, k: nat, j: nat, n: nat, f: Buffers)
    requires PassInv(m, m0, full, k, j, n, f.input, f.output, f.items) && j + 2 <= n
    requires full[j].size < UINT32 && full[j + 1].size < UINT32
    requires VarLenResult(m', m, RecordedJob(full[j], full[j + 1]))
    ensures PassInv(m', m0, full[k := Both(full[j], full[j + 1])], k + 1, j + 2, n, f.input, f.output, f.items)
  {
    hide VarLenResult, Tiled, ItemsOf, Touched, View, Region, Apart;
    assert RecordedJob(full[j], full[j + 1]) == MergeJob(full[j], full[j + 1]);
    PassTurn(m', m, m0, full, k, j, n, f.input, f.output, f.items);
  }

  // A pass that has k results and goes on at chunk j.  `full` has the sizes the chunks really have, of which the arrays
  // record the last 32 bits.  When the pass is `whole`, no chunk it starts from is of 2^32 items or more.
  ghost predicate Passing(m: seq<int>, m0: seq<int>, full: seq<Chunk>, k: nat, j: nat, n: nat, b: nat, f: Buffers, whole: bool) {
    && Pieces(f.items, b, n) && Aligned(b) && HalfSpots(m, full, k, j, n, b, f) && Touched(m, m0, f.input, f.output, f.items)
    && (whole ==> b < UINT32 && PassInv(m, m0, full, k, j, n, f.input, f.output, f.items))
  }

  lemma PassingTurn(m': seq<int>, m: seq<int>, m0: seq<int>, full: seq<Chunk>, k: nat, n: nat, b: nat, f: Buffers, whole: bool)
    requires Passing(m, m0, full, k, 2 * k, n, b, f, whole) && 2 * k + 2 <= n <= |full|
    requires VarLenResult(m', m, RecordedJob(full[2 * k], full[2 * k + 1]))
    ensures Passing(m', m0, full[k := Both(full[2 * k], full[2 * k + 1])], k + 1, 2 * k + 2, n, b, f, whole)
  {
    hide PassInv, VarLenResult, Pieces, Aligned, HalfSpots, Touched;
    PairTurn(m', m, full, k, n, b, f);
    PairTouches(m', m, m0, full, k, n, b, f);
    if whole {
      PairReady(m, full, k, n, b, f);
      StrongTurn(m', m, m0, full, k, 2 * k, n, f);
    }
  }

  lemma PassingReady(m: seq<int>, m0: seq<int>, full: seq<Chunk>, k: nat, n: nat, b: nat, f: Buffers, whole: bool, w: nat)
    requires Passing(m, m0, full, k, 2 * k, n, b, f, whole) && 2 * k + 2 <= n <= |full| && IsWidth(w)
    ensures var j := RecordedJob(full[2 * k], full[2 * k + 1]);
            && Laid(j, |m|) && Laid(j.(w := w), |m|) && j.inpA + j.lenA <= |m| && j.inpB + j.lenB <= |m|
            && Sorted(Region(m, j.inpA, j.lenA)) && Sorted(Region(m, j.inpB, j.lenB))
  {
    hide PassInv, Pieces, Aligned, HalfSpots, Touched, Sorted, Region;
    PairReady(m, full, k, n, b, f);
    AnyWidthLaid(RecordedJob(full[2 * k], full[2 * k + 1]), w, |m|);
  }

  lemma PassingQuiet(m': seq<int>, m: seq<int>, m0: seq<int>, full: seq<Chunk>, k: nat, n: nat, b: nat, f: Buffers, whole: bool)
    requires Passing(m, m0, full, k, 2 * k, n, b, f, whole) && 2 * k + 2 <= n <= |full|
    requires VarLenResult(m', m, RecordedJob(full[2 * k], full[2 * k + 1]))
    ensures Quiet(m, f) ==> Quiet(m', f)
  {
    hide PassInv, Pieces, Aligned, HalfSpots, Touched, VarLenResult, Quiet;
    if Quiet(m, f) { QuietPair(m', m, full, k, n, b, f); }
  }

  // The merge of two neighbours, whose recorded sizes alone it sees.
  method MergePair(mem: array<int>, width: nat, a: Chunk, c: Chunk, ghost m0: seq<int>, ghost full: seq<Chunk>, ghost k: nat,
                   ghost n: nat, ghost b: nat, ghost f: Buffers, ghost whole: bool) returns (r: Chunk)
    requires IsWidth(width) && Passing(mem[..], m0, full, k, 2 * k, n, b, f, whole) && 2 * k + 2 <= n <= |full|
    requires a == Recorded(full[2 * k]) && c == Recorded(full[2 * k + 1])
    modifies mem
    ensures r == Recorded(Both(full[2 * k], full[2 * k + 1]))
    ensures Passing(mem[..], m0, full[k := Both(full[2 * k], full[2 * k + 1])], k + 1, 2 * k + 2, n, b, f, whole)
    ensures Quiet(old(mem[..]), f) ==> Quiet(mem[..], f)
  {
    hide Passing, VarLenResult, Sorted, Region, Laid, Quiet;
    ghost var m, job := mem[..], RecordedJob(full[2 * k], full[2 * k + 1]);
    PassingReady(m, m0, full, k, n, b, f, whole, width);
    MergeVarLen(mem, width, a.cur, c.cur, a.tmp, a.size, c.size);
    AnyWidth(mem[..], m, job, width);
    PassingTurn(mem[..], m, m0, full, k, n, b, f, whole);
    PassingQuiet(mem[..], m, m0, full, k, n, b, f, whole);
    r := Chunk(a.tmp, a.cur, (a.size + c.size) % UINT32);
  }

  // One pass of merges.
  method MergePass(mem: array<int>, width: nat, before: seq<Chunk>, nchunks: nat, ghost m0: seq<int>, ghost full0: seq<Chunk>,
                   ghost b: nat, ghost f: Buffers, ghost whole: bool)
    returns (chunks: seq<Chunk>, k: nat, ghost full: seq<Chunk>)
    requires IsWidth(width) && Aligned(b) && Pieces(f.items, b, nchunks) && Fit(f, mem.Length)
    requires Records(before, full0, 0, nchunks) && Spots(mem[..], full0, 0, nchunks, b, f)
    requires Touched(mem[..], m0, f.input, f.output, f.items)
    requires whole ==> b < UINT32 && PassInv(mem[..], m0, full0, 0, 0, nchunks, f.input, f.output, f.items)
    modifies mem
    ensures k == (nchunks + 1) / 2 && Pieces(f.items, 2 * b, k)
    ensures Records(chunks, full, 0, k) && Spots(mem[..], full, 0, k, 2 * b, f)
    ensures Touched(mem[..], m0, f.input, f.output, f.items)
    ensures whole ==> PassInv(mem[..], m0, full, 0, 0, k, f.input, f.output, f.items)
    ensures Quiet(old(mem[..]), f) ==> Quiet(mem[..], f)
  {
    hide Passing, PassInv, Pieces, Quiet, Spots, Touched, Aligned, Records, Recorded, Both, Fit;
    chunks, k, full := before, 0, full0;
    RecordsStart(chunks, full, nchunks);
    PassStart(mem[..], m0, full, nchunks, b, f, whole);
    HalfPieces(f.items, b, nchunks);
    var j := 0;
    while j < nchunks - 1
      invariant j == 2 * k <= nchunks <= |chunks| == |full| && Records(chunks, full, 0, k) && Records(chunks, full, j, nchunks)
      invariant Passing(mem[..], m0, full, k, j, nchunks, b, f, whole)
      invariant Quiet(old(mem[..]), f) ==> Quiet(mem[..], f)
    {
      RecordsPair(chunks, full, j, nchunks);
      var c := MergePair(mem, width, chunks[j], chunks[j + 1], m0, full, k, nchunks, b, f, whole);
      RecordsTurn(chunks, full, k, j, nchunks, c, Both(full[j], full[j + 1]));
      full := full[k := Both(full[j], full[j + 1])];
      chunks := chunks[k := c];
      k := k + 1;
      j := j + 2;
    }
    if nchunks % 2 == 1 {
      PassingMove(mem[..], m0, full, k, nchunks, b, f, whole);
      RecordsLast(chunks, full, k, nchunks);
      full := full[k := full[nchunks - 1]];
      chunks := chunks[k := chunks[nchunks - 1]];
      k := k + 1;
    }
    PassDone(mem[..], m0, full, k, nchunks, b, f, whole);
  }

  lemma RecordsStart(chunks: seq<Chunk>, full: seq<Chunk>, n: nat)
    requires Records(chunks, full, 0, n)
    ensures n <= |chunks| == |full| && Records(chunks, full, 0, 0)
  {
  }

  lemma RecordsPair(chunks: seq<Chunk>, full: seq<Chunk>, j: nat, n: nat)
    requires Records(chunks, full, j, n) && j + 2 <= n
    ensures n <= |chunks| == |full| && chunks[j] == Recorded(full[j]) && chunks[j + 1] == Recorded(full[j + 1])
  {
  }

  lemma RecordsTurn(chunks: seq<Chunk>, full: seq<Chunk>, k: nat, j: nat, n: nat, c: Chunk, d: Chunk)
    requires Records(chunks, full, 0, k) && Records(chunks, full, j, n) && k <= j && j + 2 <= n && c == Recorded(d)
    ensures Records(chunks[k := c], full[k := d], 0, k + 1) && Records(chunks[k := c], full[k := d], j + 2, n)
  {
  }

  lemma RecordsLast(chunks: seq<Chunk>, full: seq<Chunk>, k: nat, n: nat)
    requires k < n && Records(chunks, full, 0, k) && Records(chunks, full, n - 1, n)
    ensures Records(chunks[k := chunks[n - 1]], full[k := full[n - 1]], 0, k + 1)
  {
    assert chunks[n - 1] == Recorded(full[n - 1]);
  }

  lemma PassStart(m: seq<int>, m0: seq<int>, full: seq<Chunk>, n: nat, b: nat, f: Buffers, whole: bool)
    requires Aligned(b) && Pieces(f.items, b, n) && Fit(f, |m|) && Spots(m, full, 0, n, b, f)
    requires Touched(m, m0, f.input, f.output, f.items)
    requires whole ==> b < UINT32 && PassInv(m, m0, full, 0, 0, n, f.input, f.output, f.items)
    ensures Passing(m, m0, full, 0, 0, n, b, f, whole) && n > 0
  {
    hide PassInv, Touched, Aligned, ChunkOk;
  }

  lemma PassingMove(m: seq<int>, m0: seq<int>, full: seq<Chunk>, k: nat, n: nat, b: nat, f: Buffers, whole: bool)
    requires Passing(m, m0, full, k, 2 * k, n, b, f, whole) && n == 2 * k + 1 <= |full|
    ensures Passing(m, m0, full[k := full[n - 1]], k + 1, n, n, b, f, whole)
  {
    hide PassInv, Touched, Aligned, HalfSpots;
    MoveLast(m, full, k, n, b, f);
    if whole { PassMove(m, m0, full, k, n, f.input, f.output, f.items); }
  }

  lemma PassDone(m: seq<int>, m0: seq<int>, full: seq<Chunk>, k: nat, n: nat, b: nat, f: Buffers, whole: bool)
    requires Passing(m, m0, full, k, n, n, b, f, whole)
    ensures Spots(m, full, 0, k, 2 * b, f) && Touched(m, m0, f.input, f.output, f.items)
    ensures whole ==> PassInv(m, m0, full, 0, 0, k, f.input, f.output, f.items)
  {
    hide PassInv, Touched, Aligned, ChunkOk;
    if whole { PassEnd(m, m0, full, k, n, f.input, f.output, f.items); }
  }

  lemma PassMove(m: seq<int>, m0: seq<int>, chunks: seq<Chunk>, k: nat, n: nat, input: nat, output: nat, items: nat)
    requires k < n && PassInv(m, m0, chunks, k, n - 1, n, input, output, items)
    ensures PassInv(m, m0, chunks[k := chunks[n - 1]], k + 1, n, n, input, output, items)
  {
    hide Tiled, ItemsOf, Touched, View;
    ViewMove(chunks, k, n);
  }

  lemma PassEnd(m: seq<int>, m0: seq<int>, chunks: seq<Chunk>, k: nat, n: nat, input: nat, output: nat, items: nat)
    requires PassInv(m, m0, chunks, k, n, n, input, output, items)
    ensures PassInv(m, m0, chunks, 0, 0, k, input, output, items)
  {
    hide Tiled, ItemsOf, Touched;
    assert View(chunks, k, n, n) == View(chunks, 0, 0, k);
  }

  // ---- sorting the chunks ----

  // The first o items are in the sorted chunks cs; the input after them is as it was.
  ghost predicate Prefix(m: seq<int>, m0: seq<int>, cs: seq<Chunk>, o: nat, input: nat, output: nat, items: nat) {
    && o <= items && input + items <= |m| && output + items <= |m| && Apart(input, items, output, items)
    && Touched(m, m0, input, output, items)
    && Tiled(m, cs, input, output, o) && ItemsOf(m, cs) == multiset(Region(m0, input, o))
    && Region(m, input + o, items - o) == Region(m0, input + o, items - o)
  }

  lemma TouchedKeeps(m: seq<int>, m0: seq<int>, p: nat, q: nat, n: nat, x: nat, k: nat)
    requires Touched(m, m0, p, q, n) && x + k <= |m| && Apart(p, n, x, k) && Apart(q, n, x, k)
    ensures Region(m, x, k) == Region(m0, x, k)
  {
  }

  lemma TouchedWithin(m: seq<int>, m1: seq<int>, m0: seq<int>, input: nat, output: nat, items: nat, o: nat, size: nat)
    requires Touched(m1, m0, input, output, items) && Touched(m, m1, input + o, output + o, size) && o + size <= items
    ensures Touched(m, m0, input, output, items)
  {
  }

  lemma ChunkDone(m': seq<int>, m: seq<int>, m0: seq<int>, cs: seq<Chunk>, c: Chunk, o: nat, input: nat, output: nat, items: nat)
    requires Prefix(m, m0, cs, o, input, output, items) && o + c.size <= items
    requires Touched(m', m, input + o, output + o, c.size) && (c.cur == input + o && c.tmp == output + o)
    requires |m'| == |m| && Sorted(Region(m', c.cur, c.size))
    requires multiset(Region(m', c.cur, c.size)) == multiset(Region(m, input + o, c.size))
    ensures Prefix(m', m0, cs + [c], o + c.size, input, output, items)
  {
    hide Sorted, Region, Tiled, ItemsOf, Touched;
    var k := c.size;
    TouchedLength(m, m0, input, output, items);
    TouchedWithin(m', m, m0, input, output, items, o, k);
    ChunkKeeps(m', m, m0, o, k, input, output, items);
    TiledFrame(m, m', cs, input, output, o);
    TiledOne(m', c, input + o, output + o);
    assert o + k - o == k;
    TiledJoin(m', cs, [c], input, output, o, o + k);
    SubRegion(m0, input, items, o, k);
  }

  // What the work on one chunk leaves as it is.
  lemma ChunkKeeps(m': seq<int>, m: seq<int>, m0: seq<int>, o: nat, k: nat, input: nat, output: nat, items: nat)
    requires |m'| == |m| == |m0| && o + k <= items && input + items <= |m| && output + items <= |m|
    requires Apart(input, items, output, items) && Touched(m', m, input + o, output + o, k)
    requires Region(m, input + o, items - o) == Region(m0, input + o, items - o)
    ensures Region(m', input, o) == Region(m, input, o) && Region(m', output, o) == Region(m, output, o)
    ensures Region(m, input + o, k) == Region(m0, input + o, k)
    ensures Region(m', input + (o + k), items - (o + k)) == Region(m0, input + (o + k), items - (o + k))
  {
    hide Region, Touched;
    TouchedKeeps(m', m, input + o, output + o, k, input, o);
    TouchedKeeps(m', m, input + o, output + o, k, output, o);
    TouchedKeeps(m', m, input + o, output + o, k, input + o + k, items - o - k);
    SameParts(m0, m, input + o, items - o, k);
    assert input + o + k == input + (o + k) && items - o - k == items - (o + k);
  }

  lemma TouchedLength(m: seq<int>, m0: seq<int>, p: nat, q: nat, n: nat)
    requires Touched(m, m0, p, q, n)
    ensures |m| == |m0|
  {
  }

  lemma TiledOne(m: seq<int>, c: Chunk, x: nat, y: nat)
    requires x + c.size <= |m| && y + c.size <= |m| && HeadOk(m, c, x, y, c.size)
    ensures Tiled(m, [c], x, y, c.size) && ItemsOf(m, [c]) == ChunkItems(m, c)
    ensures ChunkItems(m, c) == multiset(Region(m, c.cur, c.size))
  {
    hide Sorted, Region;
    assert [c] == [c] + [];
    TiledCons(m, c, [], x, y, c.size);
  }

  function Insert(x: int, s: seq<int>): seq<int> {
    if |s| == 0 then [x] else if x <= s[0] then [x] + s else [s[0]] + Insert(x, s[1..])
  }

  function StdSorted(s: seq<int>): seq<int> { if |s| == 0 then [] else Insert(s[0], StdSorted(s[1..])) }

  lemma {:induction false} InsertKeeps(x: int, s: seq<int>)
    ensures multiset(Insert(x, s)) == multiset{x} + multiset(s)
    decreases |s|
  {
    if |s| > 0 {
      assert s == [s[0]] + s[1..];
      if x > s[0] { InsertKeeps(x, s[1..]); }
    }
  }

  lemma {:induction false} InsertSorts(x: int, s: seq<int>)
    requires Sorted(s)
    ensures Sorted(Insert(x, s))
    decreases |s|
  {
    if |s| > 0 {
      if x <= s[0] {
        SortedAppend([x], s);
      } else {
        var t := Insert(x, s[1..]);
        InsertSorts(x, s[1..]);
        InsertBounds(x, s[1..], s[0]);
        SortedAppend([s[0]], t);
      }
    }
  }

  lemma InsertBounds(x: int, s: seq<int>, v: int)
    requires v <= x && forall i :: 0 <= i < |s| ==> v <= s[i]
    ensures forall i :: 0 <= i < |Insert(x, s)| ==> v <= Insert(x, s)[i]
  {
    var t := Insert(x, s);
    InsertKeeps(x, s);
    forall i | 0 <= i < |t| ensures v <= t[i] {
      assert t[i] in multiset(t);
    }
  }

  lemma {:induction false} StdSorts(s: seq<int>)
    ensures |StdSorted(s)| == |s| && Sorted(StdSorted(s)) && multiset(StdSorted(s)) == multiset(s)
    decreases |s|
  {
    hide Insert, Sorted;
    if |s| == 0 {
      NothingSorted();
    } else {
      StdSorts(s[1..]);
      InsertSorts(s[0], StdSorted(s[1..]));
      InsertKeeps(s[0], StdSorted(s[1..]));
      assert s == [s[0]] + s[1..];
      SameItems(StdSorted(s), s);
    }
  }

  lemma NothingSorted()
    ensures Sorted([])
  {
  }

  lemma SameItems(a: seq<int>, b: seq<int>)
    requires multiset(a) == multiset(b)
    ensures |a| == |b|
  {
    assert |multiset(a)| == |a| && |multiset(b)| == |b|;
  }

  // avxsort_rem: std::sort, in place.
  method SortRest(mem: array<int>, p: nat, n: nat)
    requires p + n <= mem.Length
    modifies mem
    ensures WroteOnly(mem[..], old(mem[..]), p, n)
    ensures Sorted(Region(mem[..], p, n)) && multiset(Region(mem[..], p, n)) == multiset(Region(old(mem[..]), p, n))
  {
    hide Sorted, Spliced, StdSorted;
    var x := mem[..][p..p + n];
    assert x == Region(mem[..], p, n);
    StdSorts(x);
    SpliceWrites(mem[..], p, StdSorted(x));
    StoreBlock(mem, p, StdSorted(x));
  }

  lemma BlockSize()
    ensures Pow2(LOG2_BLOCKSIZE) == BLOCKSIZE
  {
    SmallPowers();
    Sixteenfold(6);
    Sixteenfold(10);
    Sixteenfold(14);
    assert Pow2(6) == 64 && Pow2(10) == 1024;
  }

  function FreshChunk(input: nat, output: nat, i: nat): Chunk { Chunk(input + i * BLOCKSIZE, output + i * BLOCKSIZE, BLOCKSIZE) }

  lemma ChunkStart(m: seq<int>, input: nat, output: nat, items: nat)
    requires input + items <= |m| && output + items <= |m| && Apart(input, items, output, items)
    ensures Prefix(m, m, [], 0, input, output, items)
  {
    assert Region(m, input, 0) == [];
  }

  lemma ChunkRoom(m: seq<int>, m0: seq<int>, cs: seq<Chunk>, o: nat, input: nat, output: nat, items: nat, k: nat)
    requires Prefix(m, m0, cs, o, input, output, items) && o + k <= items
    ensures |m| == |m0| && input + o + k <= |m| && output + o + k <= |m| && Apart(input + o, k, output + o, k)
  {
    hide Tiled, ItemsOf, Region;
  }

  // The chunk at offset o of a tiling whose first pieces are blocks.
  lemma {:induction false} TiledAt(m: seq<int>, cs: seq<Chunk>, x: nat, y: nat, n: nat, i: nat)
    requires Tiled(m, cs, x, y, n) && i < |cs| && forall c :: 0 <= c < i ==> cs[c].size == BLOCKSIZE
    ensures i * BLOCKSIZE + cs[i].size <= n && x + n <= |m| && y + n <= |m|
    ensures HeadOk(m, cs[i], x + i * BLOCKSIZE, y + i * BLOCKSIZE, n - i * BLOCKSIZE)
    decreases i
  {
    hide Sorted, Region;
    if i > 0 { TiledAt(m, cs[1..], x + BLOCKSIZE, y + BLOCKSIZE, n - BLOCKSIZE, i - 1); }
  }

  // All chunks but the last are blocks.
  ghost predicate Blocks(chunks: seq<Chunk>, n: nat, items: nat) {
    && 0 < n <= |chunks| && (forall c :: 0 <= c < n - 1 ==> chunks[c].size == BLOCKSIZE)
    && chunks[n - 1].size == items - (n - 1) * BLOCKSIZE && 0 < chunks[n - 1].size <= BLOCKSIZE
  }

  lemma FirstSpots(m: seq<int>, m0: seq<int>, chunks: seq<Chunk>, n: nat, f: Buffers)
    requires PassInv(m, m0, chunks, 0, 0, n, f.input, f.output, f.items) && Blocks(chunks, n, f.items)
    ensures Spots(m, chunks, 0, n, BLOCKSIZE, f) && Pieces(f.items, BLOCKSIZE, n) && Records(chunks, chunks, 0, n)
    ensures Touched(m, m0, f.input, f.output, f.items) && Fit(f, |m|)
  {
    hide Region, Tiled, ItemsOf, Touched, ChunkOk, Blocks;
    var cs := View(chunks, 0, 0, n);
    assert cs == chunks[..n];
    TiledRoom(m, cs, f.input, f.output, f.items);
    BlockPieces(chunks, n, f.items);
    forall i | 0 <= i < n ensures ChunkOk(m, chunks[i], i, BLOCKSIZE, f) {
      FirstSpotAt(m, chunks, n, i, f);
    }
  }

  lemma BlockPieces(chunks: seq<Chunk>, n: nat, items: nat)
    requires Blocks(chunks, n, items)
    ensures Pieces(items, BLOCKSIZE, n) && Records(chunks, chunks, 0, n)
  {
    forall c | 0 <= c < n ensures chunks[c] == Recorded(chunks[c]) {
      assert chunks[c].size % UINT32 == chunks[c].size;
    }
  }

  lemma FirstSpotAt(m: seq<int>, chunks: seq<Chunk>, n: nat, i: nat, f: Buffers)
    requires i < n && Blocks(chunks, n, f.items) && Tiled(m, chunks[..n], f.input, f.output, f.items)
    ensures ChunkOk(m, chunks[i], i, BLOCKSIZE, f)
  {
    hide Region, Sorted, Tiled, ItemsOf, Touched, ChunkOk;
    TiledAt(m, chunks[..n], f.input, f.output, f.items, i);
    FirstSpot(m, chunks[i], i, n, f);
  }

  lemma FirstSpot(m: seq<int>, c: Chunk, i: nat, n: nat, f: Buffers)
    requires i < n && c.size == (if i < n - 1 then BLOCKSIZE else f.items - (n - 1) * BLOCKSIZE) && 0 < c.size <= BLOCKSIZE
    requires i * BLOCKSIZE + c.size <= f.items && f.input + f.items <= |m| && f.output + f.items <= |m|
    requires HeadOk(m, c, f.input + i * BLOCKSIZE, f.output + i * BLOCKSIZE, f.items - i * BLOCKSIZE)
    ensures ChunkOk(m, c, i, BLOCKSIZE, f)
  {
    hide Sorted, Region;
    assert c.size % UINT32 == c.size;
  }

  // Work on one chunk: nothing is written outside of it, and nothing but its own items.
  ghost predicate Worked(m': seq<int>, m: seq<int>, p: nat, q: nat, n: nat) {
    p + n <= |m| && Touched(m', m, p, q, n) && NoNews(m', m, multiset(Region(m, p, n)))
  }

  // It stays on one side of the word.
  lemma QuietChunk(m': seq<int>, m: seq<int>, i: nat, n: nat, f: Buffers)
    requires Quiet(m, f) && i * BLOCKSIZE + n <= f.items && n <= BLOCKSIZE
    requires Worked(m', m, f.input + i * BLOCKSIZE, f.output + i * BLOCKSIZE, n)
    ensures Quiet(m', f)
  {
    hide Touched, NoNews, Quiet, Region;
    var off := i * BLOCKSIZE;
    if off + n > UINT32 { ZeroRegion(m, f, f.input, off, n); }
    QuietWork(m', m, off, n, multiset(Region(m, f.input + off, n)), f);
  }

  method SortChunks(mem: array<int>, input: nat, output: nat, nitems: nat) returns (chunks: seq<Chunk>, nchunks: nat)
    requires nitems > 0 && input + nitems <= mem.Length && output + nitems <= mem.Length && Apart(input, nitems, output, nitems)
    modifies mem
    ensures PassInv(mem[..], old(mem[..]), chunks, 0, 0, nchunks, input, output, nitems)
    ensures Blocks(chunks, nchunks, nitems)
    ensures Quiet(old(mem[..]), Buffers(input, output, nitems)) ==> Quiet(mem[..], Buffers(input, output, nitems))
  {
    hide Prefix, PassInv, Apart, Quiet, Worked;
    ghost var m0 := mem[..];
    ghost var f := Buffers(input, output, nitems);
    nchunks := nitems / BLOCKSIZE;
    var rem := nitems % BLOCKSIZE;
    chunks := seq(nchunks + 1, i requires 0 <= i <= nchunks => FreshChunk(input, output, i));
    ChunkStart(m0, input, output, nitems);
    var i := 0;
    assert chunks[..0] == [];
    while i < nchunks
      invariant i <= nchunks < |chunks| == nchunks + 1
      invariant forall c :: i <= c <= nchunks ==> chunks[c] == FreshChunk(input, output, c)
      invariant forall c :: 0 <= c < i ==> chunks[c].size == BLOCKSIZE
      invariant Prefix(mem[..], m0, chunks[..i], i * BLOCKSIZE, input, output, nitems)
      invariant Quiet(m0, f) ==> Quiet(mem[..], f)
    {
      ghost var done, m := chunks[..i], mem[..];
      var c := SortBlockOf(mem, m0, chunks[i], done, i * BLOCKSIZE, input, output, nitems);
      if Quiet(m, f) { QuietChunk(mem[..], m, i, BLOCKSIZE, f); }
      chunks := chunks[i := c];
      i := i + 1;
      assert chunks[..i] == done + [c];
    }
    if rem > 0 {
      ghost var done, m := chunks[..i], mem[..];
      var c := SortRestOf(mem, m0, chunks[i], rem, done, i * BLOCKSIZE, input, output, nitems);
      if Quiet(m, f) { QuietChunk(mem[..], m, i, rem, f); }
      chunks := chunks[i := c];
      nchunks := nchunks + 1;
      assert chunks[..nchunks] == done + [c];
    }
    ChunksDone(mem[..], m0, chunks, nchunks, input, output, nitems);
  }

  // avxsort_block on one chunk, and the swap of its pointers.
  method SortBlockOf(mem: array<int>, ghost m0: seq<int>, fresh': Chunk, ghost done: seq<Chunk>, ghost o: nat,
                     ghost input: nat, ghost output: nat, ghost items: nat) returns (c: Chunk)
    requires Prefix(mem[..], m0, done, o, input, output, items) && o + BLOCKSIZE <= items
    requires fresh' == Chunk(input + o, output + o, BLOCKSIZE)
    modifies mem
    ensures c.size == BLOCKSIZE && Prefix(mem[..], m0, done + [c], o + BLOCKSIZE, input, output, items)
    ensures Worked(mem[..], old(mem[..]), input + o, output + o, BLOCKSIZE)
  {
    hide Prefix, BlockResult, Touched, Sorted, Pow2, Worked;
    ghost var m := mem[..];
    BlockSize();
    ChunkRoom(m, m0, done, o, input, output, items, BLOCKSIZE);
    var sorted, spare := SortBlock(mem, fresh'.cur, fresh'.tmp, LOG2_BLOCKSIZE);
    BlockDone(mem[..], m, fresh'.cur, fresh'.tmp, BLOCKSIZE);
    c := Chunk(sorted, spare, BLOCKSIZE);
    ChunkDone(mem[..], m, m0, done, c, o, input, output, items);
  }

  method SortRestOf(mem: array<int>, ghost m0: seq<int>, fresh': Chunk, rem: nat, ghost done: seq<Chunk>, ghost o: nat,
                    ghost input: nat, ghost output: nat, ghost items: nat) returns (c: Chunk)
    requires Prefix(mem[..], m0, done, o, input, output, items) && o + rem == items
    requires fresh' == Chunk(input + o, output + o, BLOCKSIZE)
    modifies mem
    ensures c.size == rem && Prefix(mem[..], m0, done + [c], items, input, output, items)
    ensures Worked(mem[..], old(mem[..]), input + o, output + o, rem)
  {
    hide Prefix, Touched, Sorted, WroteOnly, Worked;
    ghost var m := mem[..];
    ChunkRoom(m, m0, done, o, input, output, items, rem);
    SortRest(mem, fresh'.cur, rem);
    RestDone(mem[..], m, fresh'.cur, fresh'.tmp, rem);
    c := Chunk(fresh'.cur, fresh'.tmp, rem);
    ChunkDone(mem[..], m, m0, done, c, o, input, output, items);
  }

  lemma BlockDone(m: seq<int>, m0: seq<int>, p: nat, q: nat, n: nat)
    requires BlockResult(m, m0, p, q, n, p)
    ensures |m| == |m0| && p + n <= |m| && Touched(m, m0, p, q, n) && Worked(m, m0, p, q, n)
    ensures Sorted(Region(m, p, n)) && multiset(Region(m, p, n)) == multiset(Region(m0, p, n))
  {
  }

  lemma RestDone(m: seq<int>, m0: seq<int>, p: nat, q: nat, n: nat)
    requires WroteOnly(m, m0, p, n) && |m| == |m0| && multiset(Region(m, p, n)) == multiset(Region(m0, p, n))
    ensures Touched(m, m0, p, q, n) && Worked(m, m0, p, q, n)
  {
    TouchedStep(m, m0, m0, p, q, n, p);
    NewsWritten(m, m0, m0, p, n, multiset(Region(m0, p, n)));
  }

  lemma ChunksDone(m: seq<int>, m0: seq<int>, chunks: seq<Chunk>, n: nat, input: nat, output: nat, items: nat)
    requires n <= |chunks| && Prefix(m, m0, chunks[..n], items, input, output, items)
    ensures PassInv(m, m0, chunks, 0, 0, n, input, output, items)
  {
    hide Tiled, ItemsOf, Touched, Region;
    assert View(chunks, 0, 0, n) == chunks[..n];
  }

  // ---- the whole sort ----

  // ceil(log2(n))
  function CeilLog2(n: nat): (r: nat)
    requires n > 0
    ensures n <= Pow2(r) && (r > 0 ==> Pow2(r - 1) < n)
  {
    if n == 1 then 0 else 1 + CeilLog2((n + 1) / 2)
  }

  // The n items at p of m are those at q of m0, sorted.
  ghost predicate SortedItems(m: seq<int>, p: nat, m0: seq<int>, q: nat, n: nat) {
    && p + n <= |m| && q + n <= |m0| && Sorted(Region(m, p, n))
    && multiset(Region(m, p, n)) == multiset(Region(m0, q, n))
  }

  lemma PassOne(m: seq<int>, m0: seq<int>, chunks: seq<Chunk>, input: nat, output: nat, items: nat)
    requires PassInv(m, m0, chunks, 0, 0, 1, input, output, items) && |chunks| > 0 && |m| == |m0|
    ensures SortedItems(m, chunks[0].cur, m0, input, items)
  {
    hide Sorted, Region, Tiled, ItemsOf;
    var c := chunks[0];
    assert View(chunks, 0, 0, 1) == [c] + [];
    TiledUncons(m, c, [], input, output, items);
    TiledTotal(m, [], input + c.size, output + c.size, items - c.size);
    OneItem(m, c);
  }

  lemma OneItem(m: seq<int>, c: Chunk)
    requires c.cur + c.size <= |m|
    ensures Total([]) == 0 && ItemsOf(m, [c] + []) == multiset(Region(m, c.cur, c.size))
  {
    assert [c] + [] == [c];
  }

  lemma WordIsPower()
    ensures Pow2(32) == UINT32
  {
    BlockSize();
    Sixteenfold(18);
    Sixteenfold(22);
    Sixteenfold(26);
    Sixteenfold(30);
    assert Pow2(31) == 2 * Pow2(30);
  }

  lemma PowerAligned(i: nat)
    ensures Aligned(Pow2(i)) && (Pow2(i) < UINT32 <==> i < 32)
  {
    hide Pow2;
    WordIsPower();
    if i < 32 {
      Halved(i + 1);
      Halved(32);
      PowersGrow(i, 31);
      PowerSum(31 - i, i + 1);
      assert UINT32 == Pow2(31 - i) * (2 * Pow2(i));
    } else {
      PowersGrow(32, i);
      PowerSum(i - 32, 32);
      assert Pow2(i) == Pow2(i - 32) * UINT32;
    }
  }

  lemma PassesInWord(nitems: nat)
    requires nitems > 0
    ensures nitems <= UINT32 <==> CeilLog2(nitems) <= 32
  {
    hide Pow2;
    WordIsPower();
    var logN := CeilLog2(nitems);
    if logN <= 32 { PowersGrow(logN, 32); } else { PowersGrow(32, logN - 1); }
  }

  lemma OnePiece(items: nat, b: nat, n: nat)
    requires Pieces(items, b, n) && items <= b
    ensures n == 1
  {
    if n > 1 { Product(1, n - 1, b); }
  }

  // More than 2^32 items, of which the first is positive and those behind the first 2^32 are 0.
  ghost predicate Lopsided(m: seq<int>, f: Buffers) { f.items > UINT32 && Quiet(m, f) && m[f.input] > 0 }

  // avxsort_unaligned, which merges 16 items at a time, and avxsort_aligned, which merges 8.  Up to 2^32 items are sorted,
  // and are at `sorted`, in one of the two buffers; more than that are not if they lie lopsided.
  method SortItems(mem: array<int>, width: nat, input: nat, output: nat, nitems: nat) returns (sorted: nat, spare: nat)
    requires width == 16 || width == 8
    requires input + nitems <= mem.Length && output + nitems <= mem.Length && Apart(input, nitems, output, nitems)
    modifies mem
    ensures (sorted == input && spare == output) || (sorted == output && spare == input)
    ensures nitems <= UINT32 ==> SortedItems(mem[..], sorted, old(mem[..]), input, nitems)
    ensures Lopsided(old(mem[..]), Buffers(input, output, nitems)) ==> !SortedItems(mem[..], sorted, old(mem[..]), input, nitems)
    ensures Touched(mem[..], old(mem[..]), input, output, nitems)
  {
    hide PassInv, Pow2, CeilLog2, Sorted, Touched, Quiet, Spots, Pieces, Aligned, SortedItems;
    ghost var m0 := mem[..];
    if nitems == 0 {
      Nothing(m0, input, output);
      return output, input;
    }
    ghost var f := Buffers(input, output, nitems);
    var chunks, nchunks := SortChunks(mem, input, output, nitems);
    ghost var full := chunks;
    FirstSpots(mem[..], m0, chunks, nchunks, f);
    BlockSize();
    var logN := CeilLog2(nitems);
    var i := LOG2_BLOCKSIZE;
    while i < logN
      invariant i == LOG2_BLOCKSIZE || i <= logN
      invariant Pieces(nitems, Pow2(i), nchunks) && Fit(f, mem.Length) && LOG2_BLOCKSIZE <= i
      invariant Records(chunks, full, 0, nchunks) && Spots(mem[..], full, 0, nchunks, Pow2(i), f)
      invariant Touched(mem[..], m0, input, output, nitems)
      invariant i <= 32 ==> PassInv(mem[..], m0, full, 0, 0, nchunks, input, output, nitems)
      invariant Quiet(m0, f) ==> Quiet(mem[..], f)
    {
      PowerAligned(i);
      Halved(i + 1);
      chunks, nchunks, full := MergePass(mem, width, chunks, nchunks, m0, full, Pow2(i), f, i < 32);
      i := i + 1;
    }
    PowersGrow(logN, i);
    OnePiece(nitems, Pow2(i), nchunks);
    LastChunk(mem[..], chunks, full, Pow2(i), f);
    PassesInWord(nitems);
    if nitems <= UINT32 { PassOne(mem[..], m0, full, input, output, nitems); }
    if Lopsided(m0, f) { NotSorted(mem[..], full[0].cur, m0, f); }
    return chunks[0].cur, chunks[0].tmp;
  }

  lemma LastChunk(m: seq<int>, chunks: seq<Chunk>, full: seq<Chunk>, b: nat, f: Buffers)
    requires Records(chunks, full, 0, 1) && Spots(m, full, 0, 1, b, f)
    ensures |chunks| == |full| > 0 && chunks[0].cur == full[0].cur && chunks[0].tmp == full[0].tmp
    ensures (chunks[0].cur == f.input && chunks[0].tmp == f.output) || (chunks[0].cur == f.output && chunks[0].tmp == f.input)
  {
    assert ChunkOk(m, full[0], 0, b, f);
  }

  lemma LastIsMost(s: seq<int>, v: int)
    ensures Sorted(s) && v in multiset(s) ==> |s| > 0 && v <= s[|s| - 1]
  {
    if Sorted(s) && v in multiset(s) {
      var i :| 0 <= i < |s| && s[i] == v;
      assert i == |s| - 1 || s[i] <= s[|s| - 1];
    }
  }

  // The last item is one of the zeros, but the first was positive.
  lemma NotSorted(m: seq<int>, p: nat, m0: seq<int>, f: Buffers)
    requires Lopsided(m0, f) && Quiet(m, f) && (p == f.input || p == f.output)
    ensures !SortedItems(m, p, m0, f.input, f.items)
  {
    hide Sorted;
    var n := f.items;
    var s, s0 := Region(m, p, n), Region(m0, f.input, n);
    assert Far(p + n - 1, f) && s[n - 1] == m[p + n - 1] == 0;
    assert s0[0] == m0[f.input] && s0[0] in multiset(s0);
    LastIsMost(s, s0[0]);
  }

  // ---- more than 2^32 items ----

  // The last pass merges two chunks.  The sizes recorded for them are what its merge reads and stores: they add up
  // to all items exactly up to 2^32 items.
  lemma LastPassExactly(nitems: nat)
    requires nitems > BLOCKSIZE
    ensures var b := Pow2(CeilLog2(nitems) - 1);
            && Pieces(nitems, b, 2)
            && (SizeAt(nitems, b, 0) % UINT32 + SizeAt(nitems, b, 1) % UINT32 == nitems <==> nitems <= UINT32)
  {
    hide Pow2, Aligned;
    var logN := CeilLog2(nitems);
    BlockSize();
    Halved(1);
    if logN > 0 { Halved(logN); }
    PassesInWord(nitems);
    PowerAligned(logN - 1);
    AlignedWord(Pow2(logN - 1));
    TwoPieces(nitems, Pow2(logN - 1));
  }

  lemma TwoPieces(items: nat, b: nat)
    requires b < items <= 2 * b && (2 * b <= UINT32 || b % UINT32 == 0)
    ensures Pieces(items, b, 2) && SizeAt(items, b, 0) == b && SizeAt(items, b, 1) == items - b
    ensures (items <= UINT32) <==> SizeAt(items, b, 0) % UINT32 + SizeAt(items, b, 1) % UINT32 == items
  {
  }

  // With one item too many the last merge takes one item.
  lemma OneItemTooMany()
    ensures CeilLog2(UINT32 + 1) == 33 && Pow2(32) == UINT32
    ensures SizeAt(UINT32 + 1, UINT32, 0) % UINT32 == 0 && SizeAt(UINT32 + 1, UINT32, 1) % UINT32 == 1
  {
    hide Pow2, CeilLog2;
    WordIsPower();
    Halved(33);
    var logN := CeilLog2(UINT32 + 1);
    if logN < 33 { PowersGrow(logN, 32); }
    if logN > 33 { PowersGrow(33, logN - 1); }
    TwoPieces(UINT32 + 1, UINT32);
  }

  // For every such number of items there is a memory that does not come back sorted.
  method SortLopsided(width: nat, nitems: nat) returns (before: seq<int>, mem: array<int>, sorted: nat)
    requires (width == 16 || width == 8) && nitems > UINT32
    ensures |before| == 2 * nitems && mem.Length == 2 * nitems && (sorted == 0 || sorted == nitems)
    ensures !SortedItems(mem[..], sorted, before, 0, nitems)
  {
    hide SortedItems, Touched;
    mem := new int[2 * nitems](i => if i == 0 then 1 else 0);
    before := mem[..];
    assert Lopsided(before, Buffers(0, nitems, nitems));
    var spare: nat;
    sorted, spare := SortItems(mem, width, 0, nitems, nitems);
  }

  lemma Nothing(m: seq<int>, input: nat, output: nat)
    requires input <= |m| && output <= |m|
    ensures SortedItems(m, output, m, input, 0) && Touched(m, m, input, output, 0)
  {
  }

  // ---- tuples ----

  // A tuple read as one 64-bit integer (avxsort_tuples): the key is the high word, the payload the low one.
  function Item(key: int, payload: nat): int { key * UINT32 + payload }

  // Sorting the integers sorts the tuples by key, those with equal keys by payload, and loses none of them.
  lemma ItemsSortByKey(keys: seq<int>, payloads: seq<nat>, i: nat, j: nat)
    requires i < |keys| == |payloads| && j < |keys| && forall k :: 0 <= k < |keys| ==> payloads[k] < UINT32
    ensures Item(keys[i], payloads[i]) <= Item(keys[j], payloads[j]) <==>
            keys[i] < keys[j] || (keys[i] == keys[j] && payloads[i] <= payloads[j])
    ensures Item(keys[i], payloads[i]) == Item(keys[j], payloads[j]) ==> keys[i] == keys[j] && payloads[i] == payloads[j]
  {
  }
}

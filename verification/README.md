# A model of AllianceDB's joins, sort and queues

AllianceDB joins two relations, or two streams of tuples, in many ways: by radix partitioning, by hash tables, by
sorting, all at once or tuple by tuple, in one thread or in many.  All of them promise the same thing: the number they
report is the number of pairs `(r, s)` with equal keys, what two nested loops would count.  This project models the
four parts of the code that have to work for that, and proves what they promise, for all inputs, all runs and all
schedules of the threads.

The specification is one function, `Joins.JoinCount`.  `Joins` shows that it is symmetric, additive in both arguments,
blind to the order of the tuples, and that it splits over partitions by a digit of the key.

**Queues.**  Every algorithm is a machine whose steps are single accesses to shared memory, taken by the threads in any
order.
`FreeList` is the free list with reference counts of the multi-producer queue, and `FreeListProgress` shows it lock-free;
`DequeueCounters` are the counters by which many consumers share one producer's items; `SpscQueue` is the queue of blocks
for one producer and one consumer; `BlockingQueue` is that queue with the semaphore on top.  `PowerBits` shows that the
shifts and ors of the code round up to a power of two, as `Powers` defines it.  What the calls may answer, above all when
they may answer "no", is in modules of its own: `FreeListAnswers`, `DequeueAnswers`, `SpscAnswers` and `BlockingAnswers`
speak of the states a call goes through, from its first turn to its answer.

**The vectorised sort.**  `Bitonic` has the min/max networks and shows they merge; `Merging` says what a streaming merge
with a register keeps; `Merge` has the merge routines on memory, also where the output overlaps the second input;
`BlockSort` sorts a cache-sized block; `Chunks` is what the driver's arrays record of its chunks, for any number of items,
and `AvxSort` is the driver.

**Radix joins.**  `Clusters` scatters tuples by a digit; `BucketChaining`, `HistogramJoin` and `OptimizedHistogramJoin`
join two partitions; `SingleRadixJoin` is the single-threaded join; `Slicing`, `ParallelPartition` and
`ParallelRadixJoin` are the parallel one, from the histogram barrier to the sum of the threads' results.

**Online joins.**  `HashTables`, `SymmetricHashJoin` and `LatchedBuild` are the chained hash table, the symmetric hash
join and the concurrent build; `ProgressiveMerge` and `ProgressiveMergeJoin` are the sort-merge join that reports
matches while it creates and merges runs; `Shuffling` and `ShuffledJoin` distribute the tuples over the threads.

A method models a loop that changes arrays or fields in place, and is proved against a function of its inputs; lemmas
then prove what that function means.  Threads are state machines: an invariant that every step of every thread keeps,
a theorem over all schedules, and for the joins two lemmas that together say a run cannot hang: some thread can always
go on, and every step that does anything leaves less to do.

## Where the code does less than it promises

The model does what the code does.  Six times that is not what its comments or its use suggest; then there is an input
at which it fails, and the exact condition under which it does not.

- *Sorting more than 2^32 items.*  The chunk sizes of the driver are 32-bit words (`avxsort.cpp:59`) and wrap around.
  `AvxSort.SortItems` has no bound: up to 2^32 items come back as a sorted permutation, and a memory of more that is
  lopsided (the first item positive, zeros behind the first 2^32) does not.  `AvxSort.SortLopsided` makes such a memory
  for every number of items above 2^32.  `AvxSort.LastPassExactly` says where they are lost: the sizes recorded for
  the two chunks of the last pass add up to all items if and only if there are at most 2^32; with one item more
  (`AvxSort.OneItemTooMany`) they are 0 and 1.
- *`histogram_optimized_join` compares payloads.*  A tuple is stored payload first (`types.h:67-71`), so the lanes 0 and
  2 which line 548 of `parallel_radix_join.cpp` adds up hold payloads; the comment speaks of keys.
  `OptimizedHistogramJoin.RightExactly` says for which relations, and which tuple left behind them in memory, the count
  is right nevertheless, and `OptimizedHistogramJoin.MatchesLost` gives two relations with two matches, of which none is
  counted.  On an empty relation its clearing loop counts an unsigned word below zero and does not end; the caller never
  passes one.
- *Partitions on a node without a thread.*  The parallel radix join keeps one queue of partitions per NUMA node, and a
  thread looks at its own node's queue only.  `ParallelRadixJoin.EveryRunCounts` gives the result of every run, with each
  of the three join functions; `ParallelRadixJoin.RightExactly`: it is the join if and only if the partitions on nodes
  without a thread have no matches.  `ParallelRadixJoin.FourThreadsExactly`: relations that have matches at all are
  joined right by every run, wherever the memory is, if and only if there are at least four threads.
  `ParallelRadixJoin.ThreeThreadsExample` is a run of three threads that loses the one match there is.
- *The progressive merge join counts leftovers twice* when all tuples of both relations come to the same thread: the
  branch that has received everything merges the leftovers, and `merge()` does it again.
  `ProgressiveMergeJoin.JoinAll` gives the result for every order of arrival from the sizes, the steps and the arrivals:
  the number of runs is `Runs`, the leftovers are what they do not take, and the result is right if and only if, when
  everything comes here, no leftover has a partner.  `ProgressiveMergeJoin.OnePairFourTimes` is a concrete run.
- *`ContRandShuffler`* allocates the rounded-down number of groups, and writes past them exactly if the group size
  neither divides the number of threads nor reaches it (`Shuffling.ContRandShuffler`).
- *`pmj`* takes its first run before it looks at the sizes: it stays within the relations if and only if both are at
  least as long as a step, and then it counts right (`ProgressiveMergeJoin.JoinLazily`).
  `ProgressiveMergeJoin.ShortRelation` has 639 tuples, one less than the default step.

## Model

| member | source | states |
|---|---|---|
| `FreeList.EveryRunIsSafe` | hashing/helper/concurrentqueue.h:1436-1516 | Under every schedule of any number of threads (fewer than the count field can hold): no two threads are responsible for the same node, and none for a node a client holds; the assertion after the pop holds; a pop that succeeds installs the node's own successor (no ABA); the list is finite, without repetition and apart from held and moving nodes; when all threads are idle every node is on the list or held. |
| `FreeList.KeepsInv` | hashing/helper/concurrentqueue.h:1436-1516 | Every atomic step of every thread keeps the invariant that ties each node's one place (list, client, one thread, waiting) to the value of its reference word. |
| `FreeList.NoNodeIsLost` | hashing/helper/concurrentqueue.h:1436-1516 | When all threads are idle, every node is on the list or with a client: no push that was left to another thread is forgotten. |
| `FreeList.AssertionHolds` | hashing/helper/concurrentqueue.h:1468-1471 | The flag "should be on the free list" is down when a node has just been popped. |
| `FreeList.WaitingNode` | hashing/helper/concurrentqueue.h:1478-1484 | The thread that sees the flag and one reference while lowering the count is the node's last visitor, and the node is waiting to be pushed. |
| `FreeList.SoloAdd` | hashing/helper/concurrentqueue.h:1436-1447 | An undisturbed `add` takes six steps and puts the node in front of the list. |
| `FreeList.SoloTryGet` | hashing/helper/concurrentqueue.h:1449-1489 | An undisturbed `try_get` takes the node in front of the list in eight steps, or finds none in two. |
| `FreeListProgress.SomeCallReturns` | hashing/helper/concurrentqueue.h:1436-1516 | The free list is lock-free: after any run, among `MovesPerReturn` consecutive moves in calls, whichever threads make them, one ends its call. |
| `FreeListProgress.PotentialFalls` | hashing/helper/concurrentqueue.h:1436-1516 | Every move in a call that does not end the call lowers one potential of the whole state. |
| `FreeListProgress.EffortFalls` | hashing/helper/concurrentqueue.h:1449-1516 | As long as the head stays, retries included, every move brings the threads together closer to moving it or to the end of a call: a failed compare-and-swap has been paid for by the one that succeeded. |
| `FreeListAnswers.EveryTryGetAnswers` | hashing/helper/concurrentqueue.h:1449-1489 | In every run every `try_get` ends with a node that nobody held and that this call has popped from the front, or without one; then the list was empty at some moment of that call. |
| `FreeListAnswers.EveryAddAnswers` | hashing/helper/concurrentqueue.h:1436-1447 | In every run every `add` takes its node from the client with its first turn, leaves it in front of the list or to a thread that still visits it with its last one, and with none gives a client a node or moves another one. |
| `DequeueCounters.EveryRunIsSafe` | hashing/helper/concurrentqueue.h:1949-2046 | Over all interleavings of a producer and any number of consumers: headIndex never passes tailIndex, the indices 0, 1, 2, ... are claimed in this order and once each, a thread about to claim finds an item there, and the optimistic count is claims plus overcommits plus attempts in flight. |
| `DequeueCounters.SuccessesBelowTail` | hashing/helper/concurrentqueue.h:1985-1997 | If every attempt that succeeded had room below tailIndex, counting only what was given back before it, then there are at most tailIndex successes. |
| `DequeueCounters.KeepsInv` | hashing/helper/concurrentqueue.h:1949-2046 | Every step of a producer or consumer keeps the account of every attempt: undecided, successful or given back. |
| `DequeueCounters.AloneTakesOldest` | hashing/helper/concurrentqueue.h:1949-2046 | A consumer running alone takes the oldest item exactly if there is one, and otherwise leaves all counters as they are. |
| `DequeueCounters.ReturnsInTime` | hashing/helper/concurrentqueue.h:1949-2046 | A call has returned when its thread has made a fixed number of moves, whatever the producer and the other consumers do in between: wait-free. |
| `DequeueAnswers.EveryCallAnswers` | hashing/helper/concurrentqueue.h:1949-2046 | In every run every call claims the next index, or none; then there was a moment of the call at which claims, the others' attempts in flight and the attempts given back since the call looked at them had reached the number of items there were when it began. |
| `DequeueAnswers.AsManyAsThereAre` | hashing/helper/concurrentqueue.h:1949-2046 | Between two moments at which nobody is in a call, n calls with k items free at the first succeed at least min(k, n) times, attempts given back or not, and at most as often as there are calls or, with those published meanwhile, items; so with nothing published, exactly min(k, n) times. |
| `SpscQueue.EveryRunIsSafe` | hashing/helper/readerwriterqueue.h:270-601 | For every interleaving of one producer's and one consumer's accesses, with block growth and stale copies of front and tail: what was taken is a prefix of what was published, in order; accepted and returned elements agree with that; the assertions of lines 334 and 548 hold. |
| `SpscAnswers.EveryRunAnswers` | hashing/helper/readerwriterqueue.h:213-601 | Every call of every run: an enqueue that answers true has published its own element, one that answers false nothing; it adds a block or answers false only if at some moment of the call the tail block was full and no block of the ring free; `try_enqueue` never adds a block, and `enqueue` answers false only if it gets no memory.  A dequeue returns the one element it has consumed, or none; then the queue was empty at some moment of the call. |
| `SpscAnswers.EveryRunGrows` | hashing/helper/readerwriterqueue.h:562-580 | The sizes of all blocks are powers of two in every run, and an added block is twice as large as the largest until that has MAX_BLOCK_SIZE slots, then as large. |
| `SpscAnswers.AdvanceFrees` | hashing/helper/readerwriterqueue.h:336-339 | The block the consumer leaves is free for the producer. |
| `SpscQueue.KeepsInv` | hashing/helper/readerwriterqueue.h:270-601 | Every step keeps the ring: published elements are the consumed ones followed by the contents of the blocks from the front block to the tail block; the other blocks are empty. |
| `SpscQueue.CallsReturn` | hashing/helper/readerwriterqueue.h:270-601 | Every own step brings the producer's or the consumer's call closer to its end, whatever the other thread does: both calls are wait-free. |
| `SpscQueue.StartInv` | hashing/helper/readerwriterqueue.h:89-145 | The constructor's ring of blocks, for every capacity, satisfies the invariant. |
| `SpscQueue.ContentsPush` | hashing/helper/readerwriterqueue.h:513-529 | Storing at the tail and advancing it, with wrap-around, appends one element to the block's contents. |
| `SpscQueue.ContentsPop` | hashing/helper/readerwriterqueue.h:299-308 | Advancing the front, with wrap-around, removes the oldest element, which is the one read. |
| `SpscQueue.PopStep` | hashing/helper/readerwriterqueue.h:299-308 | Publishing the new front keeps the ring and hands over exactly the oldest element. |
| `SpscQueue.AdvanceStep` | hashing/helper/readerwriterqueue.h:312-339 | The consumer leaves the front block only when the tail block is further on, and neither the ring nor the contents of the queue change. |
| `SpscQueue.StoreTailBlockStep` | hashing/helper/readerwriterqueue.h:532-561 | The producer moves on to the next block of the ring, which is not the consumer's, and the element in it becomes the newest. |
| `SpscQueue.LinkStep` | hashing/helper/readerwriterqueue.h:562-590 | Linking a new block behind the tail block keeps the ring closed, and the queue's contents. |
| `SpscQueue.EmptyNow` | hashing/helper/readerwriterqueue.h:292-309 | An empty front block that is also the tail block means that everything published has been consumed. |
| `BlockingQueue.EveryRunIsSafe` | hashing/helper/readerwriterqueue.h:763-829 | Under every interleaving, with and without time limits: successful waits never exceed signals, `oldCount >= -1` in signal, the inner dequeue after a successful wait never fails and keeps the order, a wait that fails restores the count, a consumer sleeping in the kernel with elements in the queue has a wake-up on its way, and at rest the count is the number of elements. |
| `BlockingQueue.KeepsInv` | hashing/helper/atomicops.h:606-678 | Every step of wait, timed wait and signal keeps the account of count, kernel semaphore and elements. |
| `BlockingAnswers.EveryRunAnswers` | hashing/helper/readerwriterqueue.h:738-829 | Every call of every run: answering true it has taken exactly the oldest element, answering false none; `try_dequeue` answers false only if all completed signals were answered at some moment of the call, a timed wait only if so after its time had run out in the kernel, `wait_dequeue` and negative timeouts never; a call with a limit never sleeps without one.  An enqueue enters its element once and signals once, or leaves no trace. |
| `BlockingAnswers.CallsReturn` | hashing/helper/atomicops.h:606-678 | Own steps bring a call to its end, but that it sleeps while all signals are answered, or until the producer has posted what it has counted. |
| `Powers.CeilToPow2` | hashing/helper/readerwriterqueue.h:611-622 | The least power of two not below x. |
| `PowerBits.CeilToPow2Word` | hashing/helper/readerwriterqueue.h:611-622 | The shifts and ors compute that power of two in a 64-bit word for all x from 1 to 2^63, and 0 for 0 and for larger x. |
| `PowerBits.NextPow2` | hashing/joins/common_functions.cpp:32-41 | The same for the macro, on 32-bit words and up to 2^31. |
| `PowerBits.Smear` | hashing/helper/readerwriterqueue.h:614-619 | One shift and or doubles the number of ones in front, up to all digits of the word. |
| `PowerBits.OrBits` | hashing/helper/readerwriterqueue.h:614-619 | The model's `or` is the bitwise one. |
| `PowerBits.MaskSelectsDigit` | hashing/joins/parallel_radix_join.cpp:68 | `HASH_BIT_MODULO`: the mask of k ones shifted to bit s, and the shift back by s, select the digit of the key by which the model partitions. |
| `Bitonic.HalfClean` | hashing/helper/avxcommon.h:121-131 | Lane-wise minimum and maximum of the halves of a bitonic sequence are bitonic, and every minimum is at most every maximum (no 0-1 principle needed). |
| `Bitonic.SorterSorts` | hashing/helper/avxcommon.h:87-131 | The recursive half-cleaner sorts every bitonic sequence whose length is a power of two. |
| `Bitonic.SorterKeeps` | hashing/helper/avxcommon.h:87-131 | It loses and invents nothing. |
| `Bitonic.AscendingDescending` | hashing/helper/avxcommon.h:135-140 | A sorted sequence followed by a reversed sorted one is bitonic. |
| `Bitonic.Bitonic4IsSorter` | hashing/helper/avxcommon.h:87-116 | The shuffles, blends and min/max of BITONIC4, lane by lane, are the recursive half-cleaner on eight elements. |
| `Bitonic.Bitonic8IsSorter` | hashing/helper/avxcommon.h:121-131 | BITONIC8 is the recursive half-cleaner on sixteen. |
| `Bitonic.Network4IsSorter` | hashing/helper/avxcommon.h:135-140 | BITONIC_MERGE4 with its reversal is the half-cleaner on a register followed by a reversed one. |
| `Bitonic.Network8IsSorter` | hashing/helper/avxcommon.h:144-158 | The same for BITONIC_MERGE8. |
| `Bitonic.Network16IsSorter` | hashing/helper/avxcommon.h:161-183 | The same for BITONIC_MERGE16. |
| `Bitonic.NetworkMerges` | hashing/helper/avxcommon.h:87-183 | Two sorted registers of 4, 8 or 16 items leave any of the three networks sorted, low half before high half, with the same items. |
| `Merging.TakeBlock` | hashing/helper/avxsort_core.h:142-155 | One turn of the vector loop, with the block of the smaller head: the output stays sorted and below everything left, and output, register and lists together keep the items. |
| `Merge.MergeBlock` | hashing/helper/avxsort_core.h:453-469 | Load a block, send it through the network with the register, store the low half, keep the high half. |
| `Merge.MergeEqLen` | hashing/helper/avxsort_core.h:116-390 | Two sorted lists of the same length, a multiple of the width, become their sorted merge in the output; nothing else in memory changes. |
| `Merge.VarLenFlushA` | hashing/helper/avxsort_core.h:472-481 | Writing the register back over the last block read from A keeps A's rest sorted and every item in its place, even where B overlaps the output. |
| `Merge.VarLenFlushB` | hashing/helper/avxsort_core.h:482-487 | The same for B. |
| `Merge.VectorLoop` | hashing/helper/avxsort_core.h:412-495 | The vector loop and the flush leave a sorted prefix and two sorted rests that together have all items, and never write on an item of B that is still to be read. |
| `Merge.CopyRestA` | hashing/helper/avxsort_core.h:515-543 | The rest of A is copied in blocks of eight, then singly. |
| `Merge.CopyRestB` | hashing/helper/avxsort_core.h:544-573 | The rest of B is copied to where it may already be. |
| `Merge.MergeVarLen` | hashing/helper/avxsort_core.h:402-574 | Two sorted lists of any lengths become their sorted merge in the output, also when list B starts exactly `lenA` behind the output; memory outside lists and output is unchanged, and whatever cell has changed holds an item of the lists. |
| `BlockSort.InRegisterSorts` | hashing/helper/avxsort_core.h:1225-1284 | The odd-even network and the transpositions turn four registers into four sorted ones with the same items. |
| `BlockSort.FourRunsSorted` | hashing/helper/avxsort_core.h:1225-1284 | Sixteen items in memory become four sorted runs of four. |
| `BlockSort.SortFours` | hashing/helper/avxsort_core.h:1294-1300 | The whole block becomes sorted runs of four, in place. |
| `BlockSort.MergeLevel` | hashing/helper/avxsort_core.h:1311-1377 | One level: sorted runs of length r in one buffer become sorted runs of length 2r in the other. |
| `BlockSort.MergeQuarters` | hashing/helper/avxsort_core.h:1384-1393 | The last level but one: four runs become two. |
| `BlockSort.MergeTwoHalves` | hashing/helper/avxsort_core.h:1400-1403 | The last level: two runs become one. |
| `BlockSort.SortBlock` | hashing/helper/avxsort_core.h:1286-1408 | A block of any power-of-two size from 64 on ends sorted, with the same items, in the buffer the exponent's parity names; nothing outside the two buffers changes, and nothing but the block's items is written. |
| `Chunks.PairTurn` | hashing/helper/avxsort.cpp:86-103 | For any number of items: after the merge of two neighbours, by their recorded sizes, every chunk is still at its own offset, of the length the pass gives it, and sorted as far as its recorded size says. |
| `Chunks.HalfPieces` | hashing/helper/avxsort.cpp:84-114 | A pass makes pieces of twice the length out of the pieces, odd last piece included. |
| `Chunks.QuietPair` | hashing/helper/avxsort.cpp:86-103 | If both buffers hold nothing but zeros behind the first 2^32 places, a merge by recorded sizes leaves it so. |
| `AvxSort.SortItems` | hashing/helper/avxsort.cpp:48-211 | For every number of items, both drivers, 16-wide and 8-wide: up to 2^32 items are, behind the pointer that comes back as output, a sorted permutation of the input's, odd last chunks in the other buffer included; more than 2^32 that lie lopsided are not. |
| `AvxSort.SortLopsided` | hashing/helper/avxsort.cpp:48-211 | For every number of items above 2^32 there is a memory whose items do not come back as a sorted permutation. |
| `AvxSort.LastPassExactly` | hashing/helper/avxsort.cpp:59-103 | The last pass merges two chunks, and the sizes recorded for them add up to all items if and only if there are at most 2^32. |
| `AvxSort.OneItemTooMany` | hashing/helper/avxsort.cpp:59-103 | Of 2^32 + 1 items the last merge takes 0 from the first chunk and 1 from the second. |
| `AvxSort.NotSorted` | hashing/helper/avxsort.cpp:116-118 | A positive first item among zeros cannot end in a sorted permutation whose last place is still 0. |
| `AvxSort.MergePass` | hashing/helper/avxsort.cpp:84-118 | One pass turns n chunks of length b into ceil(n/2) of length 2b, sorted as far as their recorded sizes say, and records the sizes modulo 2^32; as long as no chunk has 2^32 items before it, the new chunks are sorted whole, tile the items and keep them. |
| `AvxSort.MergeTurn` | hashing/helper/avxsort.cpp:86-103 | One merge joins two neighbours; the chunks before and after keep place, order and items. |
| `AvxSort.MergeResult` | hashing/helper/avxsort.cpp:93-99 | The merged chunk lies at A's offset in the other buffer, sorted, with both chunks' items. |
| `AvxSort.SortChunks` | hashing/helper/avxsort.cpp:56-82 | The input becomes sorted chunks of BLOCKSIZE and a sorted rest that tile it; the pointers name the buffer each is in. |
| `AvxSort.SortRest` | hashing/helper/avxsort_core.h:1442-1534 | Fewer than BLOCKSIZE items are sorted in place. |
| `AvxSort.CeilLog2` | hashing/helper/avxsort.cpp:84-85 | The rounded-up binary logarithm: 2^(r-1) < n <= 2^r. |
| `Joins.JoinSplits` | hashing/joins/parallel_radix_join.cpp:1074-1223 | The join is the sum of the joins of the parts with the same digit. |
| `Joins.JoinPermutation` | hashing/joins/parallel_radix_join.cpp:1074-1223 | The join depends on the tuples, not on their order. |
| `Joins.JoinSymmetric` | hashing/helper/localjoiner.cpp:73-94 | The join of R and S is the join of S and R. |
| `Joins.PartsKeep` | hashing/joins/parallel_radix_join.cpp:573-678 | The parts, one behind the other, are a permutation of the relation. |
| `Joins.PartOfPart` | hashing/joins/parallel_radix_join.cpp:688-729 | Partitioning by bits 0-3 and then by bits 4-7 is partitioning by all eight. |
| `Slicing.SlicesJoin` | hashing/joins/parallel_radix_join.cpp:1568-1600 | The threads' slices one behind the other are the relation; all have `len / nthreads` tuples, the last one the remainder as well. |
| `Clusters.RadixCluster` | hashing/joins/parallel_radix_join.cpp:573-678 | Every cluster holds exactly the tuples of its digit, in their order, at its padded start; the histogram counts them; memory outside the region of `num + fanout * padding` tuples is unchanged. Padding 0 is `radix_cluster_nopadding`. |
| `Clusters.ScatterStep` | hashing/joins/parallel_radix_join.cpp:604-613 | A tuple written through its digit's cursor lies inside the region and overwrites no tuple placed before. |
| `Clusters.StartTotal` | hashing/joins/parallel_radix_join.cpp:591-599 | Tuples and padding of all clusters fill the region exactly. |
| `Clusters.StartMonotone` | hashing/joins/parallel_radix_join.cpp:591-599 | A cluster and its padding end before the next cluster starts. |
| `Clusters.Adjoining` | hashing/joins/parallel_radix_join.cpp:626-678 | Without padding the clusters, one behind the other, are the relation ordered by digit, stably. |
| `BucketChaining.Build` | hashing/joins/parallel_radix_join.cpp:303-316 | After the build every bucket's chain of positions strictly decreases and holds exactly the tuples of R that fall into the bucket. |
| `BucketChaining.Extend` | hashing/joins/parallel_radix_join.cpp:308-311 | One more tuple at the head of its chain keeps all chains. |
| `BucketChaining.Probe` | hashing/joins/parallel_radix_join.cpp:326-346 | Walking a chain ends and finds as many tuples as R has with the key. |
| `BucketChaining.BucketChainingJoin` | hashing/joins/parallel_radix_join.cpp:291-354 | The result is the nested-loop count, for every nonempty R. |
| `HistogramJoin.PrefixSums` | hashing/joins/parallel_radix_join.cpp:390-394 | The in-place prefix sums, two places to the right, are the buckets' starts one place to the right. |
| `HistogramJoin.Reorder` | hashing/joins/parallel_radix_join.cpp:396-405 | Reordering places every bucket and advances the array in place until it holds the exact bounds of all buckets. |
| `HistogramJoin.Scan` | hashing/joins/parallel_radix_join.cpp:411-426 | Scanning a bucket finds as many tuples as R has with the key. |
| `HistogramJoin.HistogramJoin` | hashing/joins/parallel_radix_join.cpp:373-432 | The result is the nested-loop count. |
| `OptimizedHistogramJoin.HistogramOptimizedJoin` | hashing/joins/parallel_radix_join.cpp:451-555 | The result is, over all tuples of S, how often the key is the payload of a tuple in the pairs scanned for its bucket, the overshoot included; the tuple behind the relation has its key cleared and keeps its payload. |
| `OptimizedHistogramJoin.ScanPairs` | hashing/joins/parallel_radix_join.cpp:515-525 | Two tuples at a time, from the bucket's start until its end is reached or passed by one, the two extracted lanes count payloads. |
| `OptimizedHistogramJoin.RightExactly` | hashing/joins/parallel_radix_join.cpp:451-555 | The result is the join with every S if and only if, bucket by bucket, the payloads of the bucket's class in the scanned pairs are, as a multiset, the bucket's keys. |
| `OptimizedHistogramJoin.OvershootIsHarmless` | hashing/joins/parallel_radix_join.cpp:487-525 | With payloads equal to the keys, the tuple scanned behind an odd bucket never adds a match, for every key but the payload found behind the relation. |
| `OptimizedHistogramJoin.MatchesLost` | hashing/joins/parallel_radix_join.cpp:548 | Two tuples with key 1 and payload 0 joined with one: the nested loops count two, the code none. |
| `SingleRadixJoin.TwoPassCluster` | hashing/joins/parallel_radix_join.cpp:1754-1767 | The two passes, the second one back into the input, leave the relation's parts by all eight bits, one behind the other. |
| `SingleRadixJoin.TwoPasses` | hashing/joins/parallel_radix_join.cpp:1754-1767 | Clustering by the low digit and then, stably, by the next is clustering by both: the least significant digit first. |
| `SingleRadixJoin.WalkClusters` | hashing/joins/parallel_radix_join.cpp:1779-1819 | The walk visits exactly the slices of equal digits, and skipping an empty side loses nothing. |
| `SingleRadixJoin.RadixJoin` | hashing/joins/parallel_radix_join.cpp:1719-1844 | The result is the nested-loop count of the original relations, and both end as permutations ordered by key modulo 256. |
| `ParallelPartition.EveryRunPartitions` | hashing/joins/parallel_radix_join.cpp:739-806 | Whatever the schedule, when all threads have finished each class lies in one piece, in the input's order, and the bounds of thread 0 say where: `output[i+1] - output[i] - padding` is its size. |
| `ParallelPartition.KeepsInv` | hashing/joins/parallel_radix_join.cpp:739-806 | Every step of counting, waiting and copying keeps histograms, cursors and what has been copied. |
| `ParallelPartition.RangesDisjoint` | hashing/joins/parallel_radix_join.cpp:782-805 | The write ranges of distinct (thread, class) pairs are disjoint. |
| `ParallelPartition.RangesAdjoin` | hashing/joins/parallel_radix_join.cpp:782-796 | A thread's range of a class ends where the next thread's starts, so the ranges tile the class. |
| `ParallelPartition.RangesFit` | hashing/joins/parallel_radix_join.cpp:782-796 | The last range ends within relation plus padding. |
| `ParallelPartition.OutputIsStart` | hashing/joins/parallel_radix_join.cpp:782-796 | The sums over the other threads' prefix sums give every thread the start of its range of every class. |
| `ParallelPartition.CopyingStep` | hashing/joins/parallel_radix_join.cpp:800-805 | A copying step stays in the thread's range, touches nothing copied before, and always goes on. |
| `ParallelPartition.StepCounts` | hashing/joins/parallel_radix_join.cpp:739-806 | Every step that does anything leaves fewer to take. |
| `ParallelPartition.SomeoneMoves` | hashing/joins/parallel_radix_join.cpp:739-806 | Until all threads have finished one of them can go on: the barrier does not lock up. |
| `ParallelRadixJoin.RegionsApart` | hashing/joins/prj_params.h:79-92 | The second pass's writes for one partition, padding included, end before the next partition's region, and below `num_tuples + FANOUT_PASS1 * PADDING_TUPLES`. |
| `ParallelRadixJoin.ClustersApart` | hashing/joins/parallel_radix_join.cpp:706-726 | Distinct clusters with the padding behind them are apart, and since a join's scratch region lies at its cluster's offset in the other memory, so are the scratch regions of any two joins. |
| `ParallelRadixJoin.SlicesTile` | hashing/joins/parallel_radix_join.cpp:1568-1600 | The slices given to the threads are the relation. |
| `ParallelRadixJoin.FirstPassGivesBounds` | hashing/joins/parallel_radix_join.cpp:1122-1130 | What the first pass leaves is what the partition tasks take as bounds. |
| `ParallelRadixJoin.PartTasksExactly` | hashing/joins/parallel_radix_join.cpp:1122-1185 | A partition is put into the bag exactly if it has tuples of both relations. |
| `ParallelRadixJoin.PartTasksValue` | hashing/joins/parallel_radix_join.cpp:1122-1185 | Partitions skipped because a side is empty count for nothing: the tasks made are worth all that the join function counts for the served partitions. |
| `ParallelRadixJoin.JoinTasksValue` | hashing/joins/parallel_radix_join.cpp:706-726 | The join tasks made from one partition are worth what the join function counts for all its clusters, clusters with an empty side left out. |
| `ParallelRadixJoin.JoinFunction` | hashing/joins/parallel_radix_join.cpp:291-555 | Each of the three join functions, run on its scratch region, counts what a join task of the model adds, and changes no more of the scratch memory. |
| `ParallelRadixJoin.GetNumaId` | hashing/utils/cpu_mapping.cpp:91-114 | The search of the table of processors gives `tid % 4` for the first 64 threads, and 0 for all others. |
| `ParallelRadixJoin.KeepsInv` | hashing/joins/parallel_radix_join.cpp:1205-1417 | Whichever thread takes whichever partition or join, results plus pending tasks stay worth the same, and no step disturbs the clusters of a pending join or the tuple behind its scratch region. |
| `ParallelRadixJoin.EveryRunCounts` | hashing/joins/parallel_radix_join.cpp:1205-1417 | With bucket_chaining_join, histogram_join or histogram_optimized_join: when all threads have finished, the results add up to what that function counts for the clusters of the partitions whose node has a thread. |
| `ParallelRadixJoin.RightExactly` | hashing/joins/parallel_radix_join.cpp:1205-1417 | Where the join function counts matches (the first two always do; the third where payloads can stand for keys, cluster by cluster), a finished run reports the nested-loop count of the original relations if and only if no partition on a node without a thread has a match. |
| `ParallelRadixJoin.EveryRunJoins` | hashing/joins/parallel_radix_join.cpp:1205-1417 | In particular with a thread on every node that holds a partition. |
| `ParallelRadixJoin.FourThreadsServe` | hashing/utils/cpu_mapping.cpp:98-130 | Four threads are enough for that, wherever the memory is. |
| `ParallelRadixJoin.FourThreadsExactly` | hashing/utils/cpu_mapping.cpp:98-130 | With bucket_chaining_join or histogram_join, relations that have a match are joined right by all finished runs, wherever the memory is, if and only if there are at least four threads. |
| `ParallelRadixJoin.ThreeThreadsMiss` | hashing/utils/cpu_mapping.cpp:98-130 | With fewer, and the memory on the fourth node, every finished run reports 0. |
| `ParallelRadixJoin.ThreeThreadsExample` | hashing/utils/cpu_mapping.cpp:98-130 | Two relations of one tuple, one match, three threads, and a finished run that reports 0. |
| `ParallelRadixJoin.EveryJoinCounts` | hashing/joins/parallel_radix_join.cpp:1074-1417 | Both passes end to end: for all schedules of both, four or more threads report the nested-loop count; with histogram_optimized_join, where payloads can stand for keys. |
| `ParallelRadixJoin.StepCounts` | hashing/joins/parallel_radix_join.cpp:1205-1417 | Every step leaves less to do. |
| `ParallelRadixJoin.SomeoneMoves` | hashing/joins/parallel_radix_join.cpp:1205-1417 | Until all threads have finished there is a next step. |
| `ParallelRadixJoin.CanFinish` | hashing/joins/parallel_radix_join.cpp:1205-1417 | From every state that can come up the threads can be run to their end. |
| `ParallelRadixJoin.SomeRun` | hashing/joins/parallel_radix_join.cpp:1074-1417 | For any two relations, any placement of the memory and any number of threads there is a finished run. |
| `HashTables.InsertHolds` | hashing/joins/common_functions.cpp:172-206 | After an insertion every chain holds exactly the tuples so far that fall into its bucket. |
| `HashTables.InsertWellFormed` | hashing/joins/common_functions.cpp:172-206 | Chains stay acyclic and apart, a head with an overflow bucket stays full, and from the third bucket on all stay full; chains of other buckets are untouched. |
| `HashTables.InsertChain` | hashing/joins/common_functions.cpp:172-206 | The tuple's own chain gains exactly that tuple, whichever of the four branches is taken. |
| `HashTables.AllocateHolds` | hashing/joins/common_functions.cpp:75-102 | A new table is well formed and holds nothing; the number of its heads is the power of two between the number asked for and twice that. |
| `HashTables.Probe` | hashing/joins/common_functions.cpp:237-280 | A probe finds as many tuples as have arrived with the key. |
| `SymmetricHashJoin.HashTable.constructor` | hashing/joins/common_functions.cpp:75-102 | A new table holds nothing. |
| `SymmetricHashJoin.HashTable.Build` | hashing/joins/common_functions.cpp:172-206 | The in-place insertion leaves the table the specification's insertion gives, holding one more tuple. |
| `SymmetricHashJoin.HashTable.Lookup` | hashing/joins/common_functions.cpp:237-280 | As many as have arrived with the key. |
| `SymmetricHashJoin.SHJJoiner.constructor` | hashing/helper/localjoiner.cpp:113-122 | Two separate empty tables, whose heads have room for all tuples of their relation but less than a bucket, and not for twice as many; no matches. |
| `SymmetricHashJoin.SHJJoiner.Join` | hashing/helper/localjoiner.cpp:73-94 | The tuple enters its own table, and the matches grow by its partners in the other: they stay the pairs so far. |
| `SymmetricHashJoin.JoinAll` | hashing/helper/localjoiner.cpp:73-94 | For every interleaving of the arrivals the matches are the pairs with equal keys. |
| `SymmetricHashJoin.JoinRelations` | hashing/helper/localjoiner.cpp:33-59 | The tuples of two relations in turn: the nested-loop count. |
| `LatchedBuild.EveryRunBuilds` | hashing/joins/common_functions.cpp:350-400 | For every schedule the table is well formed and holds exactly the tuples written; when all threads are through, those of all slices. |
| `LatchedBuild.KeepsInv` | hashing/joins/common_functions.cpp:350-400 | Locking, reading, writing and unlocking, each a step of its own, keep the table, and what a thread has read stays true until it writes. |
| `LatchedBuild.WriteStep` | hashing/joins/common_functions.cpp:376-397 | A write under the latch is the single-threaded insertion, and disturbs no other thread's readings. |
| `LatchedBuild.LatchIsExclusive` | hashing/joins/common_functions.cpp:375-398 | Two threads never hold the same latch. |
| `LatchedBuild.StepCounts` | hashing/joins/common_functions.cpp:350-400 | Every step that does anything leaves one less to take. |
| `LatchedBuild.SomeoneMoves` | hashing/joins/common_functions.cpp:350-400 | Until all threads are through their slices one can go on: whoever waits for a latch waits for a thread that can. |
| `ProgressiveMerge.Query` | hashing/helper/pmj_helper.h:86-130 | A query erases exactly the smaller keys, keeps the order of the others, and counts the tuples with the key. |
| `ProgressiveMerge.EarlyJoinInitialRuns` | hashing/helper/pmj_helper.cpp:10-32 | Two sorted halves with sweep areas: the nested-loop count. |
| `ProgressiveMerge.FindHeads` | hashing/helper/pmj_helper.cpp:59-123 | The first run with the smallest unread key of each relation, if there is an unread tuple. |
| `ProgressiveMerge.TakeFromR` | hashing/helper/pmj_helper.cpp:134-152 | Reading a tuple of run i adds its partners read so far in the other runs, no partner in its own; the eviction has lost none. |
| `ProgressiveMerge.EarlyJoinMergedRuns` | hashing/helper/pmj_helper.cpp:41-173 | Two or more sorted runs become one sorted permutation of all, and exactly the pairs from different runs are added; fewer than two stay as they are. |
| `ProgressiveMerge.MergingPhase` | hashing/helper/pmj_helper.cpp:187-196 | It ends, for no run, one run and many, with one run of everything and all pairs between runs counted. |
| `ProgressiveMerge.SortingPhase` | hashing/helper/pmj_helper.cpp:198-240 | A new run of sorted permutations, and its own pairs counted. |
| `ProgressiveMergeJoin.PMJJoiner.constructor` | hashing/helper/localjoiner.cpp:505-510 | Nothing has arrived, no run, no matches. |
| `ProgressiveMergeJoin.PMJJoiner.Store` | hashing/helper/localjoiner.cpp:516-523 | The tuple joins the tail behind the runs. |
| `ProgressiveMergeJoin.PMJJoiner.StartRun` | hashing/helper/localjoiner.cpp:535-567 | A step of both tails becomes a run: every tuple stays in exactly one run or a tail, and the runs' own pairs are counted. |
| `ProgressiveMergeJoin.PMJJoiner.Finish` | hashing/helper/localjoiner.cpp:568-598 | With everything received, one run of all tuples and all pairs counted; the tails stay where they are. |
| `ProgressiveMergeJoin.PMJJoiner.Join` | hashing/helper/localjoiner.cpp:512-600 | One arrival keeps all that; with positive steps the branch that has received everything fires exactly when the last tuple arrives. |
| `ProgressiveMergeJoin.PMJJoiner.MergeAll` | hashing/helper/localjoiner.cpp:462-503 | After `merge()` the matches are all pairs that arrived, plus the leftovers' pairs a second time if that branch has fired. |
| `ProgressiveMergeJoin.JoinAll` | hashing/helper/localjoiner.cpp:462-600 | For every order of arrival and all steps, 0 included: the matches are exactly the pairs, plus, if all tuples of both relations come to this joiner, the pairs of the leftovers once more, which are the arrivals that `Runs` steps leave; so they are the pairs if and only if then no leftover has a partner. |
| `ProgressiveMergeJoin.RunsAre` | hashing/helper/localjoiner.cpp:535-575 | When everything has come, as many runs have been taken as steps fit into both relations and leave a tuple in each. |
| `ProgressiveMergeJoin.JoinedTwice` | hashing/helper/localjoiner.cpp:462-503 | Merging the run of everything with a run of the leftovers finds every pair with a leftover again. |
| `ProgressiveMergeJoin.OnePairFourTimes` | hashing/helper/localjoiner.cpp:462-600 | One tuple of each relation with the same key, both to one thread: 4 matches for one pair. |
| `ProgressiveMergeJoin.JoinLazily` | hashing/helper/localjoiner.cpp:145-214 | For positive steps, as it asserts, the runs stay within the relations if and only if both are at least as long as a step; then the result is the nested-loop count, and there are `Runs` runs of a step, but at least one. |
| `ProgressiveMergeJoin.ShortRelation` | hashing/helper/localjoiner.h:131-132 | With the default step of 640, a relation of 639 tuples is read past its end. |
| `Shuffling.ContRandShuffler` | hashing/helper/shuffler.cpp:117-141 | The constructor stays inside its allocation if and only if the group size divides the number of threads or reaches it; then there are `nthreads / groupSize` groups, or one, of equal size and of consecutive threads, and every thread is in exactly one of them, once. |
| `ShuffledJoin.EveryRunJoins` | hashing/helper/thread_task.cpp:152-225 | For every interleaving of fetching, pushing, pulling, waiting and draining, every order in which the relations' tuples are fetched and every random choice, with and without eager pulling: when all threads have finished their matches add up to the nested-loop count. |
| `ShuffledJoin.EveryHashRunJoins` | hashing/helper/thread_task.cpp:184-218 | In particular with the hash shuffler. |
| `ShuffledJoin.KeepsInv` | hashing/helper/thread_task.cpp:184-218 | Every step keeps the accounts: each tuple of R sent to a thread is in its queue or its joiner once, each tuple of S with one member of its group, and nobody drains before everybody has pushed. |
| `ShuffledJoin.FetchKeeps` | hashing/helper/fetcher.cpp:193-227 | A fetch, of whichever relation is ready, keeps the accounts: the tuple is now owed to exactly its destinations. |
| `ShuffledJoin.PushKeeps` | hashing/helper/shuffler.cpp:143-168 | A push keeps the accounts: what one destination was owed is in its queue, once. |
| `ShuffledJoin.TakeKeeps` | hashing/helper/shuffler.cpp:170-183 | A pull keeps the accounts: what leaves the thread's queue enters its joiner, once. |
| `ShuffledJoin.FinishedRun` | hashing/helper/thread_task.cpp:203-218 | With all threads finished every queue is empty and every pair has met in exactly one joiner. |
| `ShuffledJoin.EveryRunInOrder` | hashing/helper/thread_task.cpp:184-218 | In every run what is sent to a thread is joined in the order in which it is sent, and without eager pulling nothing before the barrier. |
| `ShuffledJoin.MoveCounts` | hashing/helper/thread_task.cpp:184-218 | Every turn that does anything leaves less to do. |
| `ShuffledJoin.SomeoneMoves` | hashing/helper/thread_task.cpp:184-218 | Until all threads have finished one of them can go on, whatever the choices: the barrier does not lock up, and draining ends. |
| `ShuffledJoin.ReplicatedJoins` | hashing/helper/thread_task.cpp:78-100 | Without a shuffler, all of R against a slice of S in every thread adds up to the nested-loop count. |

## Left out

- Memory orders, fences, cache lines, prefetching, alignment and exceptions: every step is sequentially consistent.
  The queues, the latched build, the parallel join and the shuffled join are machines over values, because a class does
  not express interleaved steps; object identity and aliasing are not captured there.
- FreeList.EveryRunIsSafe: fewer than 2^31 - 3 threads, so that the reference count cannot reach the flag bit.
- DequeueCounters.EveryRunIsSafe: counters are unbounded, so the wrap-around comparison of indices is a plain one; block
  index, implicit producers, tokens and bulk operations of `concurrentqueue.h` are not modelled.
- SpscQueue.EveryRunIsSafe: `peek`, `pop`, `emplace`, moves and destructors are not modelled; `& sizeMask` is the
  remainder, since block sizes are powers of two (`SpscAnswers.EveryRunGrows`).
- Powers.CeilToPow2: tables and blocks are sized by it, which the code's words compute up to 2^31 and 2^63 (`PowerBits`).
- BlockingQueue.EveryRunIsSafe: the inner queue is one atomic sequence (`SpscQueue` is about its steps), signals have
  count 1, and the count is an unbounded integer.
- AvxSort.SortItems: of more than 2^32 items only the lopsided are followed to the end; keys compare in one total order,
  the input restriction of `hashing/sorting/main.cpp:31-45`, while the networks compare as doubles; the binary logarithm
  is exact; aligned and unaligned loads are the same.
- AvxSort.SortRest: `std::sort` is any sort.
- Merge.MergeVarLen: `restrict` is not modelled; where B lies in the output the code passes overlapping pointers, and the
  model follows memory.
- BlockSort.SortBlock: sizes from 64 on, as the levels need.
- Clusters.RadixCluster: histogram words are unbounded integers.
- BucketChaining.BucketChainingJoin: R is not empty; the code takes the next power of two of its size, and callers skip
  empty partitions.
- OptimizedHistogramJoin.HistogramOptimizedJoin: R is not empty (see above), and there is a tuple behind it, as the
  padding provides.
- ParallelRadixJoin.EveryRunCounts: NUM_PASSES is 2, without skew handling and without software write-combining buffers
  (`parallel_radix_partition_optimized`); partitioning or joining one task is one step, which `RegionsApart` and
  `ClustersApart` justify; the single-threaded loops of the join functions are in their own modules;
  which node the memory of a partition is on is arbitrary, a failing `get_mempolicy` is not modelled; the bag of tasks is
  atomic.
- SymmetricHashJoin.SHJJoiner.constructor: relations of at least BUCKET_SIZE tuples, as the constructor asserts.
- LatchedBuild.EveryRunBuilds: an overflow bucket comes from the thread's own buffer, which does not run out.
- ProgressiveMerge.EarlyJoinMergedRuns: the sweep areas are sequences; results are counted, not materialised.
- ProgressiveMergeJoin.PMJJoiner.Finish: the tails are what has arrived; that sorting leaves a permutation of them in
  the buffer `merge()` reads again is so for fewer than BLOCKSIZE leftovers, which are sorted in place; output buffers
  are not modelled.
- ProgressiveMergeJoin.PMJJoiner.Join: the fat-tuple join, `clean` and the handshake variants are not modelled.
- ShuffledJoin.EveryRunJoins: queues are atomic and first-in first-out; keys are not negative, as `key % n` indexes an
  array; which relation a fetch finds ready (timestamps) and the random member of a group are arbitrary choices; the
  match count of a joiner is that of `SymmetricHashJoin.JoinAll`, or of `ProgressiveMergeJoin.JoinAll` where not
  everything comes to one thread.
- ShuffledJoin.ReplicatedJoins: the fetchers that copy their slice first (`JM_P`, `JB_P`) are not modelled apart.
- Progress: under every fair schedule the runs of the joins end; a single `try_get` of the free list has no bound of its
  own, since its loop may lose to other calls that end (`FreeListProgress.SomeCallReturns`).
- Handshake join, ripple join, `debuild_hashtable_single`, timers, performance counters, CPU affinity, command line,
  file loading, data generation and `hashing/lib` are not part of this model.

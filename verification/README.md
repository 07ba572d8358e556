# Queues, semaphore, cursor and pool of ApiPack2: model and proofs

This project models, in Dafny, the data structures that carry requests and responses between the IO threads and the
logic threads, and two smaller members of the repository's own code. It proves what their comments, asserts and
documentation promise, for any number of threads, any number of operations and every interleaving.

`dafny verify dfyconfig.toml` checks everything.

## How the model is built

The lock-free parts are state machines. One step is one atomic load, store, exchange or addition, or one access to
memory only the acting thread may touch; memory is sequentially consistent. Each state machine has a `Run` (a sequence
of states, each a step after the one before) and an invariant `Inv` kept by every step (`NextKeeps...`, `RunHasInv`);
the theorems are about every state of every run. Auxiliary fields record history (who owns a block, what was enqueued);
no step reads them to decide anything. The parts that run in one thread are classes and methods with loops.

| file | what it models |
|---|---|
| `FreeList.dfy` | the reference-counted free list of blocks; `FreeListSteps.dfy` has the proof for each step, `FreeListLaws.dfy` what follows for runs and calls |
| `Tickets.dfy` | the four counters by which consumers claim items, on wrapped words; `TicketLaws.dfy` has what follows for runs |
| `BlockIndex.dfy` | the circular block index that grows while readers use old headers |
| `ImplicitQueue.dfy` | one implicit producer and all its consumers: tickets, index, blocks and items together |
| `ImplicitConsumers.dfy`, `ImplicitBlocks.dfy`, `ImplicitProducers.dfy` | each step keeps the invariant: consumers reading, consumers completing and retiring blocks, the producer |
| `ImplicitRuns.dfy`, `ImplicitOrder.dfy`, `ImplicitCalls.dfy` | what follows for its runs: the invariant, order and blocks, the outcome of calls |
| `Footprint.dfy` | what one producer and its consumers write: their own blocks of memory and nothing else |
| `ConcurrentQueue.dfy` | all producers on one memory, with one pool of blocks and one free list; `ConcurrentMoves.dfy`, `ConcurrentRuns.dfy` and `ConcurrentCalls.dfy` have its moves, runs and calls |
| `WaitFree.dfy` | how many accesses of its own a call needs, in the queue and in the single-producer queue |
| `IndexArrays.dfy` | the producer's index operations as the code does them, on arrays |
| `IndexWords.dfy`, `Words.dfy` | the index arithmetic on 64-bit words |
| `ProducerHash.dfy`, `HashFinalizer.dfy` | the hash table from thread ids to producers, and its hash; `ProducerHashSteps.dfy`, `ProducerHashRuns.dfy` and `ProducerHashCalls.dfy` have its steps, runs and calls |
| `Semaphore.dfy`, `Blocking.dfy` | the benaphore, and the queue with it |
| `BlockingTickets.dfy` | the blocking queue with the ticket protocol of each producer, access by access |
| `Spsc.dfy`, `PowersOfTwo.dfy` | the single-producer single-consumer queue and `ceilToPow2`; `SpscConsumer.dfy`, `SpscProducer.dfy`, `SpscRuns.dfy`, `SpscCalls.dfy` and `SpscSizes.dfy` have its steps, runs, calls and constructor |
| `Cursor.dfy` | the database iterator over an abstract server |
| `ObjectPool.dfy` | the object pool |
| `Blocks.dfy`, `Circular.dfy`, `Quotients.dfy`, `Totals.dfy`, `Wrappers.dfy` | arithmetic and sums they share |

`BLOCK_SIZE`, `INDEX_SIZE`, `INITIAL_SIZE`, `MAX_BLOCK_SIZE`, `MAX_BLOCKS`, `POOL` and the thread-id hash `HASH` are
constants without a value: the proofs hold for every choice.

Queue indices are counted without bound and compared the way the code compares them, as 64-bit words. The one
hypothesis this needs is `Tickets.Timely`: between a dequeuer's reading of dequeueOvercommit and its ticket, the
protocol moves on by at most half the index range. `Tickets.GrantedIsPublishedExactly` shows that the bound is exact.
That the tail stays within half the range of the head is not assumed but proved.

## Where the code differs from what it says

- The lookup divides an unsigned word although the comment at source/utils/concurrentqueue.h:2854-2855 wants the sign
  kept; both readings name the same slot exactly when the capacity divides the number of blocks in one turn of the index
  (`IndexWords.ReadingsAgreeExactly`).
- `waitMany(0)` without a time limit returns 0 and so breaks the assert at source/utils/blockingconcurrentqueue.h:391;
  a wait without a limit returns a positive count if and only if max is positive (`Semaphore.WaitCall`,
  `Semaphore.WaitForNoneGetsNone`).
- The asserts at source/utils/concurrentqueue.h:2470 and 2693 compare the overcommit and the ticket as words. The numbers
  are always in that order, the words are not once the tickets wrap around: `TicketLaws.OvercommitAssertExactly` says when
  the assert holds, which is always before 2^64 tickets were drawn, and `TicketLaws.OvercommitAssertFails` gives a run in
  which it fails. Nothing but the assert depends on that order.
- The constructor of an implicit producer ignores whether new_block_index succeeded
  (source/utils/concurrentqueue.h:2333-2340). If it did not, the first enqueue follows the null blockIndex instead of
  returning false (`ImplicitRuns.FirstEnqueueFaults`); the producer can always go on if and only if that allocation
  succeeded, or the queue may not hold a single block (`ImplicitRuns.AlwaysMovesExactly`).
- A `ReaderWriterQueue` for 2^63 elements or more gets a single block of size 0, since `ceilToPow2(maxSize + 1)` wraps,
  and its first enqueue writes outside that block (`SpscSizes.Make`, `SpscSizes.HollowOverruns`).
- A single-block `ReaderWriterQueue` may refuse an element although the consumer made room since the block was seen
  full: `SpscRuns.RefusedOnlyWhenFull` says exactly when the queue is below capacity at a refusal, and
  `SpscSizes.RefusedWhileEmpty` gives a run in which it is empty.
- An `ObjectPool` with an initial capacity below 2 and no step given never grows: `create` gives null far below the
  limit (`ObjectPool.Pool.Create`, `ObjectPool.StarvedPool`).

## Model

| member | source | states |
|---|---|---|
| FreeListLaws.HeadLeadsThroughList | source/utils/concurrentqueue.h:1340-1444 | in every run the pointers from freeListHead form exactly one finite list, with no node twice |
| FreeListLaws.PopTakesFirst | source/utils/concurrentqueue.h:1389-1401 | a successful pop exchange takes the first node and leaves the rest of that same list, however old the next pointer in hand is: no ABA |
| FreeListLaws.NullMeansEmpty | source/utils/concurrentqueue.h:1376-1415 | a try_get returns a node, or freeListHead was null at some moment of that call |
| FreeListLaws.QuietTryGet | source/utils/concurrentqueue.h:1376-1401 | a try_get that nobody disturbs takes the first node of the list and leaves the rest; on an empty list it changes nothing |
| FreeListLaws.QuietAdd | source/utils/concurrentqueue.h:1362-1441 | an add that nobody disturbs puts the node in front of the list, or leaves it flagged to the getters that still refer to it |
| FreeListLaws.TryGetIsExclusive | source/utils/concurrentqueue.h:1391-1401 | a node about to be returned has its flag clear (the assert), is on no list and in nobody's hands, and no other thread returns, adds or publishes it |
| FreeListLaws.OutStays | source/utils/concurrentqueue.h:1362-1374 | a node in a client's hands leaves them only by a call of add |
| FreeListLaws.NoDoubleReturn | source/utils/concurrentqueue.h:1376-1415 | between two returns of the same node lies a call of add for it |
| FreeListLaws.PendingIsBound | source/utils/concurrentqueue.h:1404-1410 | a node whose add was put off is flagged and some getter still holds a reference that it cannot pop with; the last to drop it publishes the node |
| FreeListLaws.NoNodeIsLost | source/utils/concurrentqueue.h:1362-1441 | with no call in progress every node is in a client's hands or on the list, with count 0 or 1 accordingly |
| FreeListSteps.RunHasInv | source/utils/concurrentqueue.h:1362-1441 | in every interleaving each node's count is what its place contributes plus its getters, plus the flag when it is pending |
| Words.CircularLessIsLess | source/utils/concurrentqueue.h:395-404 | circular_less_than on wrapped words agrees with less-than on the indices exactly while they are within half the range, on the side that matters |
| TicketLaws.ClaimsArePublished | source/utils/concurrentqueue.h:2466-2473 | approved claims never exceed tailIndex, so headIndex never passes it, for any number of single and bulk dequeuers |
| TicketLaws.ClaimsAreApart | source/utils/concurrentqueue.h:2473-2473 | no index is claimed by two consumers |
| Tickets.ApprovedFitTail | source/utils/concurrentqueue.h:2466-2473 | no more tickets are approved than items were published |
| TicketLaws.OvercommitAssertExactly | source/utils/concurrentqueue.h:2464-2470 | the overcommit a thread read never exceeds the ticket it then draws; the assert, which compares their words, holds exactly while the word of the one and the distance to the other fit in a word together, so always before 2^64 tickets were drawn |
| TicketLaws.OvercommitAssertFails | source/utils/concurrentqueue.h:2690-2693 | a run in which the assert on words fails: a race leaves an overcommit of one, and then the tickets reach 2^64 |
| TicketLaws.QuietCountsMatch | source/utils/concurrentqueue.h:2460-2530 | with no dequeue in flight the optimistic count less the overcommit is headIndex |
| TicketLaws.QuietDequeue | source/utils/concurrentqueue.h:2682-2706 | a dequeue that runs alone claims as many items as there are, up to max, starting at headIndex |
| Tickets.GrantedIsPublishedExactly | source/utils/concurrentqueue.h:2695-2697 | what the wrapped comparison grants was published if and only if the ticket is at most half a turn ahead |
| Tickets.PublishedIsGranted | source/utils/concurrentqueue.h:2695-2697 | published items are granted, up to the number wanted |
| Tickets.SingleIsBulkOfOne | source/utils/concurrentqueue.h:2466-2472 | the tests of dequeue are the tests of dequeue_bulk for at most one item |
| Tickets.RunHasInv | source/utils/concurrentqueue.h:2460-2530 | the ticket protocol keeps its invariant in every run: among the tickets below one's own, those not rejected number at most the ticket less the overcommit read |
| BlockIndex.LookUpFindsSlot | source/utils/concurrentqueue.h:2844-2860 | whatever header a reader holds, whatever tail it read and whatever key it then found there, the lookup of a block ends in that block's slot |
| BlockIndex.LookUpFindsBlock | source/utils/concurrentqueue.h:2853-2858 | that slot holds the block's own key and a non-null block, across wraps, reuse of slots, rewinds and doublings: both asserts |
| BlockIndex.StoreKeyKeeps | source/utils/concurrentqueue.h:2807-2815 | inserting a key into a free slot keeps the keys of every header in slots that fit them |
| BlockIndex.RewindKeeps | source/utils/concurrentqueue.h:2831-2835 | so does rewinding the tail |
| BlockIndex.ClearValueKeeps | source/utils/concurrentqueue.h:2514-2517 | so does taking a block out, in whatever order blocks empty |
| BlockIndex.GrowsWhenFull | source/utils/concurrentqueue.h:2805-2823 | a slot is found taken only when every slot holds a key and the oldest block is still alive |
| BlockIndex.GrowKeeps | source/utils/concurrentqueue.h:2862-2904 | growing keeps the invariant for the new header and for every older one a reader may still hold |
| BlockIndex.GrowIsSteady | source/utils/concurrentqueue.h:2862-2904 | growing changes no header a reader holds, takes no key back, and leaves every live block its entry |
| ImplicitRuns.NextKeeps | source/utils/concurrentqueue.h:2396-2780 | every step of the producer, of any consumer and of the rest of the program keeps the invariant of the whole queue |
| ImplicitRuns.RunHasInv | source/utils/concurrentqueue.h:2333-2780 | so it holds in every state of every run; a producer whose constructor could not allocate the index never has one, stays empty, and satisfies the invariant but for that |
| ImplicitOrder.EveryStepIsFifo | source/utils/concurrentqueue.h:2396-2780 | the queue refines a FIFO sequence: storing tailIndex appends the whole call's items, adding to headIndex hands that many from the front to one consumer, nothing else changes it |
| ImplicitOrder.EveryReadIsNew | source/utils/concurrentqueue.h:2480-2508 | each element read is in memory, is the one enqueued at that index and was never taken before |
| ImplicitOrder.DeliveredIsEnqueued | source/utils/concurrentqueue.h:2460-2530 | what was delivered at an index is what was enqueued there, in every state of every run |
| ImplicitOrder.DeliveryIsFinal | source/utils/concurrentqueue.h:2460-2530 | published items are never forgotten or reordered, and deliveries never change |
| ImplicitOrder.ClaimIsDelivered | source/utils/concurrentqueue.h:2700-2774 | a consumer that returns has delivered exactly the items at the indices it claimed |
| ImplicitCalls.QuietDeliversPrefix | source/utils/concurrentqueue.h:2460-2530 | with nothing in flight the delivered indices are exactly those before headIndex, each item as enqueued |
| ImplicitRuns.ConsumerCanMove | source/utils/concurrentqueue.h:2700-2774 | no consumer ever follows a null block, reads a missing element or looks up a slot that is not there |
| ImplicitRuns.ProducerCanMove | source/utils/concurrentqueue.h:2532-2680 | nor does the producer, also while it reverts a failed call: it can take its next step unless it has no index and tests a slot of it |
| ImplicitRuns.FirstEnqueueFaults | source/utils/concurrentqueue.h:2333-2340 | without an index the first enqueue comes to that point: it follows the null blockIndex |
| ImplicitRuns.AlwaysMovesExactly | source/utils/concurrentqueue.h:2333-2340 | in every state of every run the producer can go on, if and only if the allocation in the constructor succeeded or the queue may not hold a block at all |
| ImplicitConsumers.LoadValueFinds | source/utils/concurrentqueue.h:2853-2858 | the entry a consumer loads has the key of the block its index lies in and points to that block |
| ImplicitProducers.GrownSlotIsInvalid | source/utils/concurrentqueue.h:2819-2828 | after growing, the slot of the next block is a new entry without a key: the assert |
| ImplicitBlocks.BlocksAfterSetEmpty | source/utils/concurrentqueue.h:1519-1537 | elementsCompletelyDequeued counts the block's completed dequeues and never exceeds BLOCK_SIZE: the asserts of set_empty and set_many_empty |
| ImplicitOrder.UnreadItemKeepsBlock | source/utils/concurrentqueue.h:2417-2445 | the block of an item not yet dequeued is in the index and is neither retired, freed, given back nor anybody else's; the item is in it |
| ImplicitOrder.RetiredBlockIsRead | source/utils/concurrentqueue.h:2510-2519 | a block is taken out of the index only after all its items were dequeued, even when later blocks empty first |
| ImplicitOrder.LastOneRetires | source/utils/concurrentqueue.h:1519-1537 | the consumer that retires a block is the one that completes its last index, and every last one does |
| ImplicitOrder.FreedByOne | source/utils/concurrentqueue.h:2510-2519 | no two consumers put the same block on the free list |
| ImplicitOrder.BlocksLeaveForGood | source/utils/concurrentqueue.h:2510-2519 | a block below the tail leaves the index once and never comes back or changes its memory |
| ImplicitCalls.EnqueueIsAllOrNothing | source/utils/concurrentqueue.h:2532-2680 | a call with some items appends exactly those, unless a step of it found no room, a full index that cannot grow, or no block; then contents, tail, tail block, live index entries and index tail are as they were; blocks missing afterwards were retired by consumers |
| ImplicitCalls.BulkIsSingles | source/utils/concurrentqueue.h:2532-2680 | an enqueue_bulk of some items that nothing refuses leaves the same history, tail and index end as single enqueues of these items, with a block for every index not dequeued |
| ImplicitCalls.ReadyIsAtRest | source/utils/concurrentqueue.h:2568-2585 | between calls the index ends with the last block and every block owned is one of the index's, so a failed call keeps none |
| ImplicitRuns.HeadIsBehind | source/utils/concurrentqueue.h:2404-2404 | the head is never beyond the block about to be inserted, as the wrapped words show: the assert |
| ImplicitRuns.RoomIsRefusedExactly | source/utils/concurrentqueue.h:2405-2407 | the room check, on wrapped words, refuses a block exactly when it would end half the index range or more ahead of the head, or beyond the size limit when one is set |
| ImplicitRuns.TailNearHead | source/utils/concurrentqueue.h:2402-2407 | along every run the queue never exceeds its size limit, and the tail stays within half the index range of the head, so comparing the wrapped words compares the indices |
| ImplicitCalls.QuietOwnsExactly | source/utils/concurrentqueue.h:2396-2780 | with nothing in flight the memory held is exactly the blocks from the one of the head to the one of the tail |
| Footprint.SoundProduce | source/utils/concurrentqueue.h:2532-2680 | a step of a producer writes elements and counters only in blocks it has a use for; it takes a block only in requisition_block and gives one up only when it adds it to the free list |
| Footprint.SoundConsume | source/utils/concurrentqueue.h:2682-2780 | a step of a consumer writes only in blocks of its producer, and gives one up only when it adds it to the free list |
| ConcurrentMoves.NextKeeps | source/utils/concurrentqueue.h:2396-3004 | every step of any number of producers and consumers, of the block pool and of the free list keeps the invariant of the whole, and is a step of ImplicitQueue for every producer |
| ConcurrentRuns.EveryStepIsLocal | source/utils/concurrentqueue.h:2396-2780 | every step concerns one producer at most; for all others it happens elsewhere in memory |
| ConcurrentRuns.QueueRuns | source/utils/concurrentqueue.h:2396-2780 | seen from any of its producers a run of the whole is a run of ImplicitQueue, so all that is proved there holds for each |
| ConcurrentRuns.FreeListRuns | source/utils/concurrentqueue.h:1362-1441 | seen from the free list it is a run of FreeList: nobody adds a block that is not in his hands |
| ConcurrentRuns.BlocksArePartitioned | source/utils/concurrentqueue.h:2946-3004 | in every run each block issued is in use by exactly one producer or in the hands of the free list, never both, never lost; other blocks are nowhere |
| ConcurrentRuns.RequisitionIsExclusive | source/utils/concurrentqueue.h:2985-3004 | a block from pool, free list or allocator is in use by no producer when it is handed to one, and by that one only afterwards |
| ConcurrentRuns.UnreadItemIsSafe | source/utils/concurrentqueue.h:2417-2519 | from when an item is published until it is dequeued it stays in the same block, which all that time only its producer uses: never recycled, never requisitioned by another |
| ConcurrentRuns.ProducerGoesOn | source/utils/concurrentqueue.h:2532-3004 | a producer in the middle of an enqueue, its thread perhaps inside the free list, can always take a next step, unless it lacks an index |
| ConcurrentRuns.ConsumerGoesOn | source/utils/concurrentqueue.h:2682-2780 | so can a consumer with a claim |
| ConcurrentRuns.NothingIsLost | source/utils/concurrentqueue.h:2396-3004 | with nothing in flight every block issued is on the free list or holds the items between head and tail of exactly one producer |
| ConcurrentCalls.EnqueueIsAllOrNothing | source/utils/concurrentqueue.h:2532-2680 | in the whole, a call of any producer with some items appends exactly these, or leaves the queue as it was if and only if it found no room, an index that cannot grow, or neither pool nor memory gave a block |
| ConcurrentCalls.CreationIsLast | source/utils/concurrentqueue.h:2985-3004 | memory is asked for a block only once the pool is used up and after the free list was empty at some moment of the search |
| ConcurrentCalls.QuietDequeue | source/utils/concurrentqueue.h:2682-2706 | an undisturbed dequeue of at most max items from any producer claims as many as there are, up to max; from an empty one it returns at once |
| WaitFree.ProduceNears | source/utils/concurrentqueue.h:2532-2680 | each access of the producer brings its call nearer the end, through allocation, writing and giving blocks back |
| WaitFree.EnqueueIsWaitFree | source/utils/concurrentqueue.h:2532-2680 | in every run an enqueue makes at most ten accesses for each block it needs, one for each item and three more, whatever the consumers do and whether it succeeds or not |
| WaitFree.ConsumeNears | source/utils/concurrentqueue.h:2700-2774 | each access of a consumer with a claim brings it nearer its return |
| WaitFree.DequeueIsWaitFree | source/utils/concurrentqueue.h:2682-2780 | in every run a dequeue of at most max items makes at most six accesses for each and ten more, whatever the producer and the other consumers do |
| IndexArrays.Header.constructor | source/utils/concurrentqueue.h:2862-2904 | the first new_block_index builds an index as BlockIndex starts with |
| IndexArrays.Header.NewBlockIndex | source/utils/concurrentqueue.h:2862-2904 | the copy loop and the new entries make of the arrays exactly the grown index of BlockIndex, with its invariant |
| IndexArrays.Header.InsertEntry | source/utils/concurrentqueue.h:2804-2829 | readers see the key of the next block stored and then the tail moved, after a larger index exactly when the slot is taken, or nothing at all when it cannot be had; the entry returned has the key and is the one at the tail |
| IndexArrays.Header.RewindTail | source/utils/concurrentqueue.h:2831-2835 | readers see the tail go back to the block before |
| IndexArrays.Header.LookUp | source/utils/concurrentqueue.h:2844-2860 | gives the slot congruent to the block, which for a live block has its key and its memory; no slot exactly when the tail has no key, which cannot be once a block was inserted |
| IndexWords.BlockBaseDiffCounts | source/utils/concurrentqueue.h:2550-2551 | blockBaseDiff on words is the number of blocks the call needs, also for start index 0, and the loop starts one block before the first |
| IndexWords.ReadingsAgreeExactly | source/utils/concurrentqueue.h:2854-2857 | signed and unsigned division name the same slot for blocks ahead of the tail, and for those behind it if and only if the capacity divides the number of blocks in a turn |
| IndexWords.KeysAreNear | source/utils/concurrentqueue.h:2804-2860 | whatever header a key is read from, it is less than the current capacity away from every block in the index |
| IndexWords.ConsumerLooksUp | source/utils/concurrentqueue.h:2844-2857 | in every run the slot each consumer computes on words, from the index, tail and key it has read, is the slot it goes on with in the model, if the capacity divides the blocks in a turn |
| HashFinalizer.HashIsBijection | source/utils/concurrentqueue.h:376-385 | the 64-bit finalizer is a bijection of the words, with an inverse from both sides |
| HashFinalizer.DistinctIdsDistinctHashes | source/utils/concurrentqueue.h:361-365 | distinct thread ids keep distinct hashes |
| ProducerHashRuns.OccupancyBelowThreeQuarters | source/utils/concurrentqueue.h:3337-3385 | every table, current or superseded, stays less than three quarters full and has no id twice, failed allocations and lazy copies included |
| ProducerHashRuns.ProbesEnd | source/utils/concurrentqueue.h:3301-3345 | every probe loop ends before it has visited all slots, however other threads insert meanwhile |
| ProducerHashRuns.SameProducer | source/utils/concurrentqueue.h:3280-3428 | a thread always gets back the producer it got first, and no other thread ever gets that one |
| ProducerHashCalls.NullMeansNoMemory | source/utils/concurrentqueue.h:3280-3428 | a call returns null if and only if an allocation failed in it; otherwise its producer was made for this thread and a table has it under the thread's id, and with null no table has the id and it does not count |
| ProducerHashCalls.QuietGet | source/utils/concurrentqueue.h:3280-3428 | a call that nobody disturbs and whose allocations succeed ends with a producer, whatever tables others left and whether or not it has to grow the last one |
| ProducerHashRuns.NobodyIsStuck | source/utils/concurrentqueue.h:3280-3428 | a thread in the middle of a call can always take its next step; what it finds under its id always has a value |
| ProducerHashSteps.CopyFinds | source/utils/concurrentqueue.h:3310-3330 | an id copied to the main table is not in it yet and its count leaves room there: the comment at the copy |
| ProducerHashRuns.GrownIsEnough | source/utils/concurrentqueue.h:3382-3385 | after growing for a count the three-quarters test always succeeds |
| ProducerHashRuns.RunHasInv | source/utils/concurrentqueue.h:3280-3428 | the invariant of tables, count, resize lock and threads holds in every run |
| Semaphore.AcquiredWereGiven | source/utils/blockingconcurrentqueue.h:259-403 | acquisitions never exceed initial count plus signals, timeouts included; m_count is the tokens available less the waiters |
| Semaphore.WakeupsMatch | source/utils/blockingconcurrentqueue.h:395-403 | kernel permits and posts still due are together exactly as many as there are waiters to be served by available tokens: none lost, none made up |
| Semaphore.SleeperCanWake | source/utils/blockingconcurrentqueue.h:273-277 | a sleeper can go on as soon as a token is available and no post is due |
| Semaphore.StuckMeansNone | source/utils/blockingconcurrentqueue.h:273-296 | waiters without permit or post have no token to wait for |
| Semaphore.ReturnsWhatItGot | source/utils/blockingconcurrentqueue.h:298-393 | in every state a call about to return has acquired as many tokens as it returns |
| Semaphore.WaitCall | source/utils/blockingconcurrentqueue.h:298-393 | a call of wait, tryWait or their variants acquires from call to return as many tokens as it returns, at most the max asked for; blocking without a time limit at least one if and only if max is positive; none only if max is 0 or no token was available at some moment of the call |
| Semaphore.QuietWait | source/utils/blockingconcurrentqueue.h:298-393 | a call that nobody disturbs takes the smaller of max and the tokens there are; tryWait with none there returns none |
| Semaphore.SignalCall | source/utils/blockingconcurrentqueue.h:395-403 | a call of signal gives exactly the number of tokens it was called with |
| Semaphore.ReleasesOnlyWaiters | source/utils/blockingconcurrentqueue.h:395-403 | signal releases at most as many threads as wait, so its cast to int is safe, and the counter stays above minus the number of threads |
| Semaphore.WaitForNoneGetsNone | source/utils/blockingconcurrentqueue.h:388-393 | waitMany of zero without a limit returns zero, against its assert |
| Semaphore.RunHasInv | source/utils/blockingconcurrentqueue.h:259-403 | the two balances of the benaphore hold in every run |
| Blocking.ItemsAreTokens | source/utils/blockingconcurrentqueue.h:518-525 | summed over producers, items published and not claimed are available tokens, tokens held by threads still looking, and signals not sent |
| Blocking.RefusedMeansReserved | source/utils/blockingconcurrentqueue.h:688-698 | when no token is found every unclaimed item is reserved for a holder or a waiter, or not signalled yet |
| Blocking.QuietMeansCounted | source/utils/blockingconcurrentqueue.h:753-779 | between calls the counter is the number of unclaimed items and the kernel semaphore is empty |
| Blocking.SemaphoreRuns | source/utils/blockingconcurrentqueue.h:518-779 | what threads do in the blocking queue is, seen from the semaphore, one of its runs |
| Blocking.DequeueCall | source/utils/blockingconcurrentqueue.h:688-779 | a dequeue returns with at most the items it was asked for; wait_dequeue only with an item; the others with none only if max is 0 or no token was available at some moment of the call |
| Blocking.EnqueueCall | source/utils/blockingconcurrentqueue.h:518-602 | an enqueue of n items publishes exactly n and gives exactly n tokens |
| BlockingTickets.BlockingRuns | source/utils/blockingconcurrentqueue.h:518-779 | every access of a dequeue to the counters of a producer is a claim of Blocking, with tokens for all it claims, or none of its steps |
| BlockingTickets.TicketRuns | source/utils/concurrentqueue.h:2460-2530 | and a step of the ticket protocol for that producer |
| BlockingTickets.ItemsAreTokens | source/utils/blockingconcurrentqueue.h:518-525 | so the balance of items and tokens holds for the tailIndex and headIndex of the producers themselves |
| BlockingTickets.HolderFindsItem | source/utils/blockingconcurrentqueue.h:688-698 | a thread in the loop around inner.try_dequeue always has a producer with an unclaimed item, and its dequeue there, if no other is in progress, claims one |
| BlockingTickets.DequeueCall | source/utils/blockingconcurrentqueue.h:688-779 | the same for a dequeue carried out access by access on the counters of the producers |
| BlockingTickets.EnqueueCall | source/utils/blockingconcurrentqueue.h:518-602 | an enqueue of n items moves the tail of the thread's own producer by exactly n |
| SpscRuns.RunHasInv | source/utils/readerwriterqueue.h:201-524 | for every interleaving of producer and consumer: links, indices, stale copies, slots, flow of blocks, contents and capacity are in order |
| SpscRuns.EveryStepIsFifo | source/utils/readerwriterqueue.h:201-524 | the ring of ring buffers refines a FIFO sequence: storing tail or tailBlock appends the element, storing front removes the first, which is what the consumer returns, nothing else changes it |
| SpscRuns.BuffersHoldQueue | source/utils/readerwriterqueue.h:201-524 | read from front block to tail block the buffers hold exactly the abstract queue |
| SpscRuns.NextBlockHasElement | source/utils/readerwriterqueue.h:256-269 | the block the consumer goes on to has an element: the assert, also in peek and pop |
| SpscRuns.AheadBlockIsEmpty | source/utils/readerwriterqueue.h:466-476 | the block the producer goes on to is empty: the assert |
| SpscRuns.WritesIntoEmptySlot | source/utils/readerwriterqueue.h:447-449 | an element is constructed only where none is |
| SpscRuns.NobodyIsStuck | source/utils/readerwriterqueue.h:201-524 | either thread can always take its next step; the consumer never meets an empty slot |
| SpscRuns.EmptyWasTrue | source/utils/readerwriterqueue.h:287-290 | false or null is returned only if the queue was empty when the front block's tail was read |
| SpscRuns.PeekedIsRemoved | source/utils/readerwriterqueue.h:301-404 | what peek returned is what the next pop or try_dequeue removes |
| SpscCalls.ConsumerCall | source/utils/readerwriterqueue.h:256-404 | a try_dequeue or pop that succeeds removes exactly one element, the one it returns and the first, and a peek removes none; either fails only if the queue was empty at some moment of the call |
| SpscCalls.ProducerCall | source/utils/readerwriterqueue.h:425-515 | an enqueue or try_enqueue that succeeds appends exactly the element it was given, once; enqueue fails only when no memory can be had, try_enqueue only if the queue held its maxSize at some moment of the call |
| WaitFree.BothAreWaitFree | source/utils/readerwriterqueue.h:201-524 | in every run a try_dequeue, peek or pop makes at most nine accesses, an enqueue or try_enqueue at most seven |
| SpscRuns.RefusedOnlyWhenFull | source/utils/readerwriterqueue.h:455-515 | try_enqueue fails only if at least maxSize elements were queued at the refusal or, with a single block, when the call found it full; at the refusal there are fewer exactly if the block is the only one and the consumer removed enough since |
| SpscSizes.RefusedWhileEmpty | source/utils/readerwriterqueue.h:455-515 | a run in which a queue for one element refuses one while it is empty |
| SpscSizes.SizeApprox | source/utils/readerwriterqueue.h:410-423 | the walk around the ring is exact when neither thread is in an operation |
| SpscSizes.Make | source/utils/readerwriterqueue.h:76-129 | the constructor, with sizes on words, makes a queue with the capacity guarantee if and only if maxSize is below 2^63 |
| SpscSizes.HollowOverruns | source/utils/readerwriterqueue.h:86-121 | otherwise the one block has no slot and the first enqueue writes outside it |
| SpscSizes.BlockCountSuffices | source/utils/readerwriterqueue.h:90-96 | initialBlockCount is one more than maxSize elements need in blocks that waste a slot each, neither more nor fewer |
| Spsc.MasksAreRemainders | source/utils/readerwriterqueue.h:440-443 | the ring positions of the model are the code's masked expressions |
| PowersOfTwo.CeilToPow2 | source/utils/readerwriterqueue.h:535-547 | the loop of shifts computes CeilOf on 64-bit words |
| PowersOfTwo.CeilIsLeast | source/utils/readerwriterqueue.h:535-547 | that is a power of two not below its argument, and the least one |
| PowersOfTwo.CeilWraps | source/utils/readerwriterqueue.h:535-547 | and 0 exactly where there is none, and for 0 |
| PowersOfTwo.CeilIsCeiling | source/utils/readerwriterqueue.h:535-547 | as a number, what the word computation gives is the least power of two not below the number of the word |
| Cursor.ReadAll | source/datastore/DatastoreIterator.cpp:37-81 | without server errors, repeated next yields exactly the rows in order, then null, with one FETCH per batch and one more |
| Cursor.DatastoreIterator.Next | source/datastore/DatastoreIterator.cpp:37-81 | a row returned is always the next one; null only at the end or after an error, and then the transaction is ended |
| Cursor.DatastoreIterator.FetchBatch | source/datastore/DatastoreIterator.cpp:40-48 | a new batch replaces the old one and skips no row |
| Cursor.DatastoreIterator.CloseAndReset | source/datastore/DatastoreIterator.cpp:84-112 | one CLOSE and one END if a query is open, nothing otherwise |
| Cursor.DatastoreIterator.ExecuteQuery | source/datastore/DatastoreIterator.cpp:165-210 | afterwards the iterator is open with all rows to come if and only if neither BEGIN nor DECLARE failed, or ready with an error and no transaction |
| Cursor.DatastoreIterator.Data | source/datastore/Datastore.cpp:32-41 | a query is refused, and nothing changed, exactly while another is open; otherwise it is executed, and open if and only if neither BEGIN nor DECLARE failed |
| Cursor.LogGrows | source/datastore/DatastoreIterator.cpp:84-210 | each command keeps BEGINs and ENDs paired with whether a transaction is open |
| Cursor.BeginsAreSeparated | source/datastore/DatastoreIterator.cpp:84-210 | between two successful BEGINs of any log the iterator produces there is an END |
| ObjectPool.Pool.constructor | source/utils/ObjectPool.h:19-28 | starts with the initial capacity, or the limit if that is less, all free |
| ObjectPool.Pool.Resize | source/utils/ObjectPool.h:131-150 | adds one cache of the count asked for, clamped to the limit; free and held cells keep partitioning all cells |
| ObjectPool.Pool.Create | source/utils/ObjectPool.h:43-64 | hands out a cell nobody holds; null exactly when none is free and the pool is at its limit or has no step |
| ObjectPool.Pool.Destroy | source/utils/ObjectPool.h:65-78 | moves a held cell back to the free ones; null is refused |
| ObjectPool.Pool.DestroyMany | source/utils/ObjectPool.h:80-105 | the same for a run of neighbouring cells |
| ObjectPool.Pool.Reset | source/utils/ObjectPool.h:111-123 | makes every cell of every cache free exactly once, from any state |
| ObjectPool.PartitionCount | source/utils/ObjectPool.h:131-150 | free and held cells together are as many as all caches have, which is mCurrItems |
| ObjectPool.ClampIsExact | source/utils/ObjectPool.h:133-136 | the clamp respects the limit exactly when the sum does not wrap, or wraps to more than the limit |
| ObjectPool.StarvedPool | source/utils/ObjectPool.h:43-64 | a pool of one item without a step gives null on the second create, whatever its limit |

## Left out

- Weak memory: fences and acquire or release orderings; the model is sequentially consistent.
- Element constructors and assignments that throw, alignment and placement new: an allocation succeeds or fails, that of
  the producer's first index included, and an element is written or moved in one step.
- Explicit producers, producer and consumer tokens, rotation, moving and swapping queues: the application uses none.
- Trying the producers in turn (try_dequeue over the list of producers): each implicit producer is modelled on its own,
  and `Blocking` lets a dequeue find an item at any producer or fail.
- Recycling of producers at thread exit: the macro for it is commented out at source/utils/concurrentqueue.h:194-202.
- dequeue_bulk with max 0, which claims nothing.
- The 32-bit finalizer (source/utils/concurrentqueue.h:361-375), and prehash of thread ids.
- ConcurrentRuns.RequisitionIsExclusive: try_enqueue, which may not create blocks, is covered by a creation that fails.
- That a thread is in one call at a time: in `ConcurrentQueue` it may be in several, of different producers, though in
  one call of the free list only.
- Semaphore.WakeupsMatch: how long spinning lasts, clocks, and the fairness of the kernel semaphore are left open.
- The m_count of the semaphore is unbounded in the model; it lies between minus the number of threads and the tokens
  given.
- WaitFree.EnqueueIsWaitFree: taking a block from the pool, the free list or the allocator is one access there. The loops
  of the free list have no such bound: they are lock-free only, and `FreeList` says what they come to.
- BlockingTickets.HolderFindsItem: blocks, index and items are left out there; `ImplicitQueue` has them for each producer.
- SpscSizes.Make: allocation failure in the constructor, which throws or aborts; and a MAX_BLOCK_SIZE of 2^63, twice which
  does not fit a word.
- IndexWords.ConsumerLooksUp: an index with more entries than there are blocks in one turn, where by
  IndexWords.ReadingsAgreeExactly the two readings of the lookup part.
- The destructors, and the debug-only reentrancy guards.
- Cursor.DatastoreIterator.Next: the bytes a row object points to live only until the next batch is fetched; results
  that are never cleared (the reply to DECLARE, and a failed result when a query is executed) are not tracked.
- Building SQL text, connecting, and logging in the database iterator; that a failed command aborts the transaction for
  the commands before END.
- ObjectPool.Pool.Destroy: returning a cell the client does not hold, which the code does not detect in a release build.
- The stray token at source/utils/ObjectPool.h:167.
- LogicHandler, IOHandler, schedule packing, topics, sleep timer, caches and the generated code: plumbing or stubs.

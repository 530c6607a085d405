# A model of the queue, the logger and the file transfer, with proofs

The repository is a distributed file store: clients cut files into parts, send them to storages and
fetch them back, and every program logs through an active object that runs on a multi-producer,
multi-consumer lock-free queue.  This project models the hard parts of that code in Dafny and proves
what they are meant to guarantee.  `dafny verify dfyconfig.toml` checks all of it.

## How the models are built

Concurrent code is a state machine.  Each module declares a `State`, the `Action`s a scheduler can
choose, when an action is `Enabled`, and a `Step` function with one case for each atomic load, store,
compare-exchange, fetch_add or access to shared memory.  `IsRun` is every finite schedule of any
number of threads, so a lemma about `IsRun(run)` and `run[i]` is about every reachable state.
Where a theorem speaks of a call and its argument, the run comes with the list of the actions taken
(`Does(run, acts)`; every run has one).  Memory is sequentially consistent.  Proofs carry a ghost companion that no step looks at and an
invariant `Inv`; the lemmas named `StepKeeps` show that every step keeps it.

In `ImplicitQueue`, `ExplicitQueue`, `Upload` and `Download` a predicate `Safe` says what an instruction must
not do (follow a null or dangling pointer, read raw storage, touch a block that somebody else owns,
leave the mapped file, violate an assertion of the code), and an instruction that is not safe may do anything at all.  That
no reachable instruction is unsafe is therefore a theorem, and every other theorem depends on it.
For the two queues it holds exactly under the conditions of the next section, which `IsProperRun`
collects: no dequeue asks for zero items, and an implicit producer's constructor got its index.  In the
table below a run of either queue is a proper run unless the row says otherwise.

Sequential code is imperative: the loops over flags, hash slots, index arrays, blocks and chunks are
methods over arrays and fields, proved against functions that the machines or the lemmas use.

| file | what it holds |
|---|---|
| FreeList, FreeListProgress | the CAS free list; its calls end |
| BlockPool | the initial pool, the free list and the heap behind `requisition_block` |
| Counters | the four indices every consumer of a sub-queue goes through |
| SubQueue | what both kinds of sub-queue share, and what a FIFO queue is |
| ImplicitQueue, ImplicitInvariant, ImplicitSteps, ImplicitRuns | an implicit producer: machine, invariant, its preservation, theorems |
| ExplicitQueue, ExplicitInvariant, ExplicitSteps, ExplicitRuns | the same for an explicit producer |
| ImplicitCalls, ImplicitGrowth, ExplicitCalls | whole calls: what an enqueue appends, when it is refused, how long calls take, when blocks are reused and indexes grow |
| ImplicitFaults, ExplicitFaults | runs in which an instruction is unsafe, and exactly when there are any |
| ProducerHash, ProbeLoop | the table from threads to producers; its loops over arrays |
| BlockFlags, IndexGrowth, BulkDequeue, TryDequeue | sequential parts of the queue |
| Circular, Modular | indices in words and masks; arithmetic |
| Logger | the active object |
| Parts, Upload, UploadOutcomes, Download | cutting a file, sending it, how an upload ends, fetching it back |
| Binary32, Hashing | the float quotient; hashing in chunks |

Assumptions: element constructors and assignments do not throw; `MOODYCAMEL_CPP11_THREAD_LOCAL_SUPPORTED`
is undefined (src/libtools/utils/concurentqueue.hh:138-149), so no hash key is deleted and no implicit
producer is recycled; fewer than 2^31 - 1 threads use a free list, and they and the blocks of the
initial pool are together fewer than 2^64; allocation may fail wherever the code allocates.

## Where the code does not do what it is for

Each of these is stated exactly, with the condition under which the code is right and an input for
which it is not.

- A file survives being cut up, sent and put together again exactly when the parts fit: `Parts.Clean`.
  The offsets use the quotient rounded down (src/client/client.cc:193-194, 256) and the sizes the
  quotient rounded up (src/libtools/network/misc.hxx:120), so unless the number of parts divides the
  size the last bytes are lost (`Parts.TenBytesInThreeParts`) or the size of the last part wraps around
  (`Parts.FiveBytesInFourParts`).  The comment at src/client/client.cc:189-190 says otherwise.  A part
  that reaches outside the file is hashed and sent from outside the mapping, and written outside it:
  uploads and downloads are safe exactly when no part does (`Upload.SafeIffInBounds`,
  `Download.EveryCopyIsInBounds`).
- From 2^24 on, the float quotient can be too small: a file of 2^25 + 1 bytes in one part loses its last
  byte (`Binary32.OnePartTooShort`), and the hash of a buffer of 64640001 bytes ignores its last byte
  (`Hashing.LastByteNotHashed`).  It can also be too large: for a buffer of 2000000500000 bytes the last
  chunk begins outside the buffer, and its size wraps around (`Hashing.LastChunkOutside`).  The code
  hashes the whole buffer exactly when the chunks fit it (`Hashing.TilesIff`), as they do below 2^24
  (`Hashing.SmallBuffersAreHashed`).
- `try_dequeue_bulk(it, 0)` is allowed, but the loop it enters handles a block in which nothing was
  claimed, against the note at src/libtools/utils/concurentqueue.hh:1408.  An implicit producer's block
  can be returned to the pool twice (`ImplicitFaults.ReturnedTwice`), and an explicit producer's index
  entry be read while it is written (`ExplicitFaults.EntryIsRead`).  All instructions are safe in all
  runs exactly when every dequeue asks for at least one item (`ImplicitFaults.SafeIffItemsAreAskedFor`,
  `ExplicitFaults.SafeIffItemsAreAskedFor`).
- `ImplicitProducer`'s constructor ignores a failed allocation of its index
  (src/libtools/utils/concurentqueue.hh:2208-2214), and the first enqueue then follows a null pointer
  (`ImplicitFaults.NullIndex`).  All instructions are safe exactly when the allocation succeeded
  (`ImplicitFaults.SafeIffIndexed`).
- A broken socket counts as an acknowledgement, because `blocking_receive` returns silently.  A part that
  progress counts is missing exactly when its task's socket broke before the part was stored
  (`Upload.MissingIffBrokenBefore`); any upload can end with full progress and nothing stored
  (`Upload.BrokenSocketsCount`).
- A part that is damaged on the way is refused and its task fails, but then progress never reaches the
  number of parts if the task had a further part to send, and `request_upload` waits for that before it
  looks at its tasks: the client hangs (`UploadOutcomes.DamageStopsProgress`).
- When the logger is destroyed, only the destroying thread's messages are certain to be written
  (`Logger.OnlyTheDestroyerIsSafe`), and of those the ones whose enqueue did not fail, since
  `Active::Send` ignores its result; if the destructor's own message is lost, it joins for ever
  (`Logger.LostStopNeverEnds`).

## Model

| member | source | states |
|---|---|---|
| FreeList.OneOwner | src/libtools/utils/concurentqueue.hh:1254-1305 | in every run a node is in at most one thread's hand, and then it is not the head and its count is the number of threads still holding a reference |
| FreeList.GetsUnowned | src/libtools/utils/concurentqueue.hh:1285-1292 | the node try_get is about to return is nobody's yet, and its should-be bit is clear, as asserted |
| FreeList.CountIsReferences | src/libtools/utils/concurentqueue.hh:1254-1333 | the low 31 bits of a node's count are the list's reference, while it has one, plus the threads holding one |
| FreeList.NoAba | src/libtools/utils/concurentqueue.hh:1282-1293 | when the compare-exchange on the head succeeds, the list loses exactly its head, whose should-be bit is clear, although `next` was read earlier |
| FreeList.PushesOne | src/libtools/utils/concurentqueue.hh:1321-1331 | when the push succeeds, the list gains exactly the node in front |
| FreeList.OthersLeaveList | src/libtools/utils/concurentqueue.hh:1254-1333 | every other instruction leaves the list as it is |
| FreeList.ExactlyOnePlace | src/libtools/utils/concurentqueue.hh:1254-1333 | every node is in exactly one place: in a hand, listed, being linked, left to its holders, or being taken |
| FreeList.OneLinker | src/libtools/utils/concurentqueue.hh:1311-1333 | one copy of add_knowing_refcount_is_zero per node at a time |
| FreeList.NeverStranded | src/libtools/utils/concurentqueue.hh:1298-1301 | a node left to its holders stays so until the thread that drops the last reference starts to link it |
| FreeList.AtRest | src/libtools/utils/concurentqueue.hh:1254-1333 | with no call in flight a node is listed with count 1 or in a hand with count 0 |
| FreeList.LoneGetTakesHead | src/libtools/utils/concurentqueue.hh:1268-1305 | with no call in flight, a try_get that runs by itself ends after six instructions: it owns the head and the rest of the list stands, or the list is empty and nothing has changed |
| FreeList.LoneAddPutsInFront | src/libtools/utils/concurentqueue.hh:1254-1266 | with no call in flight, an add that runs by itself ends after four instructions with its node in front of the list as it was |
| FreeList.GivesUpOnlyOnEmpty | src/libtools/utils/concurentqueue.hh:1273-1304 | whatever the other threads do, a try_get that ends without a node has seen an empty list at some moment since it began |
| FreeListProgress.LockFree | src/libtools/utils/concurentqueue.hh:1268-1333 | lock-freedom: while no call starts and no exchange on the head succeeds, n threads together execute at most n * (6n + 16) instructions |
| FreeListProgress.CallsEnd | src/libtools/utils/concurentqueue.hh:1254-1333 | in every run of n threads, c calls take at most 2c * n * (6n + 16) instructions together, whatever the schedule |
| FreeList.StepKeeps | src/libtools/utils/concurentqueue.hh:1254-1333 | every instruction, new node and hand-over keeps the invariant |
| BlockPool.BlockIsInOnePlace | src/libtools/utils/concurentqueue.hh:2827-2879 | conservation in every run: a block is unissued, in exactly one owner's hand, on the free list, or on its way onto it or off it, and in one of these only |
| BlockPool.RequisitionGivesUnowned | src/libtools/utils/concurentqueue.hh:2862-2879 | requisition_block never gives out a block that somebody has, whether it comes from the array, the free list or the heap |
| BlockPool.CounterNeverWraps | src/libtools/utils/concurentqueue.hh:2827-2836 | the counter passes the size by at most one per thread, so it never wraps, and exactly the blocks below it have been issued |
| BlockPool.HeapComesLast | src/libtools/utils/concurentqueue.hh:2863-2877 | in every run the free list and then the heap are asked only when the whole initial array has been issued |
| BlockPool.LoneRequisition | src/libtools/utils/concurentqueue.hh:2862-2879 | with no call in flight, a call that runs by itself ends owning the next block of the array; if there is none, the head of the free list; if that is empty and it may allocate, what the allocator gives; and else nothing, with nothing changed |
| BlockPool.CallGetsABlock | src/libtools/utils/concurentqueue.hh:2862-2879 | whatever the other threads do, a call that ends has got a block it did not have, unless the allocator gave nothing, or it may not allocate and try_get returned nothing |
| BlockPool.StepKeeps | src/libtools/utils/concurentqueue.hh:2827-2879 | every instruction keeps the invariant and is a step of FreeList, or leaves the free list alone |
| Counters.HeadNeverPassesTail | src/libtools/utils/concurentqueue.hh:1748-1795 | whatever mix of single and bulk dequeues, headIndex plus all grants still to be added to it never passes tailIndex |
| Counters.OvercommitBelowTicket | src/libtools/utils/concurentqueue.hh:1774-1779 | the assertion overcommit <= myDequeueCount, for single and bulk dequeues |
| Counters.ClaimsAreDisjoint | src/libtools/utils/concurentqueue.hh:1795-1795 | no index is claimed by two consumers, and claims lie below head |
| Counters.ClaimsFormAPrefix | src/libtools/utils/concurentqueue.hh:2046-2054 | the indices claimed so far are a prefix, and a claim is never undone or made twice |
| Counters.CountersAtRest | src/libtools/utils/concurentqueue.hh:1836-1838 | with no dequeue in flight, optimistic minus overcommit equals head |
| Counters.AloneNeverRefused | src/libtools/utils/concurentqueue.hh:2032-2054 | a dequeue that runs by itself claims the first min(max, size) items and leaves the counters caught up |
| Counters.NoNeedlessRefusal | src/libtools/utils/concurentqueue.hh:2044-2050 | whatever the other threads do, a request is granted in full, or all the room that earlier tickets and refunds it has not seen leave |
| SubQueue.ClaimIsQueueStep | src/libtools/utils/concurentqueue.hh:2336-2348 | an instruction on the counters leaves the queue alone or takes one consumer's claim from its front |
| ImplicitSteps.StepKeeps | src/libtools/utils/concurentqueue.hh:2272-2404 | every instruction of the producer, a consumer that asked for items, or another producer is safe and keeps the invariant |
| ImplicitRuns.EveryStepIsSafe | src/libtools/utils/concurentqueue.hh:2272-2404 | in every proper run, no reachable instruction follows a bad pointer, reads raw storage, touches a block it does not own, returns a block twice or violates an assertion (2279, 2700, 2728, 2733 and those of set_many_empty) |
| ImplicitRuns.EachStepIsAQueueStep | src/libtools/utils/concurentqueue.hh:2272-2404 | the sub-queue refines a FIFO queue, step by step: a step appends one item, or takes a claim from the front, or leaves the queue alone |
| ImplicitCalls.EnqueueAppendsItsItem | src/libtools/utils/concurentqueue.hh:2272-2333 | a call of enqueue(x), whatever happens meanwhile, appends x and nothing else, unless its own test, the index's allocation or the pool refused it; then it appends nothing |
| ImplicitCalls.EnqueueIsWaitFree | src/libtools/utils/concurentqueue.hh:2272-2333 | an enqueue is over after at most twelve instructions of its own, a call of the pool or the allocator counting as one, whatever anybody else does |
| ImplicitCalls.DequeueIsWaitFree | src/libtools/utils/concurentqueue.hh:2558-2655 | a dequeue of at most max items is over after at most 5 * max + 10 instructions of its own, whatever anybody else does |
| ImplicitCalls.LoneDequeueGetsTheFirstItems | src/libtools/utils/concurentqueue.hh:2558-2655 | with no dequeue under way, one that runs by itself ends, has moved head on by min(max, size), and every item before head has been received unchanged |
| ImplicitGrowth.GrowsOnlyWhenFull | src/libtools/utils/concurentqueue.hh:2681-2703 | while no dequeue is under way an enqueue doubles the index only if more than BLOCK_SIZE * (capacity - 1) items are waiting |
| ImplicitRuns.ConsumersGetTheirItems | src/libtools/utils/concurentqueue.hh:2350-2390 | the consumer of index k receives the k-th item enqueued, across block reuse and index growth |
| ImplicitRuns.TakenOnce | src/libtools/utils/concurentqueue.hh:2380-2383 | an item about to be moved out has not been received before |
| ImplicitRuns.HistoryOnlyGrows | src/libtools/utils/concurentqueue.hh:2272-2404 | what was enqueued or received is never changed |
| ImplicitRuns.NothingIsLost | src/libtools/utils/concurentqueue.hh:2336-2404 | with no dequeue under way every claimed item has been received |
| ImplicitRuns.TailStaysClose | src/libtools/utils/concurentqueue.hh:2276-2284 | the guard keeps tail minus head below half the index range in every state |
| ImplicitRuns.GuardIsExactInWords | src/libtools/utils/concurentqueue.hh:2279-2280 | circular_less_than on 64-bit words makes the guard's unbounded test, and confirms the assertion before it, in every run |
| ImplicitRuns.AnyHeaderWillDo | src/libtools/utils/concurentqueue.hh:2719-2735 | the index header a consumer loaded before a growth, with the tail it loaded, leads to the same entry and block as the current one |
| ImplicitRuns.LookupNeverMoves | src/libtools/utils/concurentqueue.hh:2680-2717 | from enqueue until it is moved out, an item is found through the same entry with the same key and block: no growth, reuse or rewind re-keys it |
| ImplicitRuns.LookupIsExactInWords | src/libtools/utils/concurentqueue.hh:2724-2732 | in every run the masked 64-bit look-up, with the division read as signed or as unsigned, finds the slot of the model, however old the claim, in an index of at most 2^64 / BLOCK_SIZE entries |
| ImplicitRuns.ReleaseIsExclusive | src/libtools/utils/concurentqueue.hh:2385-2394 | a block is given back by the consumer whose count completed it, while it is neither pooled, nor another's, nor held by another consumer, nor written to |
| ImplicitRuns.BlocksKeptAtRest | src/libtools/utils/concurentqueue.hh:2290-2320 | with no call under way the producer keeps exactly the blocks from head's to the last item's: every other one has been given back |
| ImplicitSteps.GrowKeeps | src/libtools/utils/concurentqueue.hh:2737-2779 | publishing a doubled index keeps the invariant: every live block resolves to the same entry through it |
| ImplicitSteps.GrownEntry | src/libtools/utils/concurentqueue.hh:2752-2760 | the rotation takes a block's entry to the place the lookup computes in the new ring |
| ImplicitFaults.SafeIffItemsAreAskedFor | src/libtools/utils/concurentqueue.hh:2558-2651 | with an index, every instruction of every run is safe exactly when dequeues must ask for at least one item |
| ImplicitFaults.ReturnedTwice | src/libtools/utils/concurentqueue.hh:2636-2647 | a run in which a dequeue_bulk of 0 items is about to count up a full block that is in the pool already, and to return it again |
| ImplicitFaults.SafeIffIndexed | src/libtools/utils/concurentqueue.hh:2208-2214 | from a constructed producer every instruction of every run is safe exactly when it has an index |
| ImplicitFaults.NullIndex | src/libtools/utils/concurentqueue.hh:2680-2684 | without one, the first enqueue reads an entry through the null pointer |
| ExplicitSteps.StepKeeps | src/libtools/utils/concurentqueue.hh:1645-1843 | every instruction of the producer, a consumer that asked for items, or another producer is safe and keeps the invariant |
| ExplicitRuns.EveryStepIsSafe | src/libtools/utils/concurentqueue.hh:1645-1843 | in every proper run no reachable instruction is unsafe; in particular plain entries and cells are never written while a consumer is about to touch them |
| ExplicitRuns.EachStepIsAQueueStep | src/libtools/utils/concurentqueue.hh:1645-1745 | the sub-queue refines a FIFO queue, step by step |
| ExplicitCalls.EnqueueAppendsItsItem | src/libtools/utils/concurentqueue.hh:1645-1745 | a call of enqueue(x), whatever happens meanwhile, appends x and nothing else, unless its own test, the index's allocation or the pool refused it; then it appends nothing |
| ExplicitCalls.EnqueueIsWaitFree | src/libtools/utils/concurentqueue.hh:1645-1745 | an enqueue is over after at most 73 instructions of its own, 32 of them to read the flags of a block and 32 to reset those of a new one, a call of the pool or the allocator counting as one, whatever anybody else does |
| ExplicitCalls.DequeueIsWaitFree | src/libtools/utils/concurentqueue.hh:2032-2120 | a dequeue of at most max items is over after at most 4 * max + 10 instructions of its own, whatever anybody else does |
| ExplicitCalls.LoneDequeueGetsTheFirstItems | src/libtools/utils/concurentqueue.hh:2032-2120 | with no dequeue under way, one that runs by itself ends, has moved head on by min(max, size), and every item before head has been received unchanged |
| ExplicitCalls.OldestBlockIsReused | src/libtools/utils/concurentqueue.hh:1653-1663 | if every item of the oldest block has been taken and no dequeue is under way, an enqueue that needs a block takes that one: it asks neither pool nor heap, is never refused, and neither circle nor index grows |
| ExplicitCalls.IndexSizeBound | src/libtools/utils/concurentqueue.hh:1678-1686 | the index never has more than twice the slots that its blocks need, or that it was made for |
| ExplicitRuns.TailStaysInWindow | src/libtools/utils/concurentqueue.hh:1649-1663 | the items waiting fit the blocks of the circle |
| ExplicitRuns.GuardIsExactInWords | src/libtools/utils/concurentqueue.hh:1668-1671 | while the circle has fewer than 2^58 blocks, the word comparisons of the guard and of the assertion before it say what the unbounded ones say, and the assertion holds |
| ExplicitRuns.ConsumersGetTheirItems | src/libtools/utils/concurentqueue.hh:1795-1835 | the consumer of index k receives the k-th item enqueued while the producer reuses blocks |
| ExplicitRuns.TakenOnce | src/libtools/utils/concurentqueue.hh:1811-1833 | an item about to be moved out has not been received before |
| ExplicitRuns.HistoryOnlyGrows | src/libtools/utils/concurentqueue.hh:1645-1843 | what was enqueued or received is never changed |
| ExplicitRuns.NothingIsLost | src/libtools/utils/concurentqueue.hh:1748-1843 | with no dequeue under way every claimed item has been received |
| ExplicitRuns.IndexListsTheCircle | src/libtools/utils/concurentqueue.hh:1649-1732 | between enqueues the circular list and the last pr_blockIndexSlotsUsed entries list the same blocks in the same order, with bases BLOCK_SIZE apart, and the list closes |
| ExplicitRuns.LiveBlockStaysInWindow | src/libtools/utils/concurentqueue.hh:1653-1663 | a block holding an item not yet taken stays in the circle, found through the index, whatever is reused |
| ExplicitRuns.AnyHeaderWillDo | src/libtools/utils/concurentqueue.hh:1800-1809 | the header a consumer loaded before a doubling, with the front it loaded, leads to the same block as the current one |
| ExplicitRuns.LookupNeverMoves | src/libtools/utils/concurentqueue.hh:1649-1732 | from enqueue until it is moved out, an item is found in the same block |
| ExplicitRuns.LookupIsExactInWords | src/libtools/utils/concurentqueue.hh:1803-1809 | the same for the explicit index and its front |
| ExplicitRuns.KeepsItsCircle | src/libtools/utils/concurentqueue.hh:1694-1707 | between enqueues the producer owns exactly pr_blockIndexSlotsUsed blocks |
| ExplicitSteps.AdvanceFlags | src/libtools/utils/concurentqueue.hh:1653-1656 | a block is reused only when all its elements are finished |
| ExplicitSteps.LinkCircle | src/libtools/utils/concurentqueue.hh:1698-1706 | inserting a block keeps the circle |
| ExplicitSteps.GrowKeeps | src/libtools/utils/concurentqueue.hh:2141-2178 | publishing a doubled index keeps the invariant: every entry of the window is where the lookup computes it |
| ExplicitFaults.SafeIffItemsAreAskedFor | src/libtools/utils/concurentqueue.hh:2032-2120 | every instruction of every run is safe exactly when dequeues must ask for at least one item |
| ExplicitFaults.EntryIsRead | src/libtools/utils/concurentqueue.hh:2057-2075 | a run in which a dequeue_bulk of 0 items is about to read the index entry that the producer is about to write |
| ProducerHash.SameProducerForEver | src/libtools/utils/concurentqueue.hh:3155-3303 | once a thread has been given a producer every later call returns that one, across any growth and any failure |
| ProducerHash.NeverShared | src/libtools/utils/concurentqueue.hh:3155-3303 | different threads never share a producer |
| ProducerHash.AQuarterIsFree | src/libtools/utils/concurentqueue.hh:3219-3266 | 4 * used < 3 * capacity in every table at every moment, counting first inserts, stale tables and lazy re-inserts |
| ProducerHash.ProbeLoopsEnd | src/libtools/utils/concurentqueue.hh:3178-3215 | no probe loop goes round a table |
| ProducerHash.OneGrower | src/libtools/utils/concurentqueue.hh:3221-3255 | one thread at a time grows the table, in front of the newest one |
| ProducerHash.NullOnlyIfAllocationFails | src/libtools/utils/concurentqueue.hh:3233-3266 | with successful allocations no call returns null |
| ProducerHash.LoneCallReturns | src/libtools/utils/concurentqueue.hh:3155-3303 | with no call under way, one that runs by itself with successful allocations ends, returns a producer, leaves the resize lock free, and the newest table has the thread's id |
| ProducerHash.TablesStaySmall | src/libtools/utils/concurentqueue.hh:3227-3231 | no table ever has more slots than four for each thread, or the number it starts with |
| ProducerHash.WaitsOnlyWhenFull | src/libtools/utils/concurentqueue.hh:3257-3301 | a thread waits for a bigger table only if its ticket is at least three quarters of the capacity of the one it has looked at |
| ProbeLoop.Probed.Find | src/libtools/utils/concurentqueue.hh:3177-3215 | the search loop ends, and finds an id exactly when it is in the table |
| ProbeLoop.Probed.Add | src/libtools/utils/concurentqueue.hh:3277-3294 | the insertion fills one empty slot, where the id can be found, and every other id still can |
| BlockFlags.Block.IsEmptyFlags | src/libtools/utils/concurentqueue.hh:1365-1378 | true exactly when every flag is set |
| BlockFlags.Block.IsEmptyCounter | src/libtools/utils/concurentqueue.hh:1380-1387 | a counter that agrees with the flags is full exactly when every flag is set |
| BlockFlags.Block.SetManyEmptyFlags | src/libtools/utils/concurentqueue.hh:1411-1422 | marks exactly the flags of the elements [i, i + count) |
| BlockFlags.Block.SetManyEmptyCounter | src/libtools/utils/concurentqueue.hh:1423-1428 | a counter of the marks so far stays the number of marks and never passes BLOCK_SIZE, as asserted; the answer is that every element is now marked |
| BlockFlags.Block.SetOneByOne | src/libtools/utils/concurentqueue.hh:1392-1429 | count calls of set_empty leave the flags and the count of one set_many_empty, keep the two forms in agreement, and the last answer is that the block is empty |
| BlockFlags.Block.SetAllEmpty | src/libtools/utils/concurentqueue.hh:1432-1444 | sets every flag and fills the counter; the two agree |
| BlockFlags.Block.ResetEmpty | src/libtools/utils/concurentqueue.hh:1447-1459 | clears every flag and the counter; the two agree |
| BlockFlags.MarksAreCounted | src/libtools/utils/concurentqueue.hh:1365-1429 | flags and counter describe the same number of finished elements, and either finds the block empty exactly when the other does |
| IndexGrowth.GrowImplicit | src/libtools/utils/concurentqueue.hh:2752-2773 | the copying loop computes the ring that ImplicitQueue publishes: the old ring rotated so that its tail comes last, then new entries |
| IndexGrowth.GrowExplicit | src/libtools/utils/concurentqueue.hh:2156-2170 | the copying loop computes the array that ExplicitQueue publishes: the used entries, oldest first |
| BulkDequeue.Consumer.Dequeue | src/libtools/utils/concurentqueue.hh:2336-2404 | alone, takes the first item if there is one, and otherwise changes nothing |
| BulkDequeue.Consumer.DequeueBulk | src/libtools/utils/concurentqueue.hh:2558-2655 | alone, takes the first min(max, size) items in order; counters, block counts and freed blocks as stated by After |
| BulkDequeue.Consumer.DequeueSingly | src/libtools/utils/concurentqueue.hh:2336-2404 | up to max single dequeues reach the very same state as one bulk dequeue |
| BulkDequeue.PartStep | src/libtools/utils/concurentqueue.hh:2636-2647 | one addition to a block's count frees it exactly when as many single additions would |
| TryDequeue.Queue.TryDequeue | src/libtools/utils/concurentqueue.hh:923-954 | whatever sizes were seen: succeeds exactly when some size was positive and some sub-queue is not empty, and takes the first item of the largest of the first three seen to hold something, or if that is empty of the first one in the list that is not |
| Circular.LessIff | src/libtools/utils/concurentqueue.hh:314-322 | circular_less_than on words holds exactly when the second index is ahead by less than half the range, modulo the range |
| Circular.LessIsTrueOrder | src/libtools/utils/concurentqueue.hh:314-322 | it is the true order for indices less than half the range apart |
| Circular.HalfIsTooFar | src/libtools/utils/concurentqueue.hh:314-322 | at half the range and beyond the order is lost |
| Circular.MaskIsMod | src/libtools/utils/concurentqueue.hh:1809-1809 | masking with a power of two less one is the remainder |
| Circular.LookupFindsPlace | src/libtools/utils/concurentqueue.hh:2724-2732 | for every k, (front + offset) & (size - 1) is front - k modulo the size in w-bit words, with the division read as signed or as unsigned, because the size divides 2^w / BLOCK_SIZE |
| Logger.ExecutedInOrder | src/libtools/utils/logger.cc:19-34 | each thread's executed messages are a prefix, in order, of the messages it passed to Send whose enqueue succeeded; of all it passed, if none failed |
| Logger.SentIsWhatWasPassed | src/libtools/utils/logger.cc:19-22 | a thread's sub-queue holds the very messages it passed to Send, in order, less those whose enqueue failed, as a function of the actions taken |
| Logger.NothingOfTheDestroyerIsLost | src/libtools/utils/logger.cc:13-34 | when Run returns, everything the destroying thread passed to Send and enqueued has been executed (all it passed, if no enqueue of its failed) and nothing after the destructor's message |
| Logger.CanExit | src/libtools/utils/logger.cc:13-34 | once the destructor's message is enqueued Run can come to its end, whatever has happened so far |
| Logger.CanExecute | src/libtools/utils/logger.cc:24-34 | until the destructor's message is taken the runner can come to execute whatever any thread has enqueued |
| Logger.DoneMeansLeaving | src/libtools/utils/logger.cc:28-35 | once done_ is set no further message is taken |
| Logger.LostStopNeverEnds | src/libtools/utils/logger.cc:15-24 | if the enqueue of the destructor's message failed, Run never returns |
| Logger.OnlyTheDestroyerIsSafe | src/libtools/utils/logger.cc:15-36 | the enqueued messages of a thread have been executed when Run returns, in every run, exactly if it is the destroying thread |
| Logger.OthersMayLoseMessages | src/libtools/utils/logger.cc:15-36 | for any destroying thread, any other thread and any message there is a run in which that message, enqueued first, is never executed |
| Parts.CutsCleanlyIff | src/libtools/network/misc.hxx:115-128 | all parts lie in the file and every byte is in one, exactly when parts * c is the size, or one part has everything, or the first of two has |
| Parts.ExactQuotient | src/libtools/network/misc.hxx:120-120 | with the exact quotient that is: the number of parts divides the size, or one byte in two parts |
| Parts.TenBytesInThreeParts | src/libtools/network/misc.hxx:120-127 | the last two of ten bytes are in none of three parts |
| Parts.FiveBytesInFourParts | src/libtools/network/misc.hxx:121-126 | the size of the last of four parts of five bytes wraps around |
| Upload.ShareOut | src/client/client.cc:124-149 | the loops of request_upload compute the descending ranges |
| Upload.RangesPartition | src/client/client.cc:129-149 | every part belongs to exactly one task |
| Upload.SafeIffInBounds | src/client/client.cc:187-206 | every instruction of every upload is safe exactly when every part lies in the file; otherwise some task hashes and sends what lies outside the mapping |
| Upload.ProgressIsStored | src/client/client.cc:187-214 | if every part lies in the file, progress - 1 never exceeds the parts stored exactly as sent, plus those counted without an answer |
| Upload.UnbrokenProgress | src/client/client.cc:187-214 | if every part lies in the file, then while no socket has failed progress - 1 never exceeds the parts stored exactly as sent |
| Upload.AllPartsStored | src/client/client.cc:187-214 | if every part lies in the file, then when every task has returned and no socket has failed the storages hold every part, and progress is total + 1 |
| Upload.NothingElseStored | src/storage/storage_callbacks.cc:23-40 | if every part lies in the file, then whatever is damaged in transit a storage holds nothing under a part's number but that part, and only its own task's parts |
| Upload.MissingIffBrokenBefore | src/libtools/network/session.cc:145-171 | if every part lies in the file, in every run a part that progress counts is missing exactly when its task's socket broke before it was stored |
| Upload.BrokenSocketsCount | src/libtools/network/session.cc:145-171 | for every file and sharing there is a run in which every task returns, progress is total + 1 and nothing is stored |
| UploadOutcomes.ThrownOnlyIfDamaged | src/storage/storage_callbacks.cc:25-58 | if every part lies in the file, in every run a task fails only if one of its parts was damaged in transit |
| UploadOutcomes.DamageIsNoticed | src/libtools/network/session.cc:244-262 | a task whose part was damaged never gets past that part, unless its socket breaks afterwards |
| UploadOutcomes.DamageStopsProgress | src/client/client.cc:37-42 | then progress never counts that part or the task's later ones, so if there is a later one it stays below the total and the loop that waits for the total never ends |
| UploadOutcomes.SteadyUploadIsStored | src/client/client.cc:187-214 | without damage and broken sockets no task fails, and when none can go on every task has returned, every part is stored and progress is total + 1 |
| UploadOutcomes.SteadyRunsEnd | src/client/client.cc:187-214 | without damage and broken sockets an upload has at most three steps a part and one a task |
| UploadOutcomes.CanFinish | src/client/client.cc:187-214 | whatever has happened so far, without further damage or failure every task can come to its end |
| UploadOutcomes.UploadSucceeds | src/client/client.cc:129-214 | for every file, sharing and cut inside the file there is an upload that stores every part |
| Download.EveryCopyIsInBounds | src/client/client.cc:330-333 | memcpy stays inside the mapped file in every run exactly when every part asked for, of the size get_part_size gives it, lies in the file |
| Download.CoveredIsRestored | src/client/client.cc:323-338 | if every part lies in the file, then when all tasks are done a byte that some part covers is the file's, under every interleaving |
| Download.UncoveredIsLost | src/client/client.cc:323-338 | if the parts asked for lie in the file, a byte that no part covers never gets its value |
| Download.CleanCutRestores | src/client/client.cc:255-279 | a clean cut is restored byte for byte under every interleaving of tasks |
| Download.OtherCutsLose | src/client/client.cc:255-279 | any other cut cannot be sent, or loses a byte that is not zero in every run |
| Download.SmallFileComesBack | src/client/client.cc:255-279 | with the float quotient: a file below 2^24 bytes comes back whenever the number of parts divides its size |
| Download.ProgressCountsTasks | src/client/client.cc:267-338 | in every run progress is 1 plus the number of tasks that are done, so the loop that waits for it ends when at most one task is not, and it is one more than their number exactly when all are |
| Download.DownloadsEnd | src/client/client.cc:298-338 | no download goes on for ever, and one that cannot go on has all its tasks done |
| Download.CanComplete | src/client/client.cc:298-338 | whatever has been copied so far, a download can be completed |
| Binary32.SmallSizesAreExact | src/libtools/network/misc.hxx:120-120 | the float quotient rounded up is the exact one for every size below 2^24 |
| Binary32.SmallFilesCutCleanly | src/libtools/network/misc.hxx:115-128 | below 2^24 the cut is clean exactly when the parts are equal, or for one byte in two parts |
| Binary32.ExactDivision | src/libtools/network/misc.hxx:120-120 | a division without remainder is computed exactly |
| Binary32.FloatCeilExists | src/libtools/network/misc.hxx:120-120 | the quotient rounded up has a value for all operands |
| Binary32.OnePartTooShort | src/libtools/network/misc.hxx:120-127 | the quotient for 2^25 + 1 bytes in one part is 2^25 and no other, so the last byte is lost |
| Hashing.PartsFor | src/libtools/files/file.cc:24-30 | one chunk below a megabyte, else as many as whole megabytes |
| Hashing.HashBuffer | src/libtools/files/file.cc:101-120 | the loop absorbs the buffer up to parts * c, and reaches outside it exactly when the last chunk begins outside |
| Hashing.TilesIff | src/libtools/files/file.cc:34-47 | the chunks tile the buffer exactly when (parts - 1) * c <= size <= parts * c |
| Hashing.TilesBelow10To12 | src/libtools/files/file.cc:24-47 | with the exact quotient rounded up, which the code's is below 2^24, the chunks tile every size below 10^12 |
| Hashing.SmallBuffersAreHashed | src/libtools/files/file.cc:101-120 | with the code's float quotient, a buffer below 2^24 bytes is tiled and absorbed whole |
| Hashing.LastByteNotHashed | src/libtools/files/file.cc:101-120 | the code's float quotient for a buffer of 64640001 bytes is such, and no other, that the chunks end before its last byte |
| Hashing.LastChunkOutside | src/libtools/files/file.cc:34-47 | the code's float quotient for 2000000500000 bytes is such, and no other, that the last chunk begins outside them and its size wraps around |

## Left out

- Weak memory orderings and fences: every access is sequentially consistent, so the orderings named in the code are not checked.
- Element types whose constructor or assignment may throw, and the catch blocks of both kinds of producer.
- `enqueue_bulk`, consumer tokens, moving and swapping queues, debug and memory-tracking code: more cases of the same invariants.
- What else happens in a run with a dequeue of 0 items, after its first unsafe instruction, is left open.
- The queues and the pools are separate machines: ImplicitQueue and ExplicitQueue take any block that nobody has, and BlockPool.RequisitionGivesUnowned is what makes that the behaviour of `requisition_block`.
- Several producers sharing the pool are one producer and an environment that takes, writes and returns blocks in any way.
- BLOCK_SIZE is fixed at 32 and the explicit producer uses flags, as the default traits have it; MAX_SUBQUEUE_SIZE is unlimited.
- ExplicitRuns.GuardIsExactInWords: supposes fewer than 2^58 blocks in the circle, because a reused block is opened without the test; nothing in the code bounds their number but memory.
- Destructors of producers, and recycling of producers.
- Circular.LessIsTrueOrder: relates single comparisons to unbounded indices; that the tests of a dequeue stay within half the range is shown only for the enqueue guard.
- ProducerHash.LoneCallReturns: does not bound a call among others, because a thread may wait for another that is growing the table (src/libtools/utils/concurentqueue.hh:3298-3301); calls on the free list and both sub-queues are bounded among others.
- SHA-1 is any function of the bytes absorbed; that different bytes have different hashes is assumed only of a change in transit, in Upload.
- Upload: a storage's message to the master, disk failures, and files whose part is larger than the 32-bit size field of a packet.
- The master's choice of storages and its database: any shares of the parts, and one location for each part.
- Download: what a storage returns for a part is the part it was sent (Upload.NothingElseStored says it holds nothing else).
- Option parsing, progress bar, permissions, free-space checks, sockets as such, and the text of log messages.

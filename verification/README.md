# Queue, parser and server cores of audio_tool_api: models and proofs

A Dafny project that models the parts of the repository whose correctness is hard to see from
reading them, and proves what they promise. `dafny verify dfyconfig.toml` checks everything.

## What is modelled

**The lock-free queue** (`audio_tool_api/external/concurrentqueue.h`), as state machines. A step is
one atomic access of shared memory, or one construction or move of an element; a thread's position
in the code and its locals are its program counter; a *run* is any sequence of steps of any number
of threads, and the main theorems speak of every run. Allocation success, the block handed out and
uninitialised memory are left open.

- `FreeList`: try_get and add with the reference count and the SHOULD_BE_ON_FREELIST bit;
  `FreeListAnswers`: what the calls return.
- `Tickets`: the dequeue protocol over tailIndex, headIndex, dequeueOptimisticCount and
  dequeueOvercommit, for single and bulk dequeues; `TicketsAlone`: step by step for one consumer.
- `BlockIndex`: the ring of (base, block) entries of an implicit producer, with the entries that
  outdated headers share, growth, rewinding and recycling.
- `ImplicitProducer` is the machine that joins tickets, index, blocks, pool and elements;
  `ImplicitInvariant` to `ImplicitRelease` prove its invariant step by step, `ImplicitQueue`,
  `ImplicitRuns` and `ImplicitPool` what follows for whole runs; `ImplicitAlone` and `EnqueueAlone`
  say what a dequeue and an enqueue that meet no other come to, from any reachable state.
- `ExplicitProducer` to `ExplicitQueue`: the same for the explicit producer with single enqueues and
  dequeues: the circular block list, its reuse, the emptiness flags and the circular index.
  `ExplicitLimit`: its size limit. `ExplicitAlone`: what its operations come to when they meet no other.
- `ProducerHash`: the chain of hash tables that finds a thread's implicit producer;
  `ProducerHashAnswers`: when a call returns one.
- `IndexGrowth`: the loops that copy either block index into one of twice the size.
- `Masks`, `WrappedIndices`, `WrappedTickets`, `WrappedRuns`: what masks, unsigned division, comparison and counters
  modulo 2^64 compute; the protocols above use unbounded counters and Euclidean remainders.

Fields marked auxiliary in the models (places, tickets, stages, histories) are read by no decision of
the code; they only say what the proofs speak of. In the two producer machines a step that would
fail an assertion, follow a null pointer, read an empty slot or construct over an element sets
`fault`, so that "never faults" is a statement about the code, not an assumption. The size limit of
a producer stands for both room tests of the code: that this is exact on words is
`WrappedIndices.RoomTestIsLimit`.

**The semaphore and the blocking queue** (`blocking_concurrentqueue.h`): `Semaphore` has the count, the
kernel semaphore, the spinning, the timed wait with its repair and the multi-permit wait;
`BlockingQueue` puts it in front of a queue; `SemaphoreAnswers` says what the calls of both return.

**The multipart parser** (`multipart_parser.c`) and its use in `http_request.cpp`: `Multipart` specifies
the parser one byte at a time (`Feed`, `FeedAll`) and proves the class `Parser`, with the original's
loop, marks and lookbehind buffer, against it; `MultipartSearch` relates it to searching for the
delimiter, `MultipartForm` to the grammar of section 5.1.1 of RFC 2046 (used for forms by section
4.1 of RFC 7578), and `MultipartLanguage` says exactly which bodies are accepted and where the others
are rejected.

**Smaller imperative cores**: `Base64` (section 4 of RFC 4648), `OutputBuffer` (the growing output buffer
and the packet reader), `Loads`, `Scheduler` and `SchedulerAnswers` (the accept loop, work queues, stealing and workers).

## Findings

- MAX_SUBQUEUE_SIZE does not bound an explicit producer's sub-queue, although lines 313-317 and
  928-930 of `concurrentqueue.h` say so. `enqueue` tests the size when it takes a new block but not
  when it takes over the emptied block ahead (line 1791). If consumers are slow to finish what they
  have claimed, the list grows by blocks that can later be taken over without a test.
  `ExplicitLimit.LimitExceeded` exhibits it; `LimitWhileRoom` and `TakeOverExceeds` say exactly when
  the limit is safe: if and only if no block is taken over with less than a block's room left. The
  implicit producer keeps the limit (`ImplicitRuns.SizeNeverExceedsLimit`). The repository itself
  leaves the limit at its default, which is none.
- The comments at lines 1942-1944 and 2868-2869 of `concurrentqueue.h` say that the division of the
  offset keeps its sign. It does not: BLOCK_SIZE has an unsigned type, so the division is unsigned.
  The lookup is nevertheless right, and `LookupSlotExact` says exactly when: if and only if the ring
  has at most 2^64 / BLOCK_SIZE slots. The model follows the code.
- `circular_less_than` is false both ways for counters exactly 2^63 apart
  (`WrappedIndices.CircularLessExact` gives the exact range, for counters less than 2^64 apart).
- The ticket protocol on words can hand out an index that was never published: with more operations
  in progress at once than there are words, a ticket is drawn twice (`WrappedRuns.CrowdBreaksWords`,
  a run for every word size). A step on words is right if and only if the distance it tests is less
  than half the range ahead and at most half the range behind (`WrappedTickets.StepRefinesExactly`),
  and so is a run (`WrappedRuns.WordsTrackExactly`). That is certain if, while any one consumer is
  busy, at most a quarter of the range of tickets is drawn and less than half the range of elements
  is there or published (`WrappedRuns.BriskWordsAreRight`).
- The semaphore's `waitMany(max)` asserts that its result is positive; that holds if and only if
  `max > 0` (`Semaphore.ResultWithinBounds`), although `max == 0` passes the assertion before it and
  is what a `wait_dequeue_bulk` for no elements asks for (`Semaphore.WaitManyForNone`).

## Model

| member | source | states |
|---|---|---|
| `FreeList.ListIsAcyclic` | audio_tool_api/external/concurrentqueue.h:1375-1454 | in every reachable state, for any number of threads mixing try_get and add, following next from the head meets distinct nodes and ends; the list never has more nodes than exist |
| `FreeList.OneTakerPerNode` | audio_tool_api/external/concurrentqueue.h:1389-1426 | over every run, a node is handed out at most once between two adds: adds lead hand-outs by nought or one |
| `FreeList.OneAdderPerNode` | audio_tool_api/external/concurrentqueue.h:1375-1387 | at most one thread is putting a given node back, and a node left pending always has a reference holder who will put it back |
| `FreeList.FlagClearAfterPop` | audio_tool_api/external/concurrentqueue.h:1409 | the assertion after a successful pop always holds, and the node still has the two references that are about to be dropped |
| `FreeList.HeadCasPopsOrPushes` | audio_tool_api/external/concurrentqueue.h:1396-1414 | no ABA: when the head compare-and-swap of try_get succeeds, the next pointer read earlier is still the successor and exactly the first node is removed; the compare-and-swap of an adder pushes exactly its node; every other step leaves list and head alone |
| `FreeList.QuietListLosesNothing` | audio_tool_api/external/concurrentqueue.h:1432-1454 | with every thread idle, a node is on the list exactly if it was added once more often than it was handed out |
| `FreeList.NextKeepsInv` | audio_tool_api/external/concurrentqueue.h:1375-1454 | every atomic step keeps the invariant: reference words are the list reference plus the holders plus the flag, places partition the nodes, next of a node with references does not change |
| `FreeList.StoreNextKeepsInv` | audio_tool_api/external/concurrentqueue.h:1444 | storing next disturbs nobody: a node being added has no reference holder, so no other thread has read its next pointer |
| `FreeList.UndoKeepsInv` | audio_tool_api/external/concurrentqueue.h:1446-1452 | a failed publication either makes the same thread the only adder again or leaves the node to the last reference holder |
| `FreeListAnswers.LoneGet` | audio_tool_api/external/concurrentqueue.h:1389-1426 | from any reachable state at rest, a try_get that meets no other operation hands out the first node of the list and leaves the rest, and gives null exactly when the list is empty; it makes six accesses, or two, and is at rest again |
| `FreeListAnswers.LoneAdd` | audio_tool_api/external/concurrentqueue.h:1375-1454 | from any reachable state at rest, an add that meets no other operation puts its node before all others, and ends |
| `FreeListAnswers.NullMeansEmpty` | audio_tool_api/external/concurrentqueue.h:1394-1425 | over every run, a try_get that ends with null was in progress in a state in which the list was empty |
| `Tickets.NextKeepsInv` | audio_tool_api/external/concurrentqueue.h:2695-2794 | every step of the dequeue protocol keeps: overcommit a consumer holds is at most the failed tickets below its own; a passed ticket less the failed ones below it lies below the tail; the two counters account for every ticket |
| `Tickets.PassersFit` | audio_tool_api/external/concurrentqueue.h:2702-2716 | the passer with the largest ticket bounds the number of all passers by the tail |
| `Tickets.TestKeepsPassers` | audio_tool_api/external/concurrentqueue.h:2707-2713 | deciding a batch of tickets with a possibly outdated overcommit keeps every passed ticket, less the failed ones below it, below the tail |
| `Tickets.ClaimsContiguous` | audio_tool_api/external/concurrentqueue.h:2474-2542 | over every run of single and bulk dequeues, the claimed ranges are non-empty and follow one another from 0 to the head without gap or overlap, and the head never passes the tail |
| `Tickets.QuietCountersDifferByHead` | audio_tool_api/external/concurrentqueue.h:1886-1983 | with no consumer in the middle of an operation, dequeueOptimisticCount less dequeueOvercommit is headIndex |
| `Tickets.LoneDequeue` | audio_tool_api/external/concurrentqueue.h:2171-2261 | a dequeue that meets no other claims exactly min(max, tail - head) elements from the head, and gives up exactly when there are none |
| `WrappedIndices.CircularLessExact` | audio_tool_api/external/concurrentqueue.h:406-417 | for counters less than 2^64 apart, circular_less_than on their words agrees with < exactly when the first is less than 2^63 below and at most 2^63 above the second |
| `WrappedIndices.RoomTestIsLimit` | audio_tool_api/external/concurrentqueue.h:2418 | the leeway test and the size test of enqueue, on words, together are one size test on the counters |
| `WrappedIndices.UnsignedOffset` | audio_tool_api/external/concurrentqueue.h:1946-1947 | with the division unsigned, a block k places before the front gets offset 2^64 / BLOCK_SIZE - k, not -k |
| `WrappedIndices.LookupSlotExact` | audio_tool_api/external/concurrentqueue.h:2863-2872 | the masked sum of front and unsigned quotient is the slot k places before the front if and only if the ring size is at most 2^64 / BLOCK_SIZE, even when the indices have wrapped |
| `WrappedIndices.LookupSlotAhead` | audio_tool_api/external/concurrentqueue.h:1943-1948 | a block at or after the front is found that many places after it |
| `WrappedTickets.StepRefinesExactly` | audio_tool_api/external/concurrentqueue.h:2697-2716 | with the distance under test less than the range, a step on 64-bit words is the image of the same step on unbounded counters if and only if that distance is less than 2^63 ahead and at most 2^63 behind |
| `WrappedRuns.WordsTrackExactly` | audio_tool_api/external/concurrentqueue.h:2695-2794 | over whole runs, the words follow the counters if and only if every test of the run is of such a distance |
| `WrappedRuns.CrowdBreaksWords` | audio_tool_api/external/concurrentqueue.h:2697-2716 | otherwise they can go wrong: for every word size there is a run on words, from empty counters, in which one element is published and two consumers claim, the second one an index that was never published |
| `WrappedRuns.BriskWordsAreRight` | audio_tool_api/external/concurrentqueue.h:2695-2794 | if, while any one consumer is busy, at most a quarter of the range of tickets is drawn and the elements at its beginning and those published since are less than half the range, the words are right: every consumer takes the same branches and claims the same range as on counters, and the head never passes the tail |
| `Masks.MaskIsMod` | audio_tool_api/external/concurrentqueue.h:2822 | index & (size - 1) is the remainder by size for every power of two |
| `Masks.ClearLowBits` | audio_tool_api/external/concurrentqueue.h:2863 | index & ~(BLOCK_SIZE - 1) rounds a word down to the base of its block |
| `Masks.PowerTest` | audio_tool_api/external/concurrentqueue.h:711-716 | the static assertions on sizes hold exactly of powers of two |
| `BlockIndex.LookupFinds` | audio_tool_api/external/concurrentqueue.h:2858-2874 | from any header, however outdated, and any tail read there while it denoted a number not below the wanted one, the lookup lands on the live entry of the wanted block |
| `BlockIndex.AvailableIsOutside` | audio_tool_api/external/concurrentqueue.h:2822-2830 | recycling is safe: the live entry of an older block stops the producer before it could reuse any entry that a lookup for that block may still need |
| `BlockIndex.GrowKeepsInv` | audio_tool_api/external/concurrentqueue.h:2876-2918 | doubling the index keeps every lookup, through the old headers and the new one, on the same entries |
| `BlockIndex.GrownHasRoom` | audio_tool_api/external/concurrentqueue.h:2836-2841 | after doubling, the entry after the tail has an invalid key, as the source asserts |
| `BlockIndex.RewindKeepsInv` | audio_tool_api/external/concurrentqueue.h:2845-2849 | rewinding the tail keeps every lookup right |
| `BlockIndex.StoreKeyKeepsInv` | audio_tool_api/external/concurrentqueue.h:2827 | storing a key, into a recycled entry or one that was rewound, keeps every lookup right |
| `BlockIndex.ClearValueKeepsInv` | audio_tool_api/external/concurrentqueue.h:2779 | clearing the value of an entry keeps the lookups of all other blocks right |
| `IndexGrowth.UnrollRing` | audio_tool_api/external/concurrentqueue.h:2892-2906 | the copy loops of new_block_index fill the new pointer array with the old ring from just after its tail, in one lap, and then the new entries |
| `IndexGrowth.CopyWindow` | audio_tool_api/external/concurrentqueue.h:2293-2301 | the copy loop of the explicit new_block_index, with its wrapping start, copies exactly the used entries, oldest first |
| `IndexGrowth.RingStep` | audio_tool_api/external/concurrentqueue.h:2896-2899 | masked stepping round a ring comes back to its start after exactly as many steps as it has slots |
| `ImplicitQueue.NextKeepsInv` | audio_tool_api/external/concurrentqueue.h:2410-2794 | every atomic step of the producer and of any number of consumers keeps the joint invariant of tickets, block index, blocks, pool, history and program counters |
| `ImplicitQueue.NeverFaults` | audio_tool_api/external/concurrentqueue.h:2410-2874 | in no interleaving does an assertion fail, a consumer read a null entry value or an empty slot, or the producer construct over an element |
| `ImplicitQueue.LookupNeverMisses` | audio_tool_api/external/concurrentqueue.h:2816-2918 | for every index claimed and not yet marked, the lookup from any header and tail the consumer may have read finds the entry with its block base and its block, and the element is there until taken |
| `ImplicitQueue.ExactlyOnceFifo` | audio_tool_api/external/concurrentqueue.h:2410-2542 | over every run, the value delivered for index i is the i-th published one, no index is delivered twice, and every undelivered value is intact in its slot |
| `ImplicitQueue.QuietDeliveredAll` | audio_tool_api/external/concurrentqueue.h:2695-2794 | with no consumer in the middle of an operation, exactly the indices below the head have been delivered |
| `ImplicitQueue.FifoPerConsumer` | audio_tool_api/external/concurrentqueue.h:2695-2794 | every consumer receives elements in strictly increasing index order |
| `ImplicitQueue.DeliveryIsFresh` | audio_tool_api/external/concurrentqueue.h:2730-2735 | moving an element out takes an index never delivered before and yields the value published at it |
| `ImplicitAlone.LoneDequeueDelivers` | audio_tool_api/external/concurrentqueue.h:2474-2794 | from any reachable state with no dequeue in progress, whatever the producer is in the middle of, a dequeue of at most max that meets no other delivers the elements at the head in order, min(max, tail - head) of them, and ends; it delivers nothing if and only if head and tail agree |
| `ImplicitRuns.AllOrNothing` | audio_tool_api/external/concurrentqueue.h:2545-2692 | an enqueue or enqueue_bulk that has ended either published all its elements in order with one tail store, with one block per boundary crossed, or was refused and restored tail index, tail block and index tail and gave every block back |
| `ImplicitRuns.SizeNeverExceedsLimit` | audio_tool_api/external/concurrentqueue.h:2576-2579 | MAX_SUBQUEUE_SIZE bounds the unclaimed elements under every interleaving, although the room test reads a moving head |
| `EnqueueAlone.NoRoomExact` | audio_tool_api/external/concurrentqueue.h:2576-2579 | in every reachable state the room test refuses exactly if the end of the block it is about to take lies more than the limit past the head; a limit of nought is no exception |
| `EnqueueAlone.LoneEnqueue` | audio_tool_api/external/concurrentqueue.h:2545-2692 | an enqueue that meets no dequeue step and gets the memory it asks for, whatever the consumers are in the middle of, publishes its elements in order if the end of the last block they need is within the limit of the head, and otherwise changes nothing |
| `EnqueueAlone.LoneEnqueueEnds` | audio_tool_api/external/concurrentqueue.h:2545-2692 | an enqueue that meets no dequeue step and gets the memory it asks for ends, by publishing or by rolling back |
| `ImplicitPool.BlocksConserved` | audio_tool_api/external/concurrentqueue.h:3000-3018 | with nobody in the middle of an operation, every block ever created is in the pool, but for the ones of the published indices from the head on |
| `ImplicitPool.ReturnedExactlyOnce` | audio_tool_api/external/concurrentqueue.h:2772-2782 | a filled block returns to the pool exactly once, and only after every element of it was delivered; at rest the blocks returned are exactly those before the head's |
| `ImplicitPool.QuietPlaces` | audio_tool_api/external/concurrentqueue.h:2977-2990 | at rest a block is in the pool or holds a live block number, never both |
| `ImplicitEnqueue.HeadBelowBase` | audio_tool_api/external/concurrentqueue.h:2577 | the assertion before the room test holds for every block of the operation |
| `ImplicitEnqueue.ProbeOk` | audio_tool_api/external/concurrentqueue.h:2822-2836 | the entry after the tail either may be recycled or stands for a full ring of current, live entries |
| `ImplicitBlocks.UndoFinds` | audio_tool_api/external/concurrentqueue.h:2586-2592 | in the rollback, the lookup of each acquired block finds its own entry although the tail is being rewound |
| `ImplicitWrite.TargetIsLive` | audio_tool_api/external/concurrentqueue.h:2623-2636 | each new element goes to the live block its index belongs to, the tail block or an acquired one |
| `ImplicitWrite.TargetIsEmpty` | audio_tool_api/external/concurrentqueue.h:2633-2636 | the slot an element is constructed in is empty |
| `ImplicitMark.FullIsMarked` | audio_tool_api/external/concurrentqueue.h:1545-1549 | set_many_empty reports a block empty only when all its indices have been taken and marked |
| `ImplicitMark.MarkTailBlock` | audio_tool_api/external/concurrentqueue.h:2551-2554 | a partly filled tail block cannot be reported empty, so the producer still owns it |
| `ExplicitQueue.NextKeepsInv` | audio_tool_api/external/concurrentqueue.h:1783-1951 | every atomic step of the explicit producer and of any number of consumers keeps the joint invariant of list, index, flags, elements and tickets |
| `ExplicitQueue.NeverFaults` | audio_tool_api/external/concurrentqueue.h:1783-1983 | in no interleaving does an assertion fail, a consumer reach a wrong block or an empty slot, or the producer construct over an element that has not been dequeued |
| `ExplicitQueue.ListMatchesIndex` | audio_tool_api/external/concurrentqueue.h:1787-1871 | with no enqueue in progress, the circular list from the tail block and the used window of the index hold the same distinct blocks in the same order, with contiguous bases ending at the tail's |
| `ExplicitQueue.ReusedBlockIsEmpty` | audio_tool_api/external/concurrentqueue.h:1791-1795 | the block ahead is taken over only if it is the oldest, all its indices are marked and all its slots are empty |
| `ExplicitQueue.ExactlyOnce` | audio_tool_api/external/concurrentqueue.h:1783-1983 | over every run, no index is delivered twice, each with the value enqueued at it; undelivered values are intact in blocks of the list |
| `ExplicitEnqueue.AheadIsOldest` | audio_tool_api/external/concurrentqueue.h:1791 | the tail block's next pointer leads to the oldest block of the list, whose first flags have been seen set |
| `ExplicitEnqueue.OldestMarked` | audio_tool_api/external/concurrentqueue.h:1486-1499 | a block with all flags set has had every index of its number dequeued |
| `ExplicitTake.BlockKeepsInv` | audio_tool_api/external/concurrentqueue.h:1939-1948 | a consumer's lookup, from an outdated header and front, leads to the block that holds its index |
| `ExplicitTake.ResetIsAbove` | audio_tool_api/external/concurrentqueue.h:1793-1794 | a block whose flags are being cleared lies past every published index, so clearing disturbs no consumer |
| `ExplicitLimit.LimitExceeded` | audio_tool_api/external/concurrentqueue.h:1791-1814 | the documented size limit can be exceeded: a reachable state of a producer with blocks of two and a limit of two in which more than two elements are unclaimed |
| `ExplicitLimit.LimitWhileRoom` | audio_tool_api/external/concurrentqueue.h:1806-1814 | over every run in which blocks are taken over only with room for one, by the test the code makes for new blocks, the limit holds |
| `ExplicitLimit.TakeOverExceeds` | audio_tool_api/external/concurrentqueue.h:1791-1801 | the converse: after a single take-over without that room, the producer by itself can exceed the limit |
| `ExplicitLimit.FillBlock` | audio_tool_api/external/concurrentqueue.h:1846-1882 | a producer that has begun a block can fill it by itself, whatever the consumers do or do not do, and disturbs none of them |
| `ExplicitLimit.FinishOff` | audio_tool_api/external/concurrentqueue.h:1937-1974 | a consumer that has claimed an index delivers and marks it by itself, whatever the producer and the others are in the middle of |
| `ExplicitAlone.LoneDequeueDelivers` | audio_tool_api/external/concurrentqueue.h:1886-1983 | from any reachable state with no dequeue in progress, whatever the producer is in the middle of, a dequeue that meets no other delivers the element at the head, and ends with nothing exactly if there is none |
| `ExplicitAlone.LoneEnqueue` | audio_tool_api/external/concurrentqueue.h:1783-1883 | an enqueue that meets no dequeue step and gets the memory it asks for publishes its element if and only if the element falls into the tail block, the oldest block has been dequeued completely, or the limit has room for one more block; otherwise queue and list are as they were |
| `ExplicitAlone.LoneEnqueueEnds` | audio_tool_api/external/concurrentqueue.h:1783-1883 | an enqueue that meets no dequeue step and gets the memory it asks for ends |
| `ProducerHash.NextKeepsInv` | audio_tool_api/external/concurrentqueue.h:3294-3442 | every atomic access of any number of threads keeps the invariant of tables, counts, resize flag, producers and program counters |
| `ProducerHash.TablesNeverFill` | audio_tool_api/external/concurrentqueue.h:3294-3442 | in every reachable state more than a quarter of the slots of every table is empty, and every probe is within its first lap, so probing terminates |
| `ProducerHash.CountIsRegisteredPlusPending` | audio_tool_api/external/concurrentqueue.h:3357-3409 | implicitProducerHashCount is the number of registered threads plus the pending ones |
| `ProducerHash.SameProducerForEver` | audio_tool_api/external/concurrentqueue.h:3294-3442 | once a thread was given a producer every later call gives it the same one, through resizes and lazy re-insertion and also when memory runs out; no two threads ever share one |
| `ProducerHashAnswers.NullMeansNoMemory` | audio_tool_api/external/concurrentqueue.h:3371-3442 | over every run, a call ends without a producer if and only if an allocation of that very call has failed |
| `ProducerHashAnswers.MadeByAllocation` | audio_tool_api/external/concurrentqueue.h:3399-3405 | a producer is created only in an access whose allocation succeeds, for the thread that makes it |
| `ProducerHashAnswers.LoneCall` | audio_tool_api/external/concurrentqueue.h:3294-3442 | a call whose allocations succeed and that meets no other, begun in any state with the resize lock free, ends with a producer |
| `ProducerHash.QuarterEmpty` | audio_tool_api/external/concurrentqueue.h:3394-3399 | threads insert only below three quarters of the capacity they drew a count for, which keeps a quarter of the table empty |
| `ProducerHash.SlotSays` | audio_tool_api/external/concurrentqueue.h:3314-3354 | after a run of taken slots, an empty slot means the key is not in the table |
| `ProducerHash.ResizeLock` | audio_tool_api/external/concurrentqueue.h:3360-3389 | no two threads publish tables at the same time |
| `ProducerHash.NextCapacity` | audio_tool_api/external/concurrentqueue.h:3367-3370 | the doubling loop ends with the least doubled capacity of which the count is below half |
| `ProducerHash.MaskPlacesKeys` | audio_tool_api/external/concurrentqueue.h:3244-3257 | every table has a power of two slots, so masking the hash is the remainder that places a key |
| `Semaphore.NextKeepsInv` | audio_tool_api/external/blocking_concurrentqueue.h:260-405 | every step keeps: waiters = max(0, -count) + kernel + posts under way, and initial + signalled = count + acquired + waiters |
| `Semaphore.NeverTooManyPermits` | audio_tool_api/external/blocking_concurrentqueue.h:260-404 | over every run, with timeouts and multi-permit waits, permits handed out never exceed initial plus signalled |
| `Semaphore.NoLostWakeup` | audio_tool_api/external/blocking_concurrentqueue.h:289-296 | with no post under way and count at least 0, the kernel count is the number of waiters, timed-out ones still repairing included; and whenever somebody waits while a permit is over, the kernel count is positive |
| `Semaphore.QuietCount` | audio_tool_api/external/blocking_concurrentqueue.h:396-405 | with every thread idle the count is exactly the permits signalled and not handed out |
| `Semaphore.ResultWithinBounds` | audio_tool_api/external/blocking_concurrentqueue.h:379-394 | an operation acquires at most max; a waitMany without timeout acquires something if and only if max > 0, which is when its assertion holds |
| `Semaphore.WaitManyForNone` | audio_tool_api/external/blocking_concurrentqueue.h:389-394 | the input that fails the assertion: a waitMany for none ends with none, whatever the count |
| `Semaphore.AcquiredIsReturned` | audio_tool_api/external/blocking_concurrentqueue.h:299-335 | permits acquired are the permits returned to callers plus the first ones of threads looking for more |
| `SemaphoreAnswers.FewerLeavesNone` | audio_tool_api/external/blocking_concurrentqueue.h:299-394 | over every run, a call that ends with fewer permits than it asked for found no more than those at that moment, and leaves none available |
| `SemaphoreAnswers.LoneCallTakes` | audio_tool_api/external/blocking_concurrentqueue.h:366-394 | with permits available a call takes min(max, count) at once, whatever the other threads are in the middle of, and changes nothing else |
| `SemaphoreAnswers.LoneTryFails` | audio_tool_api/external/blocking_concurrentqueue.h:366-378 | with no permit available tryWaitMany ends with none and changes nothing |
| `BlockingQueue.NextKeepsInv` | audio_tool_api/external/blocking_concurrentqueue.h:519-860 | every step of enqueues, semaphore operations and retry loops keeps permits and elements in balance |
| `BlockingQueue.PermitsAreBacked` | audio_tool_api/external/blocking_concurrentqueue.h:690-761 | the inner queue always holds an element for every permit acquired and not redeemed, so a retrying permit holder never faces an empty queue |
| `BlockingQueue.QuietPermits` | audio_tool_api/external/blocking_concurrentqueue.h:519-526 | with no operation in progress the available permits are the elements in the queue |
| `BlockingQueue.DequeueReturnsItsPermits` | audio_tool_api/external/blocking_concurrentqueue.h:723-747 | every dequeue that returns yields exactly as many elements as its wait granted permits |
| `BlockingQueue.LoneRetrySucceeds` | audio_tool_api/external/blocking_concurrentqueue.h:723-731 | a permit holder whose retry meets no other dequeue of the (one producer's) inner queue gets all the elements it still has permits for |
| `SemaphoreAnswers.ElementsAccounted` | audio_tool_api/external/blocking_concurrentqueue.h:519-860 | in every reachable state the elements are those with a permit available, those a permit holder has still to redeem, those whose permit is on its way to a waiter, and those not yet announced |
| `SemaphoreAnswers.LoneDequeueReturns` | audio_tool_api/external/blocking_concurrentqueue.h:690-761 | a dequeue, single or bulk, waiting or not, that meets no other operation returns min(max, elements) if there are any or it may not wait |
| `Multipart.Parser.ExecuteChunks` | audio_tool_api/http/multipart_parser.c:120-320 | chunk independence: one call of multipart_parser_execute per chunk, stopping at the first that does not accept its chunk, has the effect of one call for the whole body, however it is split: same final state, same data and notifications in order, same rejection offset in the body |
| `Multipart.Parser.Execute` | audio_tool_api/http/multipart_parser.c:120-320 | the loop, with its marks, lookbehind and stepping back, does to state and callbacks exactly what the byte-by-byte specification FeedAll says, returns the rejection offset or the length, keeps the lookbehind a copy of the matched prefix within its allocation, and goes round at most twice per byte |
| `Multipart.Parser.constructor` | audio_tool_api/http/multipart_parser.c:89-106 | the parser starts with the boundary copied, an empty match and no callbacks made |
| `Multipart.Parser.Switch` | audio_tool_api/http/multipart_parser.c:129-316 | one round of the loop is one byte of the specification, or a step back without consuming it |
| `Multipart.Parser.BoundaryRound` | audio_tool_api/http/multipart_parser.c:237-276 | a round inside CR LF boundary consumes the byte, or hands the lookbehind over as part data and goes back to the byte |
| `Multipart.Parser.DataRound` | audio_tool_api/http/multipart_parser.c:221-238 | a round in part data gathers the bytes since the mark, and emits them before a CR and at the end of the buffer |
| `MultipartSearch.DeliversUpToDelimiter` | audio_tool_api/http/multipart_parser.c:228-276 | the matcher refines naive search: data not containing CR LF boundary, followed by it, is delivered exactly and ends the part |
| `MultipartSearch.ScanAll` | audio_tool_api/http/multipart_parser.c:228-262 | while the delimiter has not occurred, everything but a matched proper prefix of it has been delivered |
| `MultipartSearch.NoneYet` | audio_tool_api/http/multipart_parser.c:228-262 | the delimiter cannot begin in the data and end in the delimiter that follows it |
| `MultipartForm.RoundTrip` | audio_tool_api/http/multipart_parser.c:129-311 | a form rendered by section 5.1.1 of RFC 2046 is accepted as a whole, ends in the final state, and leaves the bodies, in order, as the files |
| `MultipartForm.TellsPart` | audio_tool_api/http/multipart_parser.c:153-276 | one rendered part is accepted, and tells exactly: its header values byte by byte, the end of its headers, its body byte by byte, its end |
| `MultipartForm.FormTells` | audio_tool_api/http/multipart_parser.c:120-320 | the exact notifications of a whole rendered form, in order, and the final state |
| `MultipartLanguage.FirstLine` | audio_tool_api/http/multipart_parser.c:136-157 | of any body, accepted or not: the first byte that differs from the boundary followed by CR LF is the rejection offset, and nothing has been told; no byte before that line ends is rejected otherwise |
| `MultipartLanguage.AcceptedIffForm` | audio_tool_api/http/multipart_parser.c:120-320 | the converse of the round trip: a body is accepted whole and ends in the final state if and only if it is a form, with the header syntax that the parser accepts |
| `MultipartLanguage.AcceptedIffViable` | audio_tool_api/http/multipart_parser.c:120-320 | a body is accepted so far if and only if it can be completed to a form |
| `MultipartLanguage.RejectsAsSoonAsPossible` | audio_tool_api/http/multipart_parser.c:120-320 | the rejection offset is k if and only if the k bytes before can be completed to a form and with byte k they cannot |
| `MultipartForm.AsciiBytes` | audio_tool_api/http/multipart_parser.c:52-53 | the bytes that the parser compares with are the characters line feed, carriage return, space, tab, hyphen and colon |
| `MultipartForm.KeyIsText` | audio_tool_api/http/http_request.cpp:82 | the key that the request looks for is the text boundary= |
| `MultipartForm.NamesAreLetters` | audio_tool_api/http/multipart_parser.c:182-186 | a byte belongs to a header name exactly if it is a letter of either case or a hyphen |
| `MultipartForm.Request.constructor` | audio_tool_api/http/http_request.cpp:66-93 | the request's files and pending data are what the two callbacks make of the notifications of the whole body |
| `MultipartForm.BoundaryFound` | audio_tool_api/http/http_request.cpp:81-85 | from a content type in which the key comes once and then a token, the boundary is two hyphens and the token |
| `MultipartForm.LoadForm` | audio_tool_api/http/http_request.cpp:65-95 | a request whose body is a form rendered with the boundary that its content type names has the bodies, in order, as its files |
| `Base64.Encode` | audio_tool_api/utilities/base64.cpp:45-85 | the loop over char_array_3 and char_array_4 computes the encoding of section 4 of RFC 4648 |
| `Base64.Decode` | audio_tool_api/utilities/base64.cpp:87-122 | the loop stops at padding or a foreign character and yields the bytes of the groups read, whole or begun |
| `Base64.EncodedShape` | audio_tool_api/utilities/base64.cpp:45-85 | four characters for every three bytes begun; padding only as the last none, one or two |
| `Base64.RoundTrip` | audio_tool_api/utilities/base64.cpp:45-122 | decoding the encoding of any byte string gives it back |
| `Base64.EncodeThenDecode` | audio_tool_api/utilities/base64.cpp:45-122 | the two loops one after the other are the identity on every byte string whose encoding has a length that fits an int |
| `Base64.SplitIsGroup` | audio_tool_api/utilities/base64.cpp:55-58 | the masks and shifts of the encoder are the six-bit groups of the 24-bit number |
| `Base64.LettersOfTable` | audio_tool_api/utilities/base64.cpp:35-38 | the letter of each six-bit value is the one of the table, in its order |
| `Base64.InAlphabet` | audio_tool_api/utilities/base64.cpp:41-43 | the alphabet test holds exactly for the characters of the table |
| `OutputBuffer.Output.Write` | audio_tool_api/audio/audio_processor.cpp:25-43 | a write appends its bytes to the content |
| `OutputBuffer.Output.Reserve` | audio_tool_api/audio/audio_processor.cpp:27-37 | the growth loop ends with room for the bytes, the content kept, and the least doubled size that holds everything |
| `OutputBuffer.Output.Grow` | audio_tool_api/audio/audio_processor.cpp:28-36 | a round of growth doubles the size and keeps content and offset |
| `OutputBuffer.SizeBounds` | audio_tool_api/audio/audio_processor.cpp:25-52 | offset plus room is the size; the size is 1024 * 2^k, the least such that holds the content, at most max(1024, 2n); growth has copied size - 1024 bytes |
| `OutputBuffer.WriteAll` | audio_tool_api/audio/audio_processor.cpp:25-52 | after any sequence of writes the content is their concatenation, in a buffer within the size bounds |
| `OutputBuffer.Input.Read` | audio_tool_api/audio/audio_processor.cpp:14-23 | a read delivers the next bytes, at most those there are, and says end of file exactly when there are none or none were asked for |
| `OutputBuffer.ReadAll` | audio_tool_api/audio/audio_processor.cpp:14-23 | reading packets to the end of the file gives all the data, once and in order |
| `Loads.LoadFactor` | audio_tool_api/http/http_work_thread.h:45-53 | the load is queued connections plus running workers per worker, not a number exactly when there is nothing at all |
| `Loads.LessLoaded` | audio_tool_api/http/http_work_thread.h:45-53 | loads compare as the products crosswise; without workers a load is infinite if there is anything to do and else compares with nothing |
| `Loads.LightLoad` | audio_tool_api/http/http_server.cpp:121-127 | a thread is light exactly if it has more than five workers to each connection |
| `Loads.PickThread` | audio_tool_api/http/http_server.cpp:121-135 | the accept loop finds a thread whenever there is one: the first light one, else the first of the least loaded |
| `Loads.PickVictim` | audio_tool_api/http/http_work_thread.h:76-84 | the stealing scan finds the first of the most loaded threads, and none exactly when no load is a number |
| `Loads.FindWorker` | audio_tool_api/http/http_work_thread.h:98-102 | the first worker that has finished, if there is one |
| `Loads.HttpWorker.Start` | audio_tool_api/http/http_worker.cpp:12-31 | start throws exactly when the worker still holds a connection, which it then keeps; and keeps the invariant that a worker holds a connection exactly while it runs |
| `Loads.HttpWorker.CloseSocket` | audio_tool_api/http/http_worker.cpp:184-206 | only a running worker has a connection to close; closing keeps the invariant, so the worker can be started again |
| `Scheduler.NextKeepsInv` | audio_tool_api/http/http_work_thread.h:72-108 | every step of accepting, dispatching, taking, stealing, starting and closing keeps every connection in one place and the counter equal to the live ones |
| `Scheduler.ConnectionsBounded` | audio_tool_api/http/http_server.cpp:100-143 | the counter is the number of connections that something points to and never exceeds 801, although it is tested before the accept and incremented after it |
| `Scheduler.BusyNeverRestarted` | audio_tool_api/http/http_work_thread.h:98-107 | start is only ever called on a finished worker that holds no connection, so it never throws; no other worker of the thread changes |
| `Scheduler.WorkersSound` | audio_tool_api/http/http_worker.cpp:12-31 | in every reachable state of the server every worker meets the invariant of its class |
| `Scheduler.StartedAtMostOnce` | audio_tool_api/http/http_work_thread.h:72-108 | over every run a connection is started at most once, and no two workers hold the same connection |
| `SchedulerAnswers.AcceptsWithinLimit` | audio_tool_api/http/http_server.cpp:100-106 | in every reachable state the accept loop goes on exactly while at most 800 connections are alive |
| `SchedulerAnswers.CreateHolds` | audio_tool_api/http/http_server.cpp:136-143 | a successful accept makes a connection that was not there before, which the accept loop then holds; the counter goes up by one and no connection is destroyed |
| `SchedulerAnswers.DispatchQueuesLast` | audio_tool_api/http/http_server.cpp:136-143 | a dispatched connection goes to the end of its thread's queue and nowhere else |
| `SchedulerAnswers.PollTakesFirst` | audio_tool_api/http/http_work_thread.h:72-73 | a successful own dequeue leaves the rest of the queue and hands on its first connection, which is alive |
| `SchedulerAnswers.RobTakesFirst` | audio_tool_api/http/http_work_thread.h:85-88 | a successful theft takes the victim's first connection and leaves everything else of the victim |
| `SchedulerAnswers.HandServes` | audio_tool_api/http/http_work_thread.h:98-107 | a connection handed to a running thread is run by its first finished worker, all others untouched; without one nobody runs it |
| `SchedulerAnswers.DispatchedIsServed` | audio_tool_api/http/http_work_thread.h:72-108 | a connection dispatched to a running thread with a finished worker and an empty queue is running after the thread's next poll |
| `SchedulerAnswers.StolenIsServed` | audio_tool_api/http/http_work_thread.h:72-108 | the first connection of a victim that a running thread with a finished worker steals from is running on that worker after poll, theft and hand-over |
| `SchedulerAnswers.AcceptedIsServed` | audio_tool_api/http/http_server.cpp:100-143 | with at most 800 connections alive, a connection accepted and dispatched to a running thread with a finished worker and an empty queue is running after the thread's next poll |
| `SchedulerAnswers.CloseReleases` | audio_tool_api/http/http_worker.cpp:184-206 | closing leaves that worker free and no other worker or queue changed, and its connection is destroyed if and only if no thread's slot still points to it |
| `Scheduler.DestroyKeepsCount` | audio_tool_api/http/http_connection.h:27-35 | the destructors take the counter down by exactly the connections nobody points to any more |

## Left out

Of the queue:

- Weak memory orderings and fences: every atomic access is one sequentially consistent step.
- Elements whose constructors or assignments throw; the server stores `shared_ptr`.
- Bulk enqueue and bulk dequeue of the explicit producer, and blocks of an explicit producer that count emptied elements instead of flagging them.
- An implicit producer whose first block index could not be allocated: it refuses every enqueue. (The explicit producer's case is modelled.)
- The order of the shared pool in `ImplicitProducer` and `ExplicitProducer`, where it is a set; its free list is proved by itself in `FreeList`. The chain of acquired blocks in an implicit bulk enqueue is a sequence.
- Producers are modelled one at a time; choosing among producers in try_dequeue, tokens, rotation, size_approx, the producer list, moving and swapping queues, destructors, `MemStats`, debug macros.
- Dequeuing with max == 0, and thread-exit recycling of implicit producers (disabled by its macro), so `recycled` is never true.
- The hash function of thread ids: every thread may have any hash.
- Storing the value beside a key of a hash table, a plain store in the code, is one step like the atomic accesses.
- ImplicitRuns.SizeNeverExceedsLimit: about one producer's sub-queue, as in the code, not about the whole queue.
- Tickets.LoneDequeue: says nothing about dequeues that meet others; then a consumer may give up although elements are left, as the documentation of try_dequeue allows.
- ImplicitAlone.LoneDequeueDelivers: the same; it asks for consumers at rest, and so does `ExplicitAlone.LoneDequeueDelivers`.
- EnqueueAlone.LoneEnqueue: meets no dequeue step, so that the head stays; with dequeues in between `ImplicitRuns.AllOrNothing` says what an ended enqueue has done.
- WrappedRuns.BriskWordsAreRight: only the ticket protocol is redone on words; for the index the word arithmetic of the lookup and of the room tests is proved, not the whole machine again. Its condition is sufficient; the exact one is that of `WrappedRuns.WordsTrackExactly`, which is stated for distances less than the range.

Of semaphore and blocking queue:

- The kernel semaphore itself: a natural number with post, wait, try-wait and timed wait. The cast of the number of posts to int is not modelled.
- BlockingQueue.PermitsAreBacked: the inner queue is its number of elements; that elements come out once and in order is proved of the inner queue. Enqueues that fail change nothing and are not modelled.
- SemaphoreAnswers.LoneCallTakes: the weak exchange does not fail spuriously; if it does, the call reads the same count again.
- Progress: that a retry loop ends also needs the inner queue to find an element that is there, at some point.

Of parser and request:

- Callbacks that return a value other than 0, and the `on_header_field` callback: which parts of an interrupted name it is given depends on the split, and the repository does not set it.
- Preambles and padding after a boundary, which the parser rejects.
- Multipart.Parser.constructor: requires a non-empty boundary, which the request always passes; with an empty one the parser compares with the terminator. A boundary with a NUL character, cut short by the C string, is not modelled, nor is allocation failure.
- MultipartForm.RoundTrip: header names of letters and hyphens, values without CR, bodies without CR LF boundary and a boundary without CR, which is what the grammar guarantees. Which bodies are accepted, and which the grammar does not have, is `MultipartLanguage.AcceptedIffForm`; its forms have the same condition on the boundary. What the request makes of a rejected body is said by `MultipartForm.Request.constructor` only.
- MultipartForm.BoundaryFound: for a content type that ends with the token. The code takes everything after the key, so quotes or further parameters become part of the boundary; no claim is made for those. Query parsing and percent-decoding are not modelled.

Of the smaller cores:

- Base64.Decode: texts of 2^31 characters and more, whose length does not fit the int it is stored in.
- OutputBuffer.Output.Write: allocation failure, and packet sizes beyond an int.
- Scheduler.StartedAtMostOnce: no claim that every connection is started: a connection taken when no worker is idle, or when the thread is not running, is dropped, as in the code. `SetRunning` and the closing of sockets are free to happen at any time; errors that end the accept loop, and the destructor of a worker, are not modelled.
- Loads.LoadFactor: loads are exact quotients, not rounded doubles, though infinities and not-a-numbers are kept; the queue length is taken as given.
- FFmpeg, Boost sockets and timers, the database, handlers, configuration, JSON and web sockets: foreign calls, I/O and glue.

# Mangosteen: verified model of the redo log, flat combining and write tracking

Mangosteen makes an in-memory application durable.  Threads hand commands to a combiner, which
executes a batch of them under a writer-preference lock.  Code inserted in front of every store
records which 32-byte blocks the batch wrote; their contents go into a ring buffer as a redo log;
a back-end process replays the log onto a persistent image, and recovery replays what is left.
This project models those pieces in Dafny and proves what holds in every run, at every crash point
and under every schedule.

| files | piece |
|---|---|
| `RedoLog`, `Modulo`, `RingSlots`, `Options` | log entries, images and replay; slots as counters modulo the ring size |
| `Ring`, `RingInvariant`, `RingTheorems`, `RingRuns`, `RingRecovery`, `RingCommits`, `RingCrash` | ring, producer, consumer and crashes as a machine with one shared access per step; its invariant and theorems |
| `RingRefresh`, `RingMetadata`, `RingWakeup` | the commit refresh, the metadata head, and the two sides waiting for each other, each with its exact condition |
| `RingFile`, `Producer` | the C functions on the ring as methods of a class, each a sequence of steps of the machine; a producer session with its wait loops |
| `RingWitness`, `MetadataWitness`, `TornWitness` | concrete runs in which something goes wrong |
| `FlatCombining`, `CombiningLock`, `CombiningTasks`, `CombiningHistory`, `CombiningDrain`, `CombiningTheorems`, `CombiningCalls`, `CombiningBatches`, `CombiningProgress`, `CombiningStages`, `Pigeonhole` | lock, requests and combiner for any number of threads |
| `OpenAddressing`, `HashSet` | linear probing without deletion; the C hash set as a class |
| `Bits`, `Blocks`, `ProbeProgram`, `ProbeBlocks`, `ProbeRefinement`, `ProbeTheorems` | the emitted instruction list, a machine that runs it, and its refinement of set insertion |
| `Collection`, `Atomicity`, `FrontEnd`, `Transaction` | from recorded blocks and memcpys to redo entries and the image they give; the per-thread state as a class; whole transactions through the ring |
| `RegionTable` | persistent regions and their numbered files as a class |
| `EmittedBatch` | a combiner's batch of stores and memcpys on the emitted code |
| `Stops`, `EndToEnd` | collection, ring, consumer and recovery together |
| `Durability`, `DurabilityTheorems`, `DurabilityProgress` | flat combining and the ring as one machine, what a crash leaves of the history, and how a batch gets to its end |

## How the program is modelled

**Ring and back end.** A state holds the shared words, both cached cursors, both program counters,
the slots and the image.  A step reads or writes at most one word the other side can change, so all
interleavings, and a crash between any two stores, are runs.  A crash leaves unfenced slots, the
slot being written, unfenced image bytes and the bytes of the entry being copied with arbitrary
contents; the 8-byte head and tail stores are durable at the store, and the metadata persist is one
step that also drains.  Unbounded counters and the log as enqueued are kept beside the state; no
guard looks at them.  The ring theorems assume one thing of the schedule, stated in words the code
can see: a commit that re-reads its head from `last_persisted_head` does not get a slot past
`remote_head`, going forward from the slot it had (`FreshRefresh`).  `RefreshSoundIffFresh` shows
that such a refresh keeps the ring sound if and only if this holds, and `StaleRefreshLoses` that
from every other refresh the producer can go on until a full ring looks empty and recovery loses
all of it.

**Flat combining.** `n` threads, arbitrary application, any schedule, sequentially consistent words.
The scan of reader flags and the collection of requests visit one slot per step.  Slots start at
NONE.  A thread outside a batch may enter the mmap hook, which takes the writer word with its own
compare-exchange, and the combiner may enter it between two requests.

**Both together.** In the joint machine the lock holder's session steps are the steps of the ring's
producer: `instrument_stop` enqueues its entries one by one, a ring batch for each memcpy and one
for the table, while the consumer and all other threads go on.  A run may start from any ring state
a recovery has led to.

**Progress.** What may happen in every run is one half; the other is that calls do return.  From every
reachable state every call under way, and every new one, has a continuation in which it returns, and
where nobody stands in its way its own moves are enough.  For a batch in the ring this is so when the
ring has room for its entries; the waits without room are the subject of the wakeup lemmas.

**Write tracking.** The emitted list is data, fetched and executed by a machine with 64-bit
registers that wrap around and signed comparisons.  The back-jump is inserted in front of the `jge`
generated before it, and a second jump between the two, so neither of these is ever executed and
the loop is a while loop.  Nothing checks for a full table: `TrackingTerminatesIff` gives the exact condition
under which a store returns.  Collection follows the loops of `instrument_stop`, with the
conversion of a pointer difference to `int` written out.

**Findings stated as lemmas.**

- A commit refresh past the remote head loses a full ring of published entries
  (`StaleRefreshLoses`, reached in `StaleRefreshLosesBatch`).
- Inside a producer session the two sides can wait for each other forever: the consumer because the
  mirrored head is a lap behind and its sleep test succeeds, the producer because only the consumer
  could make room (`WakeupLostInSession`); and a commit can wait in vain on a mirrored head that an
  earlier session has set back, although the ring has room (`CommitWaitsInVain`).  Wherever the
  consumer stands, it releases a waiting enqueue if and only if it will store the head of one more
  batch, which is a test on the shared words and its program point, and a waiting commit then or when
  it is about to mirror a head already stored (`EnqueueReleasedIff`, `CommitReleasedIff`).
- The head in the commit metadata is as good a starting point for the replay as the remote head
  whenever the two agree or the remote head is about to be stored, which is always the case before
  the first crash and again once recovery has committed a batch.  At any other point it is good, for
  every image the counters allow, if and only if the bytes a crash may spoil and those of the entries
  it skips are all written again (`MetadataHeadByCounters`; `MetadataHeadExact` for one given image),
  and `MetadataHeadTooFarAhead` is a run in which it fails.
- `instrument_stop` publishes one batch for each memcpy and one for the table, so a crash can tear
  the combiner's batch apart.  Every batch boundary is the published log at some point of the run
  (`EveryCommitPoint`), so recovery always gives all or nothing if and only if at most one of the
  memcpys and the table is the first to log a byte that is out of date (`StopAtomicIff`,
  `StopCrashAtomicIff`, and `BatchAtomicIff` with all threads running); `CrashTearsBatch` is a run
  and a crash whose recovery gives a torn image.
- Blocks at or below address 1000 are dropped, so a byte below 1024 that only the table records
  never reaches the image (`BlockLoggedIff`, `LowBlockIsLost`).
- A memcpy of more than 0x7FFFFFE0 bytes is not covered by its chunks: the `int` counter of the loop
  overflows, or the distance is truncated (`LoopEndsIff`, `CopyCoveredIff`).
- A table that becomes full makes the emitted code loop forever (`OverflowNeverEnds`).
- The regions of the initial synchronisation are restored after a crash only once a batch has been
  committed (`RecoverMappings`).

## Model

| member | source | states |
|---|---|---|
| RingInvariant.StepInv | ring_buffer/ring_buffer.c:186-255 | every step of producer, consumer or crash keeps the ring and image invariant, if a commit refresh is fresh |
| RingInvariant.RunInv | ring_buffer/ring_buffer.c:186-255 | the invariant holds in every state of every run |
| RingTheorems.CrashConsistency | back-end/back_end.c:206-216 | at every crash point of every run, recovery included, and for all surviving unfenced bytes and slots, replay from the durable head to the durable tail gives exactly the image of the published batches |
| RingTheorems.ReplayIsLog | back-end/back_end.c:206-216 | walking the slots from one end to the other applies the log between them, across the wrap-around |
| RedoLog.LastEntryWins | ring_buffer/ring_buffer.c:194-199 | a replayed byte is the payload byte of the last entry whose range holds it |
| RingCrash.AnyByte | back-end/back_end.c:85-122 | from the moment the consumer takes an entry until the metadata is persisted, a crash may leave any value in each byte of that entry |
| RingCrash.AnySlot | ring_buffer/ring_buffer.c:186-201 | from the moment the producer writes an entry until the fence of its COMMIT, a crash may leave anything in its slot |
| RingMetadata.MetadataHeadEquivalent | back-end/back_end.c:23-33 | in every state of every run, crashes included, in which metadata head and remote head agree or the remote head is about to be stored, replay from either gives the same image |
| RingMetadata.HeadsAgreeBeforeCrash | back-end/back_end.c:23-33 | before the first crash that is so in every state |
| RingMetadata.HeadsAgreeAfterCommit | back-end/back_end.c:23-33 | once it is so it stays so until the next crash, and persisting the metadata makes it so |
| RingMetadata.MetadataHeadExact | ring_buffer/ring_buffer.c:151-156 | replay from the metadata head gives the published image, whatever a crash leaves, if and only if it rewrites every byte the crash can spoil and the image already holds all it skips |
| RingMetadata.MetadataHeadByCounters | ring_buffer/ring_buffer.c:151-156 | over counters and log entries alone: for every image the counters allow and everything a crash leaves, replay from the metadata head gives the published image if and only if each byte the crash can spoil and each byte of an entry it skips is written by a later entry |
| MetadataWitness.MetadataHeadTooFarAhead | ring_buffer/ring_buffer.c:151-156 | a run with one crash in which replay from the metadata head gives an image that was never published |
| RingTheorems.PublishedNeverLost | ring_buffer/ring_buffer.c:217-223 | the published log only grows, over crashes and restarts too |
| RingTheorems.FifoOrder | ring_buffer/ring_buffer.c:242-255 | entries handed out are, in order and value, a prefix of those enqueued and published |
| RingTheorems.SlotStable | ring_buffer/ring_buffer.c:186-201 | a published slot keeps its entry until a head past it is stored, and that happens only for a COMMIT at or after it |
| RingTheorems.WholeBatchesVisible | ring_buffer/ring_buffer.c:203-224 | the published log, and the part of it before the remote head, are concatenations of batches with one COMMIT each |
| RingTheorems.NoLostWakeup | back-end/back_end.c:134-144 | between producer sessions the written-back head is at most the committed head and within a lap of the tail, so the consumer sleeps only when everything published is applied and committed |
| RingWakeup.SleepRightIff | back-end/back_end.c:134-144 | everywhere, inside sessions too: when the sleep test succeeds, all that is visible has been committed if and only if the mirrored head is less than a lap behind the mirrored tail |
| RingWakeup.EnqueueReleasedIff | ring_buffer/ring_buffer.c:191-193 | wherever the consumer stands, an enqueue whose refresh gives no room is released by it if and only if it will store one more head: past its sleep test or failing it with something uncommitted, by a test on the words both sides can read |
| RingWakeup.CommitReleasedIff | ring_buffer/ring_buffer.c:208-210 | the same for a commit, which re-reads the mirrored head; it is also released when the consumer is about to mirror a head already stored |
| RingWakeup.CatchesUp | back-end/back_end.c:134-144 | between sessions, wherever the consumer stands, it gets by its own steps to where everything published is committed and in the image |
| RingWitness.WakeupLostInSession | back-end/back_end.c:134-144 | a reachable state with a published batch pending in which consumer and producer wait for each other forever |
| RingWitness.CommitWaitsInVain | ring_buffer/ring_buffer.c:208-210 | a reachable state in which a commit waits forever although everything published is committed and the ring has room |
| RingTheorems.RecoveryNeverBlocks | ring_buffer/ring_buffer.c:242-247 | in recovery the wait loop of dequeue is never entered |
| RingRefresh.RefreshSoundIffFresh | ring_buffer/ring_buffer.c:208-210 | after a commit refresh some counter explains the cached head with the ring sound if and only if the slot read is not past remote_head |
| RingRefresh.StaleRefreshLoses | ring_buffer/ring_buffer.c:208-210 | from every state whose refresh steps past remote_head there is a continuation after which a full ring of published entries looks empty, recovery replays none of them, and the image is right only if nothing was left to apply |
| RingWitness.StaleRefreshLosesBatch | ring_buffer/ring_buffer.c:208-210 | such a state is reachable with something left to apply, so a published batch is really lost |
| RingRecovery.Restarted | ring_buffer/ring_buffer.c:109-116 | what the next process finds keeps the invariant and the published image, and the entries left number tail minus head modulo the ring size |
| RingFile.RingBuffer.constructor | ring_buffer/ring_buffer.c:80-106 | a new file is the initial state of the machine |
| RingFile.RingBuffer.BeginSession | ring_buffer/ring_buffer.c:38-44 | the two loads are two machine steps that start a session |
| RingFile.RingBuffer.EndSession | ring_buffer/ring_buffer.c:46-52 | the two write-backs are two machine steps that end it |
| RingFile.RingBuffer.EnqueueRedoLogEntry | ring_buffer/ring_buffer.c:186-201 | one turn of the wait loop if the ring looks full; then the entry is appended, or nothing has changed and the caller waits on; which of the two is decided exactly |
| RingFile.RingBuffer.CommitEnqueuedEntries | ring_buffer/ring_buffer.c:203-224 | one turn of the wait loop if the ring looks full, under the refresh hypothesis; then the whole batch and its COMMIT are published and the published image is that of the whole log, or the caller waits on |
| RingFile.RingBuffer.Dequeue | ring_buffer/ring_buffer.c:242-255 | the next entry in the order of enqueuing, or none exactly when everything the mirrored tail shows has been taken |
| RingFile.RingBuffer.CommitRbBatch | back-end/back_end.c:18-33 | metadata head, remote head and mirror all equal the consumer's cursor, nothing is left unfenced |
| RingFile.RingBuffer.ProcessEntry | back-end/back_end.c:85-122 | the next REDO or COMMIT entry of the log is applied to the image; a COMMIT also commits everything taken; none if dequeue waits |
| RingFile.RingBuffer.ConsumerTurn | back-end/back_end.c:134-144 | a turn of the consumer, sessions or not: the next entry is applied, or it sleeps, or nothing visible is left to take |
| RingFile.RingBuffer.ConsumeAll | back-end/back_end.c:134-144 | between sessions the consumer neither sleeps nor waits before everything published is applied and committed, and the image is then the published one |
| Producer.Session.Enqueue | ring_buffer/ring_buffer.c:186-201 | the wait loop with the consumer running in between: one more entry in the log, or the ring looks full and the wait was given up; never given up with room, and with patience for a whole ring the entry is written if and only if there is room, the head read afresh has moved, or the consumer will commit |
| Producer.Session.Commit | ring_buffer/ring_buffer.c:203-224 | the wait loop of a commit: everything enqueued is published, or the ring looks full and the wait was given up or the refresh would be stale; success is decided exactly in the same way |
| Producer.Session.End | instrumentation/instrumenation_common.h:213-214 | the write-back of head and tail ends the session with everything published |
| RingFile.RingBuffer.Reopen | ring_buffer/ring_buffer.c:109-116 | both cursors and both mirrors restart from the durable head and tail |
| RingFile.RingBuffer.ReplayLog | back-end/back_end.c:206-216 | terminates after exactly the entries left, empties the ring, and the image is the published one |
| RingFile.RingBuffer.Recover | back-end/back_end.c:200-216 | after a crash anywhere recovery handles exactly (tail - head) mod N entries, ends with head equal to tail, and gives the published image, whatever the crash left behind |
| CombiningLock.StepLockInv | flat_combining/writer_preference_spin_lock.c:19-82 | every step of every thread keeps: at most one lock holder, flags match program points, slots already scanned are not inside a read |
| CombiningTasks.StepTaskInv | flat_combining/flat_combining.c:81-182 | every step keeps the meaning of the `ready` words and of the combiner's index array |
| CombiningHistory.RunInv | flat_combining/flat_combining.c:81-182 | lock, task and history invariants hold in every state of every run |
| CombiningTheorems.ReaderWriterExclusion | flat_combining/writer_preference_spin_lock.c:29-42 | after one full non-atomic scan no thread is past its lockIsFree test until the unlock; two lock holders are the same thread |
| CombiningTheorems.ReaderMemoryStable | flat_combining/flat_combining.c:51-67 | while a thread reads, memory does not change and everything executed is published |
| CombiningTheorems.SingleProducer | instrumentation/instrument_front_end.c:191-224 | at most one thread is between loading the ring's head and tail and writing them back, over the combiner's log, its mmap logging and the transient mmap path |
| CombiningTheorems.StartedHasCombiner | flat_combining/flat_combining.c:111-131 | a STARTED slot is in the index array of a live combiner |
| CombiningTheorems.BatchFits | flat_combining/flat_combining.c:100-126 | collected indices are distinct, so the array never exceeds the number of threads |
| CombiningTheorems.DoneHitsItsRequest | flat_combining/flat_combining.c:169-173 | the DONE a combiner writes goes to the very request it executed and published |
| CombiningTheorems.ExactlyOnce | flat_combining/flat_combining.c:81-182 | no update is executed twice and every returned update was executed |
| CombiningTheorems.LinearizableAndDurable | flat_combining/flat_combining.c:81-182 | every returned command took effect at one point between submission and return, with the response of that point, published before the return; memory is what the history produces |
| CombiningTheorems.SequentialRun | flat_combining/flat_combining.c:152-162 | some sequence of memories, each the result of executing one update of the history on the one before, leads from the initial memory to the present one and gives every returned command its response |
| CombiningTheorems.TestBeforeCas | flat_combining/flat_combining.c:98-99 | a thread comes to its compare-exchange only by a look at the lock that found it free |
| CombiningBatches.CollectsAll | flat_combining/flat_combining.c:111-131 | every request that waits when a combiner begins a pass over the slots is in its batch when it begins to execute |
| CombiningBatches.PassBegins | flat_combining/flat_combining.c:111-131 | taking the lock, and meeting a reader in the scan, both begin such a pass |
| CombiningProgress.WaiterReturns | flat_combining/flat_combining.c:81-182 | when nobody holds the lock and no reader flag is up, a thread waiting with an update returns it by its own moves alone |
| CombiningProgress.DoneReturns | flat_combining/flat_combining.c:94-97 | a thread whose request is DONE returns it in at most four own moves, without the lock, whoever holds it |
| CombiningProgress.UpdateReturns | flat_combining/flat_combining.c:81-182 | from every reachable state every update under way has a continuation in which it returns, with its own number and command |
| CombiningProgress.UpdateCall | flat_combining/flat_combining.c:204-228 | in every reachable state a thread at rest can submit any update and it can be brought to its return |
| CombiningProgress.ReaderReturns | flat_combining/writer_preference_spin_lock.c:68-82 | a reader that finds the lock free, or is inside, returns in at most six own moves with the answer of memory as it is |
| CombiningProgress.ReadReturns | flat_combining/flat_combining.c:51-67 | from every reachable state, a held lock included, every read under way has a continuation in which it returns the answer of a memory on the way |
| CombiningProgress.ReadCall | flat_combining/flat_combining.c:204-228 | in every reachable state a thread at rest can begin any read and it can be brought to its return |
| CombiningProgress.MapCall | instrumentation/instrument_front_end.c:191-224 | a thread at rest can begin an mmap, which can be brought to its log and to its return |
| CombiningProgress.MapInBatch | instrumentation/instrument_front_end.c:191-224 | an mmap of the combiner between two requests logs and comes back to the very state it left |
| CombiningProgress.InitialState | flat_combining/flat_combining.c:81-182 | for any number of threads and any application there is a state to start from |
| CombiningTheorems.ReadsSeeWholeBatches | flat_combining/flat_combining.c:51-67 | every read-only command saw the state between two whole combiner batches |
| CombiningCalls.RealTimeOrder | flat_combining/flat_combining.c:204-228 | a call whose return move comes before the submitting move of another call takes effect first |
| CombiningCalls.CallRecord | flat_combining/flat_combining.c:204-228 | a call records the history as it was at its submitting and at its returning move |
| CombiningCalls.EveryReturnIsCall | flat_combining/flat_combining.c:204-228 | every completed command has its submitting and returning moves in the run, by the same thread, busy in between |
| CombiningCalls.StartedAwaits | flat_combining/flat_combining.c:87-93 | a thread that finds its request STARTED waits for it until its return and does not come near the lock |
| CombiningTheorems.HistoryGrows | flat_combining/flat_combining.c:152-162 | the points commands took effect at never change |
| CombiningDrain.DrainDecreases | flat_combining/writer_preference_spin_lock.c:68-82 | while a combiner drains the readers no step raises the measure and each reader step other than spinning lowers it |
| CombiningDrain.DrainTerminates | flat_combining/flat_combining.c:111-131 | the number of reader steps during a drain is bounded by the measure at its start |
| CombiningDrain.ParkedMeansUnflagged | flat_combining/writer_preference_spin_lock.c:29-36 | any thread whose flag is up can take a step that lowers the measure, so when none can, the set is empty |
| OpenAddressing.FreeMeansAbsent | hash_set/hash_set.c:60-96 | a free slot on the probe path proves the address is stored nowhere |
| OpenAddressing.InsertKeeps | hash_set/hash_set.c:60-73 | storing in the first free slot keeps no-duplicates and no-holes and adds exactly that address |
| OpenAddressing.LapIsEnough | hash_set/hash_set.c:139-148 | a free slot, or the address itself, is met within one lap |
| OpenAddressing.OccupiedIsSize | hash_set/hash_set.c:60-73 | the entry count is the number of distinct addresses |
| HashSet.AddressHashSet.constructor | hash_set/hash_set.c:31-42 | an empty set with the given size and threshold |
| HashSet.BlocksHold | hash_set/hash_set.c:150-176 | the 64-byte blocks recorded for a range are those that hold a byte of it, and for an empty range the one it cuts in two |
| HashSet.AddressHashSet.AddressIsProcessed | hash_set/hash_set.c:60-96 | true exactly for a free slot, which is taken, or an equal one, which counts as a duplicate |
| HashSet.AddressHashSet.Insert | hash_set/hash_set.c:139-148 | the set gains exactly the address, in the slot where the probing ends; the counters say how many other addresses were met and whether it was new; the loop terminates |
| HashSet.AddressHashSet.Resize | hash_set/hash_set.c:99-134 | a valid table twice the size with the same elements; resizes and duplicates are carried over, collisions are carried over and those of the copying added |
| HashSet.AddBlock | hash_set/hash_set.c:163-172 | the table is replaced, by one twice its size, if and only if it has as many elements as it may |
| HashSet.AddRedoLogStub | hash_set/hash_set.c:150-176 | adds exactly the 64-byte blocks that meet the range and keeps all earlier ones; the size is doubled as often as resizes were counted, and a replaced table is never less than half as full as it may be |
| Bits.AndAlign | instrumentation/redo_entry_collector.c:324-348 | the AND with the sign-extended byte 0xE0 aligns down to 32 |
| Bits.AndLow | instrumentation/redo_entry_collector.c:365-382 | the AND with the table size minus one is the remainder modulo the size |
| ProbeBlocks.ConfiguredSizes | instrumentation/instrumenation_common.h:14-44 | every configured wrap limit, 16382 for 2048 slots included, ends the table exactly |
| ProbeBlocks.TryTaken | instrumentation/redo_entry_collector.c:458-498 | a slot taken by another address sends the probe to the next slot, around the end, with the table pointer restored |
| ProbeRefinement.ProbeLoop | instrumentation/redo_entry_collector.c:391-498 | the inner loop ends with the address recorded once |
| ProbeRefinement.Cover | instrumentation/redo_entry_collector.c:350-531 | the outer loop records exactly the blocks left in the range |
| ProbeTheorems.IdleRecordsNothing | instrumentation/redo_entry_collector.c:80-104 | a thread that is not combining leaves memory alone |
| ProbeTheorems.TrackingRefines | instrumentation/redo_entry_collector.c:228-531 | the table gains exactly the blocks the store touches, without duplicates or holes, the counter rises by the number of new blocks, nothing else in memory changes |
| ProbeTheorems.OverflowNeverEnds | instrumentation/redo_entry_collector.c:106-124 | when the blocks do not fit, the emitted code never returns |
| ProbeTheorems.TrackingTerminatesIff | instrumentation/redo_entry_collector.c:228-531 | a store returns if and only if the blocks recorded so far and those it touches fit in the table together |
| ProbeTheorems.TablePointerAtBase | instrumentation/redo_entry_collector.c:499-531 | whatever memory holds, the table pointer is at its base at the outer loop head, and the two jumps behind the back-jump are never executed |
| Collection.StopHits | instrumentation/instrument_front_end.c:313-326 | the entries define exactly the bytes of the recorded blocks above 1000 and of the memcpy chunks, overshoot included |
| Collection.FaithfulDelta | ring_buffer/ring_buffer.c:194-199 | replaying entries copied from memory gives each byte its value in memory |
| Collection.ImageRefinement | instrumentation/instrument_front_end.c:292-335 | after the entries of instrument_stop the image equals memory on every byte if and only if every byte that differed was logged |
| Collection.PartialImage | instrumentation/instrument_front_end.c:313-326 | after any prefix of the entries each byte has its old or its new value |
| Collection.StopBatches | instrumentation/instrument_front_end.c:313-328 | the entries are one batch per memcpy, in order, and one for the table |
| Atomicity.ChangesIff | instrumentation/instrument_front_end.c:313-328 | publishing a batch changes the image if and only if some byte that is out of date is in it and in no batch before it |
| Atomicity.AtomicIff | instrumentation/instrument_front_end.c:313-328 | at every batch boundary the image is the old or the new one if and only if at most one batch is the first to carry a byte that is out of date |
| Atomicity.StopAtomicIff | instrumentation/instrument_front_end.c:292-335 | on memory, image, copies and table before the stop: its batches are all or nothing at every boundary if and only if at most one of the copies and the table is the first to log a byte that is out of date |
| Atomicity.BoundaryIsBatch | ring_buffer/ring_buffer.c:217-223 | what is published of them at any moment is a whole number of batches |
| Atomicity.TornBatch | instrumentation/instrument_front_end.c:313-328 | a tracked batch of one memcpy and one store where both matter, and the image between them |
| TornWitness.CrashTearsBatch | instrumentation/instrument_front_end.c:313-328 | a reached state in which recovery from every crash gives that image, neither the memory before nor after, in a run that goes on to publish the whole batch |
| RingCommits.EveryCommitPoint | ring_buffer/ring_buffer.c:217-223 | between two states of a run every prefix of the published log that ends on a batch boundary is the published log of some state |
| Collection.CopyCoveredIff | instrumentation/instrument_front_end.c:314-317 | the chunks of a memcpy cover it if and only if its size is at most 0x7FFFFFE0 |
| Collection.LoopEndsIff | instrumentation/instrument_front_end.c:316-317 | the loop with its `int` counter ends if and only if the distance is at most 0x7FFFFFE0, and then after one turn for each chunk |
| Collection.BlockLoggedIff | instrumentation/instrumenation_common.h:169-185 | a byte of a recorded block is logged if and only if it is at or above 1024 |
| Collection.LowBlockIsLost | instrumentation/instrumenation_common.h:174 | a store to address 1010 that is recorded and never reaches the image |
| Collection.StoreStaysTracked | instrumentation/redo_entry_collector.c:228-531 | a recorded store at or above 1024 keeps every difference logged |
| Collection.CopyStaysTracked | instrumentation/instrument_front_end.c:273-290 | a recorded memcpy of at most 0x7FFFFFE0 bytes keeps every difference logged |
| FrontEnd.Tracker.RecordRange | instrumentation/redo_entry_collector.c:350-531 | the table gains exactly the touched blocks |
| FrontEnd.Tracker.Store | instrumentation/redo_entry_collector.c:228-531 | the store is executed, recorded exactly when combining, and keeps every difference tracked |
| FrontEnd.Tracker.InstrumentedMemcpy | instrumentation/instrument_front_end.c:273-290 | in a batch the copy is recorded and made, outside it neither |
| FrontEnd.Tracker.LogCopies | instrumentation/instrument_front_end.c:313-326 | the loop enqueues the chunks of every copy through the ring and commits each copy; it fails only when a wait was given up or a refresh would be stale, never with room for all its entries, and always without it if nobody helps |
| FrontEnd.Tracker.CollectPayload | instrumentation/instrumenation_common.h:153-215 | the loop enqueues every block above 1000, empties the table, commits, and writes head and tail back, which ends the session with everything published; fails as LogCopies does |
| FrontEnd.Tracker.InstrumentStop | instrumentation/instrument_front_end.c:292-335 | everything recorded is published in the ring and forgotten, and image and memory are equal again if and only if every difference was tracked; it succeeds whenever the ring has room for the entries of the stop, without the consumer's help only then, and fails only with the ring full and the wait given up or a stale refresh |
| Transaction.LastWins | instrumentation/redo_entry_collector.c:228-531 | after a batch a byte holds what the last operation covering it put there: its byte of a store, or the byte a memcpy found at its source just before |
| Transaction.NoneCovers | instrumentation/redo_entry_collector.c:228-531 | a byte no operation covers is what it was |
| Transaction.Transact | instrumentation/instrument_front_end.c:292-335 | from instrument_start over any stores and memcpys to instrument_stop: memory is, byte by byte, what the operations write, and image and memory are in step before and after; success is decided as for instrument_stop, by the chunks of each copy, the blocks touched and one COMMIT for each copy and the table |
| Transaction.TransactAndApply | back-end/back_end.c:134-144 | and once the consumer has caught up the persistent image is that memory, byte for byte |
| RegionTable.RemapRebuilds | back-end/back_end.c:146-182 | the trusted records alone rebuild the mappings they were made with, on files of the right size |
| RegionTable.Table.constructor | region_table/region_table.c:67-70 | an empty table |
| RegionTable.Table.AddRegionRecord | region_table/region_table.c:127-150 | the record goes to the first free place with that place as its file index, unless the table is full |
| RegionTable.Table.Commit | region_table/region_table.c:121-125 | the committed count catches up and stays within the records written |
| RegionTable.Table.CreateMemoryRegion | region_table/region_table.c:154-175 | record k keeps file index k and is backed by mem_file_k |
| RegionTable.Table.InitialSync | instrumentation/instrument_front_end.c:457-503 | every region gets the next number for its file and its record, then all are committed; fails exactly when the table is too small |
| RegionTable.Table.CommitRbBatch | back-end/back_end.c:23-33 | metadata and table agree on the number of regions |
| RegionTable.Table.Perform | back-end/back_end.c:50-84 | an MMAP entry adds one mapping, a synchronisation one for each of its regions, at the next places, in order, each on the file of its place; the other mappings stay |
| RegionTable.LastCommit | back-end/back_end.c:23-33 | the metadata counts the regions asked for before the last batch commit |
| RegionTable.Table.Execute | back-end/back_end.c:50-132 | over any mix of synchronisation, MMAP entries and commits there are as many mappings as MMAP entries and synchronised regions, those of each operation stand at its place, and the metadata counts those asked for before the last commit |
| RegionTable.Table.RecoverMappings | region_table/region_table.c:74-76 | recovery restores the mappings the metadata counts, all of them if and only if none was added since the last batch commit |
| RegionTable.Table.RemapBackEnd | back-end/back_end.c:146-182 | remapping any trusted prefix restores the original mappings in order |
| EmittedBatch.EmittedCodeTracks | instrumentation/redo_entry_collector.c:228-531 | what the emitted code leaves in its table makes collection log the store |
| EndToEnd.SleepingConsumerHasMemory | back-end/back_end.c:134-144 | when the consumer sleeps after an instrument_stop, the persistent image equals memory on every byte if and only if every difference was tracked |
| EndToEnd.CrashRebuildsMemory | back-end/back_end.c:206-216 | once the last batch of an instrument_stop is published, recovery from a crash at any point rebuilds the memory it was collected from |
| EndToEnd.CrashDuringStop | back-end/back_end.c:206-216 | recovery from a crash in any state between the first and the last entry of an instrument_stop gives the image after some number of its batches |
| EndToEnd.EveryBatchIsCrashPoint | back-end/back_end.c:206-216 | and every number of its batches is what recovery gives from some state of the run |
| EndToEnd.StopCrashAtomicIff | back-end/back_end.c:206-216 | recovery from every crash during an instrument_stop gives the memory before or after it if and only if at most one of its copies and the table is the first to log a byte that is out of date |
| EmittedBatch.StoreLeaves | instrumentation/redo_entry_collector.c:228-531 | the list emitted for a store is left, if the blocks fit |
| EmittedBatch.BatchRecorded | instrumentation/redo_entry_collector.c:228-531 | a batch of stores and memcpys run on the emitted code, from an empty table and with any registers on entry, leaves in table and memcpy array what covers every byte that has changed |
| CombiningStages.StepHolder | instrumentation/instrument_front_end.c:191-224 | a step of one thread moves the lock holder through loading, logging and writing back in this order, or leaves it, memory and history alone |
| Durability.RunInv | instrumentation/instrument_front_end.c:292-335 | in every state of every joint run the ring session is where the lock holder is, and the log stands for the published history, or for it with part of the batch being published |
| DurabilityTheorems.StopGoesOn | instrumentation/instrument_front_end.c:313-328 | while instrument_stop has something left to log and the ring has room, the next entry can be written |
| DurabilityTheorems.DurablyLinearizable | flat_combining/flat_combining.c:81-182 | after a crash at any point of any joint run the recovered memory is what a prefix of the history makes, and it holds every update that has returned; while a batch is being published, provided at most one part of it matters |
| DurabilityTheorems.BatchAtomicIff | instrumentation/instrument_front_end.c:292-335 | with all threads running, every crash while a batch is published recovers all of it or nothing if and only if at most one of its copies and the table is the first to log a byte that is out of date |
| DurabilityProgress.StopCompletes | instrumentation/instrument_front_end.c:292-335 | from every reachable state in which a batch is being published and the ring has room for what is left of it, a continuation publishes all of it, writes head and tail back and returns the combiner's update |
| DurabilityProgress.StopReachesImage | back-end/back_end.c:134-144 | and the consumer then brings the persistent image to the memory of the batch |
| DurabilityProgress.BatchCompletes | instrumentation/instrument_front_end.c:292-335 | the same from where the batch is executed, for any record of it that covers it |
| DurabilityProgress.MapCompletes | instrumentation/instrument_front_end.c:191-224 | the session of an mmap, inside a batch or outside, can be brought to its end with its entry published |

## Left out

- MMAP and TRANSIENT_MMAP entries in the ring: the ring machine carries REDO and COMMIT entries; the hook that logs an mmap is modelled as a producer session of flat combining, and its effect on files as `RegionTable`.
- The lock and flat combining are a machine on values, because what matters is the interleaving of single stores; update in place and aliasing are not captured there.
- Interleaving inside the class methods of the ring: `RingFile` runs each C function without interference, up to one turn of its wait loop, as a sequence of machine steps; interference and crashes between the steps are the machine's, on values.
- Producer.Session.Commit: gives up before a refresh that would violate the refresh hypothesis; what the code does there is `StaleRefreshLoses`.
- RingFile.RingBuffer.CommitEnqueuedEntries: requires the refresh hypothesis when the ring looks full, for the same reason.
- RingFile.RingBuffer.ProcessEntry: REDO and COMMIT entries only.
- CombiningTheorems.LinearizableAndDurable: a combiner's batch is published in one step of the flat-combining machine alone; publication ring batch by ring batch, and crashes between them, are the joint machine's, in `DurablyLinearizable` and `BatchAtomicIff`.
- DurabilityTheorems.DurablyLinearizable: while a batch is being published, at most one part of it may matter; `BatchAtomicIff` shows that otherwise some crash leaves memory that is neither before nor after.
- The joint machine takes what was recorded of a batch as an input that covers the batch, which is what `BatchRecorded` shows of the emitted code; a session for an mmap enqueues a COMMIT only; a crash ends the run, and the next one starts from any ring that recovery has led to.
- FrontEnd.Tracker.InstrumentStop: requires that every logged byte is mapped, that distances stay at or below 0x7FFFFFE0 so that the loop counter does not overflow, and that at most 100 memcpys are recorded; beyond these the C code has no defined behaviour.
- CombiningProgress.UpdateReturns: there is a continuation; that a fair scheduler takes it is not stated, because reader flags may go up and down under a combiner for ever.
- DurabilityProgress.StopCompletes: for a ring with room for the entries; without it the producer can wait for ever, as `WakeupLostInSession` shows.
- The application's payload size in the ring: the machine allows payloads of any length, of which 32 bytes is one.
- `ring_buffer_open`: it is not called on the launch path; the head it would start from is compared with the remote head in `MetadataHeadEquivalent` and `MetadataHeadTooFarAhead`.
- `tryWriteLock`: the combining path calls `lockWriter` and scans the readers itself; the same two pieces are modelled there.
- Hardware ordering below sequential consistency, and the persistence of the head and tail words beyond durability at the store.
- Overflow buffer and bypass buffer: the check for a full table is compiled out in C (it is present only where `DISABLE_OVERFLOW_BUFFER` is defined, that is in C++), so the overflow buffer is taken to be empty; the bypass buffer is switched off.
- FrontEnd.Tracker.Store: addresses below 32 are excluded, because block 0 cannot be told from a free slot.
- ProbeTheorems.TrackingRefines: memory is a map of whole 64-bit words, and the table and the counter do not overlap; the range ends below the upper half of the address space.
- HashSet.AddressHashSet.constructor: the threshold is a real number that gives a whole number of elements between 1 and the size, as the assertion in the resize demands; floating-point rounding and the width of `int` are not modelled.
- HashSet.AddRedoLogStub: addresses below 64 are excluded, because block 0 cannot be told from a free slot; the end of the range does not wrap around.
- RegionTable.Table.Execute: a fresh run only; after recovery the numbering of files restarts, and replayed MMAP entries have no clean property. A mapping at a fixed address is taken to succeed.
- Replies to remote clients, sockets and event loops: input and output only.
- DynamoRIO registration, register reservation, checkpointing, allocators, thread placement: foreign calls.

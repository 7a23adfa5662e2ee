# A verified model of a work-stealing thread pool

The repository is a thread pool: every worker owns a deque that other workers steal from, jobs are
also handed out through a shared queue and per-worker inboxes, idle workers park, and `scope` keeps
borrowed data alive until every job that uses it is gone. This project models the parts where
threads meet and proves what they promise, for any number of threads, jobs and steps.

| file | what it models |
|---|---|
| `Words.dfy` | packing two 32-bit cursors into one word, wrapping cursor arithmetic, masked slots |
| `Claims.dfy` | pending claims on a ring, in claim order |
| `Deque.dfy` | the owner/thief deque as a step machine over unbounded cursors |
| `WorkerQueues.dfy` | the deque as it is stored (packed word, 32-bit counter, slot array) and its operations |
| `Pool.dfy` | the shared queue, all inboxes and all deques together: where each job is |
| `SleepWake.dfy` | sleep registration, parking, wake-ups, batch locks and shutdown |
| `Batches.dfy` | round-robin assignment and all-or-nothing batch publication |
| `Spmc.dfy`, `SpmcRings.dfy` | the single-producer, multi-consumer ring: step machine, and stored form |
| `Scopes.dfy` | one `scope` call: tickets, cancellation, the panic cell |
| `ScopedPools.dfy` | a pool and any number of scopes whose jobs it carries, together |
| `Contexts.dfy` | the thread-local owner context over nested scopes of several pools |
| `Helpers.dfy` | the private one-slot helper, on a deque of `WorkerQueues.dfy` that nobody else can reach |

## How concurrency is modelled

Atomic operations are steps of a machine (`Next`), a run is any sequence of steps of any threads, and
the main lemmas speak about every state of every run. Memory is sequentially consistent.

The two rings have a second, imperative layer: a class with the stored words and the slot array, one
method per atomic action, each proved to be one step of the machine, and the operations themselves
with their loops. Between two atomic actions an operation calls `YieldAs...`, whose contract says only
that the other threads have taken some finite number of machine steps (`Interference`); nothing else
about the ring is known afterwards. Operations are specified by the linearization log of the machine:
the calling thread's part of the log grows by exactly the event that the operation reports, and the
invariant says that the whole log replays on a sequential queue.

Loops that wait for other threads take a budget of attempts (`polls`, `retries`), because a verified
loop must end; at most `spurious` attempts fail for no reason. When such a loop gives up, the contract
says what it met: states of the ring on the way (`Sightings`) at which an older claim was pending, or the
head had moved on. Every such witness lies between the ring at the call and the ring at the end, so it
cannot be made up: if the end shows that nobody else stepped in, an operation does what it does alone.
What holds is proved for every budget. A deque that is marked `secluded` has no
thieves: its owner's yields change nothing.

## Reading notes

- The comment at `src/thread_pool/worker_queue.rs:138-139` reads `Empty` as "the source is empty". The
  code also answers `Empty` when the destination has no free slot (line 154), which the debug assertion
  at line 151 rules out only for a destination whose slots are all released. `WorkerQueues.TrySteal`
  follows the code and states exactly when `Empty` is answered.
- The SPMC ring compares only the 32-bit halves of the head, and takes the number of items from 32-bit
  cursors, so two things fail for a consumer that stalls long enough.
  (1) Between its loads and its exchange: if 2^32 items pass, it claims an item that was never pushed.
  `Spmc.StaleClaim` is that run, with the bad claim made, and `Spmc.BoundIsExact` shows that claims are
  right in all runs whose claims are at most `d` behind if and only if `d < 2^32`.
  (2) Between its two loads: if 2^32 - 1 items pass and one more is pushed, it reports an empty ring that
  is not empty. `Spmc.StaleEmpty` is that run, and `Spmc.EmptyBoundIsExact` shows that the answer is right
  if and only if the tail is loaded less than 2^32 above the loaded head.
  The deque has neither limit, since its tail is in the compared word.

## Model

| member | source | states |
|---|---|---|
| `Words.UnpackPack` | src/utils/bits.rs:7-17 | unpacking a packed pair gives back both halves, with `&` and or defined bit by bit and shifts by powers of two |
| `Words.PackUnpack` | src/utils/bits.rs:7-17 | packing the halves of any 64-bit word gives back the word |
| `Words.FetchAddKeepsLow` | src/utils/packed.rs:50-58 | adding to the high half wraps there and never reaches the low half, for every word and amount |
| `Words.WrappedDifferences` | src/utils/cursors.rs:22-31 | wrapping free-slot and filled-slot counts equal the true ones at every cursor, however far it has run |
| `Words.MaskIsMod` | src/utils/fixed_ring_buffer.rs:66-69 | masking with `2^k - 1` is the remainder modulo `2^k` |
| `Words.MaskedSlot` | src/utils/fixed_ring_buffer.rs:66-69 | the masked slot of a wrapped 32-bit cursor is the true cursor modulo the capacity |
| `Words.SlotsDiffer` | src/utils/fixed_ring_buffer.rs:66-69 | two cursors less than a capacity apart never share a slot |
| `Claims.ReleaseOrder` | src/thread_pool/worker_queue.rs:217-234 | there is a pending claim exactly if `stolen < blocked`; exactly one claim, the oldest, may publish, and every other waits for the one before it |
| `Claims.BehindOrTurn` | src/thread_pool/worker_queue.rs:220-227 | a claim whose start is not `stolen` has an older claim of another thief before it |
| `Deque.StepInv` | src/thread_pool/worker_queue.rs:70-234 | every atomic step keeps: `stolen <= blocked <= tail <= stolen + capacity`, claims tile `[stolen, blocked)`, claimed and half-popped values are still in place, and the log replays to the unclaimed items |
| `Deque.RunInv` | src/thread_pool/worker_queue.rs:70-234 | the same in every state of every run of one owner and any number of thieves |
| `Deque.RangesDisjoint` | src/thread_pool/tests/loom.rs:9-18 | the claimed, the unclaimed and the free range use pairwise different slots |
| `Deque.WriteIsSafe` | src/thread_pool/worker_queue.rs:70-84 | no write lands in a slot that holds an item, a staged value, or anything a thief may still read |
| `Deque.ReadsAreRight` | src/thread_pool/worker_queue.rs:127-174 | the owner's and every thief's slot read returns the value removed for that cursor; a published claim was read in full |
| `Deque.ItemsRefine` | src/thread_pool/worker_queue.rs:70-187 | publishing appends at the back, a pop's exchange removes the last item, a claim removes a prefix and promises it in order, a pop that gives up had seen nothing, and no other step changes the items |
| `Deque.OldestCanStep` | src/thread_pool/worker_queue.rs:217-234 | the oldest claimant can always read its next slot or publish, so release never waits in a circle |
| `Deque.LostExchangeShrinks` | src/thread_pool/worker_queue.rs:108-134 | a pop that loses its exchange to a thief sees strictly fewer items at its next look |
| `Deque.OwnerStable` | src/thread_pool/worker_queue.rs:144-234 | whatever thieves do, the tail, the written values and the owner's own part of the log stay, and the invariant holds |
| `Deque.ThiefStable` | src/thread_pool/worker_queue.rs:70-234 | whatever others do, a thief's claims and its part of the log stay, `stolen` only grows, and the invariant holds |
| `Deque.LogDecides` | src/thread_pool/worker_queue.rs:70-134 | a deque that no thief has touched holds exactly what its owner's pushes and pops say |
| `Deque.LeadsGrows` | src/thread_pool/worker_queue.rs:70-234 | along every run the log and `stolen` only grow, no item comes or goes without a new log entry, and every new claim has one |
| `WorkerQueues.WorkerQueue.constructor` | src/thread_pool/worker_queue.rs:42-50 | a new ring represents the empty deque of its capacity |
| `WorkerQueues.WorkerQueue.LoadAnchor` | src/thread_pool/worker_queue.rs:237-249 | the two halves of the word are the low 32 bits of the true cursors, and their wrapping difference is the true number of items |
| `WorkerQueues.WorkerQueue.LoadRoom` | src/thread_pool/worker_queue.rs:237-249 | the owner's wrapping free-slot count is the true number of free slots at its `stolen` load |
| `WorkerQueues.WorkerQueue.WriteSlot` | src/utils/fixed_ring_buffer.rs:72-78 | writing the masked slot of `tail + offset` is one `Write` of the machine; the ring still represents it |
| `WorkerQueues.WorkerQueue.PublishTail` | src/thread_pool/worker_queue.rs:82-84 | the add on the high half is one `Publish` of the machine |
| `WorkerQueues.WorkerQueue.LookAnchor` | src/thread_pool/worker_queue.rs:110-131 | the word loaded by a pop, or returned by its failed exchange, is a `Look` of the machine with the true items |
| `WorkerQueues.WorkerQueue.SwapTail` | src/thread_pool/worker_queue.rs:118-131 | the owner's exchange succeeds exactly if no thief has claimed since the look (spurious failures aside), and then is one `PopSwap` |
| `WorkerQueues.WorkerQueue.ReadPopped` | src/thread_pool/worker_queue.rs:125 | the slot read after the exchange returns the job that was removed, whatever thieves did in between |
| `WorkerQueues.WorkerQueue.SwapBlocked` | src/thread_pool/worker_queue.rs:195-214 | a thief's exchange from any pair of words, however stale or wrapped, succeeds exactly if the word is equal, and then is a correct claim |
| `WorkerQueues.WorkerQueue.CopySlot` | src/thread_pool/worker_queue.rs:173-180 | a thief's read of the masked slot returns the promised value at that offset |
| `WorkerQueues.WorkerQueue.LoadStolen` | src/thread_pool/worker_queue.rs:222-227 | comparing 32-bit words decides exactly whether it is this claim's turn |
| `WorkerQueues.WorkerQueue.SwapStolen` | src/thread_pool/worker_queue.rs:228-232 | the exchange succeeds exactly if it is this claim's turn (spurious failures aside), and then is one `Release` of the machine |
| `WorkerQueues.WorkerQueue.Push` | src/thread_pool/worker_queue.rs:70-84 | under any interference: refused exactly if the ring was full at the `stolen` load, otherwise the owner's log grows by this push |
| `WorkerQueues.WorkerQueue.PushBatch` | src/thread_pool/worker_queue.rs:87-105 | under any interference: moves the prefix of the source of length min(free slots at the load, request, cached length, elements found), in order |
| `WorkerQueues.WorkerQueue.Pop` | src/thread_pool/worker_queue.rs:108-134 | under any interference: returns the job its logged pop removed, or nothing with a logged look that found the deque empty; loses to thieves at most as often as there were items at the start |
| `WorkerQueues.TrySteal` | src/thread_pool/worker_queue.rs:144-187 | under any interference: on success the same jobs in the same order left the front of the victim and joined the back of the destination, as many as room, request and items allow; `Empty` exactly if there was no room or no item at the loads; `Busy` only if the victim's word has changed; left waiting only if an older claim was pending at all polls but the last `spurious`. The states at the loads lie on the way from call to end, and if the logs show nobody else the outcome is that of a sequential steal |
| `WorkerQueues.AloneIsSequential` | src/thread_pool/worker_queue.rs:144-187 | with nobody else in the victim's log and no release on the destination: neither `Empty` nor `Busy` if there are items and room, exactly min(room, request, items) jobs are claimed, and moved if no claim was pending before |
| `WorkerQueues.Transfer` | src/thread_pool/worker_queue.rs:173-187 | after the exchange: the claimed jobs, in order, are copied, released in turn and published, or an older claim was pending at all polls but the last `spurious` |
| `WorkerQueues.CopyAll` | src/thread_pool/worker_queue.rs:173-181 | the copy loop stages exactly the claimed jobs, in order, and publishes nothing |
| `WorkerQueues.Publish` | src/thread_pool/worker_queue.rs:182-234 | the claim is released in its turn, and only then the destination's tail is published, with exactly the claimed jobs; with more polls than spurious failures it is left waiting only behind an older claim |
| `WorkerQueues.WorkerQueue.DropItems` | src/thread_pool/worker_queue.rs:26-38 | with exclusive access exactly the unclaimed items are dropped, each once, in order |
| `Pool.StepInv` | src/thread_pool/worker.rs:49-107 | every step of every thread keeps each submitted job in exactly one place and every deque's invariant |
| `Pool.RunInv` | src/thread_pool/worker.rs:49-107 | the same over whole runs of any number of threads |
| `Pool.Conservation` | src/thread_pool/worker.rs:49-107 | in every reachable state a submitted job is counted exactly once over shared queue, inboxes, deques, claims, hands, finished and dropped jobs; it was started exactly once if running or finished, and never otherwise |
| `Pool.SettledIsFinal` | src/thread_pool/worker.rs:177-180 | a finished or dropped job stays so and is in no queue, inbox, deque, claim or hand ever again; it was started exactly if it finished |
| `Pool.JobGoesThrough` | src/thread_pool/worker.rs:49-107 | in every pool with two threads a run takes a job from the shared queue into one deque, by a steal into another, to its one run and its end |
| `SleepWake.StepInv` | src/thread_pool/shared.rs:64-212 | every step of workers, publishers, consumers, batches and shutdown keeps the protocol's invariant |
| `SleepWake.RunInv` | src/thread_pool/shared.rs:64-212 | the same in every state of every run |
| `SleepWake.NoLostWakeup` | src/thread_pool/shared.rs:174-212 | after the step that publishes a job with a wake, while no step takes it out and whenever no publisher is mid-wake: the job is in its queue and some background worker is not blocked in park without a token, not registered, cannot get past its idle scan while the job stays, and has not left its loop if the pool runs |
| `SleepWake.NobodyLeavesEarly` | src/thread_pool/worker.rs:137-153 | no worker leaves its loop while the pool runs |
| `SleepWake.IdleWorkerParks` | src/thread_pool/shared.rs:186-207 | a worker that finds nothing anywhere registers and blocks, by steps of its own alone |
| `SleepWake.BlockedIsRegistered` | src/thread_pool/shared.rs:204-211 | a worker blocked in park is registered, or an unpark for it is on its way |
| `SleepWake.CachedLengthShows` | src/utils/queue_batching.rs:163-173 | a released job in the shared queue shows in the length read without the lock, even during other threads' critical sections |
| `SleepWake.SleeperInboxEmpty` | src/thread_pool/shared.rs:104-117 | a registered sleeper's inbox shows empty and holds no released job, unless a batch publisher has released that inbox and not yet swept this registration |
| `SleepWake.ShutdownReaches` | src/thread_pool/shared.rs:154-161 | after shutdown's step that unparks a worker, the pool is stopped and that worker is blocked without a token in no later state, wherever it was |
| `SleepWake.StopIsFinal` | src/thread_pool/shared.rs:156 | once shutdown has stored the stop flag the pool is stopped in every later state |
| `SleepWake.AssignmentIsExclusive` | src/thread_pool/shared.rs:70-103 | while a batch is being assigned nobody else holds any inbox, so no job of it can be taken before the last is assigned |
| `SleepWake.NoInboxDeadlock` | src/thread_pool/shared.rs:122-151 | whenever an inbox is locked, its holder or the consumer its holder waits for holds an inbox and can itself move on, and every such step brings it one step nearer to holding nothing |
| `SleepWake.WaitsForConsumer` | src/thread_pool/shared.rs:70-72 | a batch that holds an inbox waits only for a consumer, who holds that one inbox, nothing else, and is at most three steps from releasing it |
| `SleepWake.InboxGetsFree` | src/thread_pool/shared.rs:122-151 | from every reachable state a locked inbox is freed by a run in which only holders of inboxes move |
| `Batches.TurnsAreABijection` | src/thread_pool/shared.rs:76-94 | turns and participants correspond one to one; a host that does not publish has no turn |
| `Batches.TurnsAscend` | src/thread_pool/shared.rs:83-94 | the caller has the first turn, the other participants follow in increasing index order |
| `Batches.ShareHasSize` | src/thread_pool/shared.rs:76-97 | a participant's share has the round-robin size and anybody else's share is empty |
| `Batches.SharesAreBalanced` | src/thread_pool/shared.rs:76-97 | shares differ by at most one, none exceeds the caller's, the caller gets the rounded-up average, an inactive host nothing |
| `Batches.SharesCover` | src/thread_pool/shared.rs:78-97 | over all inboxes every job is dealt exactly as often as it occurs in the batch |
| `Batches.ScriptIsTwoPhase` | src/thread_pool/shared.rs:70-72 | in the log of a publication all guards are taken in index order before the first job is dealt, and none is given back before the last |
| `Batches.Inboxes.Assign` | src/thread_pool/shared.rs:77-98 | with all guards held, and whatever others do, each inbox grows by its share of what the iterator yielded before it ended or failed |
| `Batches.Inboxes.WithInboxes` | src/thread_pool/shared.rs:122-151 | while others change every inbox whose guard is not held: each frame gives its inbox back as it found it followed by its share, or on failure exactly as it found it; outer frames' inboxes keep what was dealt |
| `Batches.Inboxes.PublishBatch` | src/thread_pool/shared.rs:73-103 | all or nothing under interference: every inbox is given back as found followed by its share in iterator order, or exactly as found, with all guards held from before the first job to after the last |
| `Spmc.StepInv` | src/collection/ring_buffer/spmc_fifo/spmc_ring_buffer_fifo.rs:86-284 | every atomic step, an exchange being one whenever the packed words are equal, keeps the cursor order, the claims, the snapshots and the replay of the log, provided a claim's head was loaded less than 2^32 ago |
| `Spmc.RunInv` | src/collection/ring_buffer/spmc_fifo/spmc_ring_buffer_fifo.rs:86-284 | the same in every state of every run of one producer and any number of consumers whose claims are less than 2^32 behind |
| `Spmc.ItemsRefine` | src/collection/ring_buffer/spmc_fifo/spmc_ring_buffer_fifo.rs:86-247 | a bounded FIFO: publishing appends, a claim removes a contiguous prefix in push order, nothing else changes the items; a consumer that gives up had loaded the tail of an empty ring, if the tail was less than 2^32 above its head |
| `Spmc.LoadTailStep` | src/collection/ring_buffer/spmc_fifo/spmc_ring_buffer_fifo.rs:272-284 | because the head is loaded before the tail, equal cursors mean that the ring is empty at the tail load |
| `Spmc.FreshTakeIsSafe` | src/collection/ring_buffer/spmc_fifo/spmc_ring_buffer_fifo.rs:212-247 | if the head moved by less than 2^32 since the load, a successful exchange shows that it did not move and claims published items only |
| `Spmc.EmptyIsExact` | src/collection/ring_buffer/spmc_fifo/spmc_ring_buffer_fifo.rs:216-222 | the wrapping count is zero exactly if the true one is a multiple of 2^32; below 2^32, exactly if it is zero |
| `Spmc.EmptyBoundIsExact` | src/collection/ring_buffer/spmc_fifo/spmc_ring_buffer_fifo.rs:216-284 | in all reachable states, "nothing there" with a tail at most `d` above the loaded head means an empty ring at the tail load, if and only if `d < 2^32` |
| `Spmc.StaleEmpty` | src/collection/ring_buffer/spmc_fifo/spmc_ring_buffer_fifo.rs:216-284 | for every capacity, a reachable state in which a consumer gives up on a ring that holds an item, the head having moved by 2^32 - 1 |
| `Spmc.StaleClaim` | src/collection/ring_buffer/spmc_fifo/spmc_ring_buffer_fifo.rs:212-247 | for every capacity, a run whose last step is a successful exchange, 2^32 behind, that claims an item that does not exist |
| `Spmc.BoundIsExact` | src/collection/ring_buffer/spmc_fifo/spmc_ring_buffer_fifo.rs:212-247 | in all runs whose claims are at most `d` behind every claim takes published items only, if and only if `d < 2^32` |
| `Spmc.WriteIsSafe` | src/collection/ring_buffer/spmc_fifo/spmc_ring_buffer_fifo.rs:86-126 | no write lands in a slot that holds an item or that a consumer may still read |
| `Spmc.OldestCanStep` | src/collection/ring_buffer/spmc_fifo/spmc_ring_buffer_fifo.rs:250-269 | the oldest claimant can always read its next slot or publish, so release never waits in a circle |
| `Spmc.LaterClaimDisturbs` | src/collection/ring_buffer/spmc_fifo/spmc_ring_buffer_fifo.rs:255-267 | a claim that lands after the oldest claimant's load leaves it that claimant's turn, with no older claim, yet changes the word it compares |
| `Spmc.ProducerStable` | src/collection/ring_buffer/spmc_fifo/spmc_ring_buffer_fifo.rs:127-269 | whatever consumers do, tail, written values and the producer's part of the log stay |
| `Spmc.ConsumerStable` | src/collection/ring_buffer/spmc_fifo/spmc_ring_buffer_fifo.rs:86-269 | whatever others do, a consumer's snapshot, claims and part of the log stay |
| `SpmcRings.Ring.constructor` | src/collection/ring_buffer/spmc_fifo/spmc_ring_buffer_fifo.rs:44-51 | a new ring represents the empty queue of its capacity |
| `SpmcRings.Ring.LoadRoom` | src/utils/cursors.rs:22-25 | the producer's wrapping free-slot count is the true one at its head load |
| `SpmcRings.Ring.StoreTail` | src/collection/ring_buffer/spmc_fifo/spmc_ring_buffer_fifo.rs:124 | the plain store of the tail is one `Publish` of the machine |
| `SpmcRings.Ring.SwapHead` | src/collection/ring_buffer/spmc_fifo/spmc_ring_buffer_fifo.rs:224-246 | the exchange succeeds exactly if the packed head is unchanged (spurious failures aside), and then, for a head loaded less than 2^32 ago, is one `Take` of the machine |
| `SpmcRings.Ring.CopySlot` | src/collection/ring_buffer/spmc_fifo/spmc_ring_buffer_fifo.rs:166-172 | the masked slot holds the promised value at that offset |
| `SpmcRings.Ring.SwapStolen` | src/collection/ring_buffer/spmc_fifo/spmc_ring_buffer_fifo.rs:262-267 | at its turn the exchange of the whole word succeeds exactly if no later claim has landed since the load (spurious failures aside), however long ago that was, and then is one `Release` that undoes no claim |
| `SpmcRings.Ring.PollHead` | src/collection/ring_buffer/spmc_fifo/spmc_ring_buffer_fifo.rs:253-268 | one poll, with other threads between load and exchange: it releases the claim, or met an older claim, or a later one in between, or failed for no reason |
| `SpmcRings.LossesAreBounded` | src/collection/ring_buffer/spmc_fifo/spmc_ring_buffer_fifo.rs:250-269 | later claims make a release lose its exchange at most `capacity - amount` times in all |
| `SpmcRings.Ring.PushBatch` | src/collection/ring_buffer/spmc_fifo/spmc_ring_buffer_fifo.rs:86-126 | under any interference: appends the prefix of length min(free slots, request, values), in order |
| `SpmcRings.Ring.Reserve` | src/collection/ring_buffer/spmc_fifo/spmc_ring_buffer_fifo.rs:212-247 | the exchange loop: a claim of min(`max`, what one of its snapshots showed) items at the last exchange; or an empty ring, logged; or the head had moved on, each time further, at all `retries + 1` exchanges but `spurious` |
| `SpmcRings.Ring.TakeBatch` | src/collection/ring_buffer/spmc_fifo/spmc_ring_buffer_fifo.rs:127-269 | returns exactly the jobs its logged claim removed, min(`max`, what one of its snapshots showed) of them, and min(`max`, items at the call) if the cursors show nobody else; nothing only with a logged empty ring; contended only as `SpmcRings.Ring.Reserve` says; waiting only as `SpmcRings.Ring.Publish` says. Others may run without bound, except that the tail stays within 2^32 of the loaded head between the two loads and the head until the exchange |
| `SpmcRings.Ring.Publish` | src/collection/ring_buffer/spmc_fifo/spmc_ring_buffer_fifo.rs:250-269 | the claim is released in its turn; it is left waiting only if each poll met an older claim, or a later claim between load and exchange (at most `capacity - amount` times), or failed for no reason (at most `spurious` times), and all polls but the last that many met an older claim |
| `SpmcRings.Ring.DropItems` | src/collection/ring_buffer/spmc_fifo/spmc_ring_buffer_fifo.rs:27-39 | with exclusive access exactly the unclaimed items are dropped, each once, in order |
| `Scopes.RunInv` | src/thread_pool/mod.rs:181-238 | in every reachable state the latch, the panic cell's lock, the cell and the caller agree with the jobs' lives |
| `Scopes.ScopeDrains` | src/utils/latch.rs:31-47 | the latch count is one plus the live tickets; when the scope has returned, every job it created has released its ticket |
| `Scopes.BodiesRun` | src/thread_pool/scope.rs:118-134 | bodies are skipped only in a cancelled scope, which is one whose callback unwound; when a scope has returned and its callback did not unwind, every job's body has returned or unwound, unless the job was dropped |
| `Scopes.LivesAreHistory` | src/thread_pool/scope.rs:118-134 | a job's life shows exactly whether its body returned or unwound in the run, and the scope whether its callback did |
| `Scopes.CompletionIsStable` | src/utils/latch.rs:75-78 | once the callback has ended, completion is final and no job is created afterwards |
| `Scopes.ReleasedIsFinal` | src/thread_pool/scope.rs:112-140 | after its ticket is released a job neither runs its body nor records a panic |
| `Scopes.LifeMovesForward` | src/thread_pool/scope.rs:112-140 | a job's life only moves forward, so its body runs at most once and its ticket is released once |
| `Scopes.CancelledNeverRuns` | src/thread_pool/scope.rs:122-126 | a job still queued at cancellation never runs its body; it is skipped or dropped |
| `Scopes.CellStep` | src/thread_pool/scope.rs:144-151 | giving up on a contended panic cell is safe: whenever a panic is past its attempt, the cell is full or the holder is about to fill it |
| `Scopes.ResultIsRight` | src/thread_pool/mod.rs:229-237 | the scope unwinds with its callback's panic exactly if the callback unwound in the run; otherwise with a payload of one of its jobs exactly if some job body unwound in the run, and of such a job |
| `ScopedPools.StepInv` | src/thread_pool/scope.rs:112-140 | every step of the pool or of any of its scopes keeps each job in one scope and its place in the pool in agreement with its life there |
| `ScopedPools.PoolPart` | src/thread_pool/worker.rs:49-107 | the pool's share of a joint run is a run of `Pool` |
| `ScopedPools.ScopePart` | src/thread_pool/mod.rs:181-238 | each scope's share of a joint run is a run of `Scopes` |
| `ScopedPools.ReturnedMeansGone` | src/thread_pool/mod.rs:213-238 | for any number of concurrent or nested scopes: when one has returned, none of its jobs is in any queue, inbox, deque, claim or thief's hand; each was started exactly once, or dropped and never started |
| `ScopedPools.StartedMeansRun` | src/thread_pool/scope.rs:118-134 | in a scope that has returned and did not fail, a job was taken out of the pool exactly if its body ran, and never exactly if it was dropped |
| `ScopedPools.UnderwayKeepsOpen` | src/utils/latch.rs:75-78 | while a job of the scope is anywhere in the pool, its ticket is live and the latch is not complete |
| `Contexts.RunInv` | src/thread_pool/mod.rs:181-227 | in every reachable state each thread's frames chain from its base context to its current one and really hold their host locks, and every held host lock belongs to a frame of its holder |
| `Contexts.LocksAreFrames` | src/thread_pool/mod.rs:187-238 | the host locks a thread holds are exactly those its scopes own |
| `Contexts.OutsideHoldsNothing` | src/thread_pool/mod.rs:187-238 | a thread in no scope holds no host lock |
| `Contexts.OutsiderBecomesHost` | src/thread_pool/mod.rs:186-209 | an outsider who enters a pool becomes its host exactly if no thread is inside it as its host, and then holds its lock |
| `Contexts.OneProducer` | src/thread_pool/mod.rs:185-209 | no two threads ever have the same pool and index, for any nesting of scopes over any number of pools |
| `Contexts.HostNeedsLock` | src/thread_pool/mod.rs:187-209 | a host context is in force only on the thread that holds that pool's host lock |
| `Contexts.ExitRestores` | src/thread_pool/mod.rs:224-227 | leaving a scope, the context is the one this scope saved |
| `Contexts.ScopeRestores` | src/thread_pool/mod.rs:185-227 | however scopes nest in between, a thread leaves a scope with the context, the frames and the host locks it entered it with |
| `Contexts.WorkerIsThere` | src/thread_pool/mod.rs:217-221 | inside a scope without a private helper the thread has a worker of that pool, so the lookup there cannot fail |
| `Helpers.RotationCovers` | src/thread_pool/worker.rs:69-73 | starting anywhere, one rotation visits every victim |
| `Helpers.RotationIsInjective` | src/thread_pool/worker.rs:69-73 | within one rotation no victim is visited twice |
| `Helpers.Helper.PopAndRun` | src/thread_pool/worker.rs:49-57 | a pop of the one-slot deque returns what it held; the deque is empty while the job runs and afterwards |
| `Helpers.Helper.Drain` | src/thread_pool/worker.rs:64-67 | the one-slot deque receives the first job of the shared queue exactly if the cached length and the queue offer one, and never more |
| `Helpers.Helper.StealFrom` | src/thread_pool/worker.rs:95-104 | a steal into the empty one-slot deque moves exactly one job, logged by the victim, which is then run; otherwise the victim had no item at the load, on the way from call to end, or its word has changed; the helper is stuck only behind older claims |
| `Helpers.Helper.StealAndRun` | src/thread_pool/worker.rs:62-107 | runs the shared queue's first job if it offers one; otherwise the job of the first victim of the rotation that has one: its inbox's first job, or one job its deque's log shows stolen; every victim before it, and all if nothing was run, had an inbox that offered nothing and a deque that was empty when looked at or changed under the look; no other deque's log shows a theft |
| `Helpers.Helper.RunUntil` | src/thread_pool/shared.rs:42-58 | every round runs what it must: what was run is, round by round and in order, exactly what came from the shared queue, the inboxes and, as all their logs show, the deques; at the end the one-slot deque is empty |

## Left out

- Weak memory: the machines are sequentially consistent; the choice of Acquire and Release is not modelled.
- Liveness: nothing says that a pushed job eventually runs. `run_until` stops as soon as its scope is complete and may leave jobs in the host deque, so wake-up claims are made for unclaimed jobs published with a wake only.
- WorkerQueues.Publish: gives up after `polls` polls; the code polls without bound.
- WorkerQueues.WorkerQueue.Pop: at most `spurious` exchanges fail for no reason; the code has no such bound.
- WorkerQueues.TrySteal: a destination without a free slot gives `Empty`; the debug assertion on it is not modelled.
- SpmcRings.Ring.TakeBatch: needs the two bounds of 2^32 named in its row; each is necessary, by `Spmc.EmptyBoundIsExact` for the one between the loads and by `Spmc.BoundIsExact` for the one up to the exchange. It gives up after `retries` exchanges or `polls` polls; the code has no such bound.
- SpmcRings.Ring.PushBatch: also stands for the single push; how values leave the caller's vector is not modelled.
- SleepWake.NoLostWakeup: the job is one published by a single push; for batch jobs `SleepWake.SleeperInboxEmpty` is the claim.
- Batches.Inboxes.PublishBatch: other threads' own lock steps on the inboxes are in `SleepWake`; here they are whatever changes an inbox whose guard the publisher does not hold.
- SleepWake.NoInboxDeadlock: assumes that iterators do not re-enter the pool while inbox locks are held.
- Pool.Conservation: a batch enters the inboxes job by job, and a rolled back one leaves them job by job; that exactly the failed batch is taken back is `Batches.Inboxes.PublishBatch`. The deque capacity is the same for all threads.
- Helpers.Helper.StealAndRun: the shared queue and the inboxes are inputs, as the other threads have left them at that moment; the victims' deques are real ones under interference.
- The latch, the spin lock, the lock of the queues and `scope` itself are values inside step machines, not classes: what matters there is the interleaving of several threads' steps, and the update of one field in place by itself is not captured.
- Destructors of values captured by a job: a cancelled job drops its ticket before its closure, so claims after release are about bodies and the panic cell only.
- Closure storage and vtables: a job is an opaque identity.
- Growth of counters to the machine limit: the latch count and the queue lengths are unbounded.
- `wake_all` and `push_no_wake`, which nothing in the pool calls.
- Thread priorities, spawning and joining of threads, cache padding, formatting.
- `Backoff` decides only how long a loop pauses; `FixedBuffer` holds the workers, written before they are shared; the `Steal` combinators are case distinctions; `Slots`, `Random` and `MutexCondition` are used neither by the pool nor by the rings.

# Verified models of the menagerie cores

This project models the coordination code and the sequential cores of the menagerie
libraries in Dafny and proves what they promise:

- `starling::Pool`, the resource arena with its atomic idle bits, mutex-protected inventory,
  mixed FIFO of blocked threads and asynchronous calls, and shutdown (modules `Pool*`);
- `starling::Disruptor` with its multi-producer sequencer (`Fifo`, `Generation`, `Mp*`) and its
  single-producer sequencer (`SpDisruptor`), both with the blocking wait strategy;
- `starling::EventCount` (`EventCount`, `EventCountOne`);
- the `crow::Logger` pipeline, its sink registry and level gate (`Logger*`), and the file sink
  with its packed dispatch word (`LogSink`, `FileSink`, `DispatchWord`);
- `bowerbird::SlidingWindowSorter` (`Sorter`, `SorterOrder`, `SorterPlan`);
- the `pangolin` field codec (`Codec`, `CodecRoundTrip`, `CodecDocument`).

`Basics` holds a few notions that several models share.

`dafny verify dfyconfig.toml` checks the whole project.

## How the models are built

Objects that several threads use at once are transition systems: a datatype for the shared
fields, one program counter per thread, and a step predicate that reads or writes at most one
location another thread may access without the lock (plain accesses under a lock, or owned by
the thread, are folded into the neighbouring step). Any number of threads interleave freely,
which is the sequentially consistent reading of the source. A `Run` is a sequence of such steps
from the freshly constructed object; the main results hold in every state of every run. Histories
that the source does not store (which thread claimed a sequence, which events were logged, how
often a slot was constructed) are extra fields that no step reads.

What an operation of the pool does is stated twice: for every interleaving, as what it may answer and why
(`PoolAnswers`), and for a thread that moves alone, as the whole state it leaves (`PoolAlone`, `PoolHandover`).

Code that one thread runs on its own objects is imperative Dafny: the sorter and the file sink
are classes, and the scan, sort, merge, cut and destructor loops are methods with loops. The codec,
whose overload set recurses over types, is a set of mutually recursive functions over types,
values and JSON as data.

| modules | step predicates and operations | source |
|---|---|---|
| `PoolModel` | `ClaimStep`, `ReclaimStep`, `HandoffStep`, `ReleaseStep`, `TakeStep`, `SweepStep`, `CountStep` | `common/concurrency-starling/pool/pool.hpp:72-435` |
| `PoolModel` | `TryStep`, `AcquireStep`, `RegisterStep`, `SleepStep` | `common/concurrency-starling/pool/detail/sync_acquire.hpp:16-89`, `common/concurrency-starling/pool/detail/async_acquire.hpp:209-308` |
| `PoolModel` | `CompleteStep`, `SettleStep`, `EventStep` (timer, cancellation, delivery, context shutdown) | `common/concurrency-starling/pool/detail/async_acquire.hpp:78-188`, `common/concurrency-starling/pool/detail/waiter.hpp:96-150` |
| `PoolModel` | `TokenStep`, `BeginStep` | `common/concurrency-starling/pool/detail/reserved_slot.hpp:46-128`, `common/concurrency-starling/pool/detail/borrowed.hpp:58-87` |
| `MpModel` | `ProducerStep`, `ConsumerStep` | `common/concurrency-starling/disruptor/sequencer/multi_producer_sequencer.hpp:68-199`, `common/concurrency-starling/disruptor/disruptor.hpp:76-110` |
| `SpDisruptor` | `ProducerStep`, `ConsumerStep` | `common/concurrency-starling/disruptor/sequencer/single_producer_sequencer.hpp:55-166` |
| `EventCount` | `Moves` | `common/concurrency-starling/event_count/event_count.hpp:62-149` |
| `LoggerModel` | `ThreadStep`, `ConsumerStep`, `StrandStep` | `common/logger-crow/logger/logger.cpp:10-184`, `common/logger-crow/logger/logger.hpp:124-316` |
| `Codec` | `Serialize`, `WriteField`, `Deserialize`, `ReadField` | `common/serialization-pangolin/config/config_interface.hpp:34-96`, `common/serialization-pangolin/formats/json/json.hpp:48-209` |

Where the code and a plain reading of its documentation part ways, the model follows the code,
and a theorem says exactly when the documented property holds:

- a notification of one thread is observed by every registered thread exactly if at most one
  thread ever waits or there are at most two threads (`EventCountOne.NotifyOneReliableIff`);
- a slot's 32-bit generation test is exact up to 2^32 - 1 laps ahead of the consumer and wrong
  right after (`MpTheorems.AvailableIffPublished`, `MpTheorems.BoundIsSharp`);
- a producer's wait for capacity can end, in some continuation of the run, exactly if no thread
  waits for room that an unpublished claim of its own takes up, at or below the sequence whose
  consumption the wait is for (`MpWaits.WaitEndsIff`); with one claim per thread and batches up to
  the capacity it always can (`MpWaits.FittingWaitEnds`);
- the consumer's version check misses registry changes exactly if their number since its last
  refresh is a nonzero multiple of 2^32 (`LoggerRegistry.CheckMissesIff`);
- the sorter's delivered stream is sorted exactly if at every pass each later entry has enough
  company (`SorterOrder.SortedIffTimely`), which the sizes of the calls and the entries decide before
  any call is made (`SorterPlan.Deliver`);
- a configuration comes back from JSON exactly if it validates, no empty optional is lost on the
  way, its enums fit an int and its durations are whole ticks (`CodecRoundTrip.RoundTrip`).

## Model

| member | source | states |
|---|---|---|
| PoolModel.Lowest | common/concurrency-starling/pool/pool.hpp:284-290 | the bit a claim takes is a member of the word it saw, and the lowest one |
| PoolInvariant.StepPost | common/concurrency-starling/pool/pool.hpp:326-427 | each step keeps the FIFO ordered by ticket and its members exactly the linked queued nodes, disturbs no other thread's node or critical section, and leaves the stepping thread with what its program counter promises |
| PoolOwnership.StepBalance | common/concurrency-starling/pool/pool.hpp:276-322 | whatever a step takes out of one place of a slot it puts into exactly one other, and the place agrees with the slot state |
| PoolOwnership.StepInventory | common/concurrency-starling/pool/pool.hpp:113-167 | each step keeps capacity = vacant + reserved + quarantined + usable, and one construction more than destructions exactly in the slots that hold an object |
| PoolWakeup.StepWatch | common/concurrency-starling/pool/pool.hpp:391-427 | a step that publishes a bit or stops looking for one leaves its thread still to recheck, or nobody waiting; a step that counts itself in and passes a word saw it empty; after closure a bit always has a thread that will clear it |
| PoolWaiters.StepAttend | common/concurrency-starling/pool/pool.hpp:337-363 | a step that decides a waiter's outcome leaves a thread about to hand it over, only a handoff to the head of the queue assigns a slot to a queued waiter, the one it has in hand, and a node joins the queue undecided |
| PoolTheorems.Invariant | common/concurrency-starling/pool/pool.hpp:264-269 | the full inductive invariant (protocol, ownership, inventory, no lost wakeup, shutdown, waiters, idle counts) holds in every state of every run; what each operation answers and changes is stated by PoolAnswers, PoolAlone and PoolHandover |
| PoolTheorems.Partition | common/concurrency-starling/pool/pool.hpp:113-167 | in every interleaving each index is in exactly one of: vacant list, quarantined list, reservation token, idle bit, sweep in progress, Borrowed token, assigned waiter, thread; and no other number is anywhere |
| PoolTheorems.UsableIsSize | common/concurrency-starling/pool/pool.hpp:173-176 | `usable_size_` is the number of idle and borrowed slots |
| PoolTheorems.Counters | common/concurrency-starling/pool/pool.hpp:264-269 | the counter identity holds between any two steps, and the gate equals the queue length unless the mutex owner is between counting itself in and queueing |
| PoolTheorems.IdleCountBounded | common/concurrency-starling/pool/pool.hpp:187-202 | a word-by-word idle count, whatever interleaves with it, never exceeds the usable size |
| PoolTheorems.ObjectLifetime | common/concurrency-starling/pool/detail/reserved_slot.hpp:46-128 | constructions minus destructions of a slot are 1 if it is idle, borrowed or quarantined, 0 if vacant, and for a reserved slot what its token says |
| PoolTheorems.DestructorBalances | common/concurrency-starling/pool/pool.hpp:59-70 | when nothing is outstanding the destructor finds no borrowed slot, and the slots it destroys are exactly those with one construction more than destructions |
| PoolTheorems.DestroyObjects | common/concurrency-starling/pool/pool.hpp:64-69 | the destructor's loop destroys once per idle or quarantined slot and nowhere else |
| PoolTheorems.WakeupPending | common/concurrency-starling/pool/pool.hpp:404-427 | in an open pool a queued waiter and a set idle bit imply a thread that has yet to recheck the gate or to scan that bit's word for the waiters |
| PoolTheorems.WakeupAtRest | common/concurrency-starling/pool/pool.hpp:444-449 | with no call in flight, an open pool with a queued waiter has no idle bit |
| PoolTheorems.ShutdownComplete | common/concurrency-starling/pool/pool.hpp:208-233 | with no call in flight, a closed pool has no idle bit and no queued waiter, whatever raced with shutdown |
| PoolTheorems.NoIdleAfterShutdown | common/concurrency-starling/pool/pool.hpp:300-322 | then no slot is idle: each is vacant, quarantined, held by one reservation, or out with exactly one Borrowed token or assigned waiter |
| PoolTheorems.CompletionNotLost | common/concurrency-starling/pool/detail/waiter.hpp:111-150 | with no call in flight, every sleeping thread is still queued, and every asynchronous call is queued, posted or left to its context's shutdown |
| PoolHistory.OutcomeOnce | common/concurrency-starling/pool/pool.hpp:326-333 | over whole runs a waiter leaves `queued` once: outcome, slot, ticket and consumption never change back, and closure is final |
| PoolHistory.HandoffToOldest | common/concurrency-starling/pool/pool.hpp:367-389 | a queued waiter that is assigned a slot was the head of the queue, every other queued waiter came later, the pool was open, and the thread handing over that slot had found the waiter unexpired in the same critical section |
| PoolHistory.AssignedConsumedOnce | common/concurrency-starling/pool/detail/async_acquire.hpp:115-188 | an assigned slot leaves its waiter in one step, to exactly one of a Borrowed token and a thread returning it |
| PoolHistory.NoLateAcquire | common/concurrency-starling/pool/pool.hpp:72-87 | after closure the queue only shrinks, and a thread outside the pool at closure never again scans, claims or queues |
| PoolHistory.StepRefused | common/concurrency-starling/pool/pool.hpp:141-144 | a call that starts in a closed pool is turned away touching nothing but its answer |
| PoolHistory.DrainRemovesOne | common/concurrency-starling/pool/pool.hpp:224-231 | each round of the shutdown drain removes exactly one waiter |
| PoolHistory.DrainEnds | common/concurrency-starling/pool/pool.hpp:208-233 | from closure on, over any run, the rounds of the drain and the waiters still queued are together at most the waiters queued at closure |
| PoolHistory.AssertsHold | common/concurrency-starling/pool/pool.hpp:282-322 | the source's assertions about slot and waiter states hold wherever they are made, and a thread being notified has not returned |
| PoolHistory.WaiterSafety | common/concurrency-starling/pool/detail/waiter.hpp:132-150 | no waiter, blocked or asynchronous, times out before its deadline or is told of a shutdown of an open pool, and a context past its prepare phase has no queued waiter |
| PoolAnswers.AcquireAnswers | common/concurrency-starling/pool/detail/sync_acquire.hpp:16-89 | in every run, whatever interleaves: a call of acquire returns by a step of its own, with one token more exactly if it answers with a slot; a slot only if it was granted during the call at a moment the deadline had not passed, by the caller owning it or by a handoff that found the call at the head of the open queue; a timeout only past the deadline; a shutdown only in a closed pool; nothing else. So a call without a token ended in a closed pool or past its deadline |
| PoolAnswers.AcquireHoldsBack | common/concurrency-starling/pool/detail/sync_acquire.hpp:28-58 | until it returns, no step of the call adds or removes a token |
| PoolAnswers.TryAnswers | common/concurrency-starling/pool/pool.hpp:72-87 | in every run a call of try_acquire returns one token more exactly if it answers with a slot, which it owned and rechecked in the open pool; it answers exhausted only in an open pool of which it saw every word empty during the call, and shutdown only in a closed one |
| PoolAnswers.ScanIsExhaustive | common/concurrency-starling/pool/pool.hpp:276-298 | a scan, of whichever operation, gives up only after it saw every word empty, each at some moment since the thread entered: so acquire joins the queue only after the strong scan did |
| PoolAnswers.CountSaw | common/concurrency-starling/pool/pool.hpp:429-435 | whatever interleaves, the idle count of stats has counted a slot exactly if it was idle when its word was read, and counts each once |
| PoolAlone.OneTokenMore | common/concurrency-starling/pool/detail/sync_acquire.hpp:28-58 | from every reachable state with the mutex free, the pool open and a bit set, a thread at the start of try_acquire, of acquire in time, or of a blocking call's registration (the strong path), moving alone, returns with one token more, for a slot that was idle |
| PoolAlone.TryAlone | common/concurrency-starling/pool/pool.hpp:72-87 | undisturbed, try_acquire lends the lowest idle slot of an open pool, answers exhausted if there is none and shutdown if it is closed, and changes nothing else |
| PoolAlone.AcquireAlone | common/concurrency-starling/pool/detail/sync_acquire.hpp:22-42 | undisturbed, acquire answers shutdown in a closed pool, else timeout past the deadline, else lends the lowest idle slot; only without one does it make a waiter |
| PoolAlone.RegisterAlone | common/concurrency-starling/pool/detail/sync_acquire.hpp:43-60 | undisturbed, registration answers or posts shutdown in a closed pool, else a timeout past the deadline, else gives the call the lowest idle slot, else leaves it last in the queue with the gate raised |
| PoolAlone.StrongAlone | common/concurrency-starling/pool/detail/async_acquire.hpp:259-288 | the same from the gate on, for blocked and asynchronous calls |
| PoolAlone.ReturnsOnce | common/concurrency-starling/pool/pool.hpp:72-427 | an operation that moves alone can return in one state only, so these outcomes are its only ones |
| PoolAlone.SpuriousRetries | common/concurrency-starling/pool/pool.hpp:285-295 | a compare-exchange that fails spuriously is tried again, and while nobody else moves the failure changes nothing |
| PoolHandover.HandoffAlone | common/concurrency-starling/pool/pool.hpp:367-389 | undisturbed, a slot handed over goes to the oldest waiter whose deadline has not passed, the waiters before it time out and are told, without such a waiter it becomes idle, and in a closed pool it is quarantined; nothing else changes |
| PoolHandover.ServeAlone | common/concurrency-starling/pool/pool.hpp:391-402 | undisturbed, serve_waiters_locked serves the waiters in order, each getting a slot or, past its deadline, a timeout, until none is left or no slot is idle |
| PoolHandover.ReclaimAlone | common/concurrency-starling/pool/pool.hpp:300-322 | a publisher that finds the pool closed takes its slot back and quarantines it, unless the sweep has it |
| PoolHandover.ReleaseAlone | common/concurrency-starling/pool/pool.hpp:404-427 | the same of release, whose fast path does not take the mutex |
| PoolHandover.PublishAlone | common/concurrency-starling/pool/detail/reserved_slot.hpp:78-96 | publish is refused by a closed pool and otherwise hands the slot over |
| PoolHandover.QuarantineAlone | common/concurrency-starling/pool/detail/borrowed.hpp:57-67 | quarantining a borrowed slot sets it aside, whether the pool is open or not |
| PoolHandover.TakeAlone | common/concurrency-starling/pool/pool.hpp:141-167 | undisturbed, try_take_idle takes the lowest idle slot of an open pool that nobody waits for, and otherwise nothing |
| PoolHandover.WakeAlone | common/concurrency-starling/pool/detail/sync_acquire.hpp:61-89 | a woken thread returns what was decided for it, gives up exactly if it is still queued past its deadline, and otherwise sleeps on |
| PoolHandover.SelectAlone | common/concurrency-starling/pool/detail/async_acquire.hpp:126-140 | a cancellation or timer decides a waiter that is still undecided, unlinks and posts it if it is queued, and leaves a decided one alone |
| PoolHandover.ShutdownAlone | common/concurrency-starling/pool/pool.hpp:208-233 | undisturbed, shutdown quarantines every idle slot and empties the queue, each waiter being told timeout exactly if its deadline has passed and shutdown otherwise; a second shutdown does nothing |
| PoolHandover.CountAlone | common/concurrency-starling/pool/pool.hpp:187-202 | undisturbed, stats counts exactly the idle slots |
| PoolHandover.PrepareAlone | common/concurrency-starling/pool/detail/async_acquire.hpp:91-102 | the prepare phase of a context's shutdown cancels and unlinks exactly that context's registered queued waiters, the others keeping their order |
| PoolHandover.ReserveExact | common/concurrency-starling/pool/pool.hpp:113-139 | try_reserve and try_take_quarantined get a slot exactly if the pool is open and some slot is vacant, or quarantined |
| PoolHandover.ReservationExact | common/concurrency-starling/pool/detail/reserved_slot.hpp:46-128 | building, destroying and rolling back move the token accordingly, and rollback destroys the object exactly if there is one |
| Generation.MaskAndShift | common/concurrency-starling/disruptor/ring_buffer/ring_buffer.hpp:43-49 | masking with a power of two minus one is reduction modulo it and shifting is division by it |
| Generation.NextLapDiffers | common/concurrency-starling/disruptor/sequencer/multi_producer_sequencer.hpp:179-181 | the truncated generation of a sequence differs from that of the lap before |
| MpInvariant.ScanTest | common/concurrency-starling/disruptor/sequencer/multi_producer_sequencer.hpp:168-177 | at the position a scan from consumed + 1 has reached, the generation matches exactly if that sequence was published, however far claims ran ahead |
| MpInvariant.Invariant | common/concurrency-starling/disruptor/sequencer/multi_producer_sequencer.hpp:68-199 | in every state every claimed sequence is published or pending with its one owner, each slot of the window holds this lap if published and the lap before otherwise, and a parked consumer with a claimed target is owed a signal |
| MpTheorems.RefinesFifo | common/concurrency-starling/disruptor/disruptor.hpp:76-110 | every run is a run of the queue: it starts empty, each step enqueues values, takes the oldest, or changes nothing, and taken plus waiting values are a prefix of the claimed ones |
| MpTheorems.PulledInOrder | common/concurrency-starling/disruptor/disruptor.hpp:94-110 | the pulled values are the claimed values in sequence order, each once, and only published ones |
| MpTheorems.UnconsumedIntact | common/concurrency-starling/disruptor/sequencer/multi_producer_sequencer.hpp:188-199 | a published, unconsumed sequence still has its value in its slot |
| MpTheorems.CachedFrontier | common/concurrency-starling/disruptor/disruptor.hpp:97-106 | the cached frontier and the consumed position never exceed the true contiguous published frontier |
| MpTheorems.AvailabilityExact | common/concurrency-starling/disruptor/sequencer/multi_producer_sequencer.hpp:116-120 | above the consumed position the test succeeds exactly if the slot's content is a multiple of 2^32 laps behind, and the sequence was published exactly if it is none behind |
| MpTheorems.AvailableIffPublished | common/concurrency-starling/disruptor/sequencer/multi_producer_sequencer.hpp:116-120 | within (2^32 - 1) * capacity of the consumed position the test is exact |
| MpTheorems.BoundIsSharp | common/concurrency-starling/disruptor/sequencer/multi_producer_sequencer.hpp:116-120 | one sequence beyond that bound, in every state and for every capacity, nothing is published and the test succeeds exactly if the next sequence to be consumed is unpublished |
| MpTheorems.AvailabilityWraps | common/concurrency-starling/disruptor/sequencer/multi_producer_sequencer.hpp:179-181 | such a state is reached on every ring: a single batch of claims makes its last sequence look available although nothing was ever published |
| MpTheorems.ScanPublished | common/concurrency-starling/disruptor/sequencer/multi_producer_sequencer.hpp:168-177 | the scan loop returns the end of the matching stretch, or the claimed bound when it starts beyond it |
| MpTheorems.ScanIsFrontier | common/concurrency-starling/disruptor/sequencer/multi_producer_sequencer.hpp:110-114 | from consumed + 1 that is exactly the highest gap-free published sequence within the bound |
| MpProgress.Progress | common/concurrency-starling/disruptor/sequencer/multi_producer_sequencer.hpp:68-107 | with threads that may hold several claims but are inside one call at a time: while a claim is unconsumed and no thread waits for room that the next sequence, unpublished with that same thread, takes up, the consumer or the thread that claimed the next sequence can take a step |
| MpProgress.ConsumerGoesOn | common/concurrency-starling/disruptor/sequencer/multi_producer_sequencer.hpp:138-144 | in every state the consumer can go on unless it sleeps without a signal: a scan that finds nothing published waits again |
| MpProgress.BlockedForever | common/concurrency-starling/disruptor/sequencer/multi_producer_sequencer.hpp:188-199 | a thread that waits for room its own unpublished claim takes up is in the same wait in every later state, and that claim is never published |
| MpWaits.StuckForever | common/concurrency-starling/disruptor/sequencer/multi_producer_sequencer.hpp:188-199 | so is every producer, of whatever thread, whose wait is for the consumption of that claim or a later one |
| MpWaits.WaitEndsIff | common/concurrency-starling/disruptor/sequencer/multi_producer_sequencer.hpp:188-199 | some continuation of the run takes a waiting producer past its wait if and only if no thread blocks itself at or below the sequence that has to be consumed for it |
| MpWaits.SelfBlocking | common/concurrency-starling/disruptor/sequencer/multi_producer_sequencer.hpp:68-107 | such a block is reached on every ring, with fitting batches, by any thread that claims again before publishing; a producer of another thread that holds nothing is stuck behind it |
| MpWaits.FittingProgress | common/concurrency-starling/disruptor/sequencer/multi_producer_sequencer.hpp:68-107 | when every producer is its own thread and batches fit the ring, while a claim is unconsumed the consumer or the owner of the next sequence can take a step |
| MpWaits.FittingWaitEnds | common/concurrency-starling/disruptor/sequencer/multi_producer_sequencer.hpp:188-199 | and every wait for capacity can end |
| MpTheorems.OversizedNeverPasses | common/concurrency-starling/disruptor/sequencer/multi_producer_sequencer.hpp:188-199 | a batch larger than the ring never gets past the capacity wait |
| MpTheorems.ParkedHasSignal | common/concurrency-starling/disruptor/wait_strategies/blocking.hpp:67-93 | a consumer parked although its target is claimed has the owner's signal still coming |
| MpTheorems.ClaimsBounded | common/concurrency-starling/disruptor/sequencer/multi_producer_sequencer.hpp:155-165 | with fitting batches, claims run at most one ring per producer past the window |
| MpTheorems.GenerationsSuffice | common/concurrency-starling/disruptor/sequencer/multi_producer_sequencer.hpp:203-205 | so with fitting batches and fewer than 2^32 - 1 producers the test is exact for every claimed sequence |
| MpTheorems.TryChecks | common/concurrency-starling/disruptor/sequencer/multi_producer_sequencer.hpp:82-93 | try_next goes on to its exchange exactly if the sequence after the one it read fits the ring, and neither way changes anything else |
| MpTheorems.TryExchanges | common/concurrency-starling/disruptor/sequencer/multi_producer_sequencer.hpp:82-93 | the exchange claims exactly one sequence if nobody claimed since, and else nothing |
| MpTheorems.TryNextAlone | common/concurrency-starling/disruptor/sequencer/multi_producer_sequencer.hpp:82-93 | undisturbed, try_next claims if and only if fewer than the capacity are claimed and unconsumed |
| MpTheorems.NextClaims | common/concurrency-starling/disruptor/sequencer/multi_producer_sequencer.hpp:68-79 | next and next_batch claim their values at once at the end of the sequence order |
| MpTheorems.PublishedByThen | common/concurrency-starling/disruptor/sequencer/multi_producer_sequencer.hpp:97-107 | when a publish is about to signal, all its sequences are published |
| SpDisruptor.CapacityLimitExact | common/concurrency-starling/disruptor/sequencer/single_producer_sequencer.hpp:160-164 | the wrapping unsigned computation equals min(consumed + capacity, INT64_MAX), including consumed = -1 |
| SpDisruptor.Invariant | common/concurrency-starling/disruptor/sequencer/single_producer_sequencer.hpp:55-99 | positions, slot contents, pulled values and owed signals are consistent in every state, with all claim operations mixed; what each operation changes is stated by TryNextExact, NextExact and PublishExact |
| SpDisruptor.RefinesFifo | common/concurrency-starling/disruptor/sequencer/single_producer_sequencer.hpp:21-35 | every run is a run of the same queue, whose values are a prefix of the claimed ones |
| SpDisruptor.ClaimsFit | common/concurrency-starling/disruptor/sequencer/single_producer_sequencer.hpp:146-166 | consumed <= published <= claimed <= consumed + capacity, and the cached limit never exceeds consumed + capacity |
| SpDisruptor.UnconsumedIntact | common/concurrency-starling/disruptor/sequencer/single_producer_sequencer.hpp:168-173 | a published, unconsumed sequence still has its value in its slot |
| SpDisruptor.ParkedHasSignal | common/concurrency-starling/disruptor/wait_strategies/blocking.hpp:67-93 | a consumer parked although its target is published has a signal coming |
| SpDisruptor.TryNextExact | common/concurrency-starling/disruptor/sequencer/single_producer_sequencer.hpp:72-79 | in every run try_next claims one sequence exactly if fewer than the capacity are claimed and unconsumed, and otherwise changes nothing |
| SpDisruptor.NextExact | common/concurrency-starling/disruptor/sequencer/single_producer_sequencer.hpp:55-69 | next and next_batch claim all their sequences exactly if these and the unconsumed ones together fit the ring, whatever the cached limit, and otherwise go on waiting; a new limit is the capped capacity limit |
| SpDisruptor.PublishExact | common/concurrency-starling/disruptor/sequencer/single_producer_sequencer.hpp:83-91 | publication lets exactly the claimed values up to the published sequence into the queue, and no other step adds to it |
| SpDisruptor.Progress | common/concurrency-starling/disruptor/sequencer/single_producer_sequencer.hpp:121-127 | in every state the consumer can go on, unless it sleeps without a signal, and then the producer can wake it if something is published and unconsumed |
| SpDisruptor.ProducerCan | common/concurrency-starling/disruptor/sequencer/single_producer_sequencer.hpp:83-91 | a producer can write any claimed, unpublished sequence, its slot then holding the claimed value, and publish up to one below which all are written |
| SpDisruptor.ProducerMayClaim | common/concurrency-starling/disruptor/sequencer/single_producer_sequencer.hpp:55-79 | the claim operations can be called exactly as long as the sequence numbers last |
| EventCount.NotifyAllNeverMissed | common/concurrency-starling/event_count/event_count.hpp:128-149 | a thread parked across a notify_all has that notification's wake still coming |
| EventCount.WordExact | common/concurrency-starling/event_count/event_count.hpp:62-70 | the epoch half is the number of notifications modulo 2^32 and the count half the number of registered threads: neither disturbs the other |
| EventCount.SkipIsSound | common/concurrency-starling/event_count/event_count.hpp:144-149 | when a notification reads a waiter count of zero nobody is parked or on the way |
| EventCount.ParksIffQuiet | common/concurrency-starling/event_count/event_count.hpp:128-142 | the kernel's comparison parks a thread exactly if the notifications since its registration are a multiple of 2^32, which for fewer than 2^32 means none |
| EventCount.NotifyExact | common/concurrency-starling/event_count/event_count.hpp:144-149 | a notification advances the epoch by one, keeps the count, and goes on to wake one or all exactly if some thread is registered |
| EventCount.WaitExact | common/concurrency-starling/event_count/event_count.hpp:128-142 | prepare_wait takes the current epoch as key; a wait goes to sleep exactly if its deadline has not passed and the notifications since are a multiple of 2^32 |
| EventCountOne.WakeOneReaches | common/concurrency-starling/event_count/event_count.hpp:78-81 | a pending wake of one thread is certain to release a given parked thread exactly if no other thread is parked |
| EventCountOne.NotifyOneReliableIff | common/concurrency-starling/event_count/event_count.hpp:46-49 | among n threads of which a given set may wait, every notification, of one or of all, is observed in every run exactly if at most one of them can wait or n is at most 2 |
| EventCountOne.SoleWaiterObserves | common/concurrency-starling/event_count/event_count.hpp:46-49 | a thread that is the only one ever to register has the wake of every later notification coming while it is parked |
| EventCountOne.TwoWaiters | common/concurrency-starling/event_count/event_count.hpp:78-81 | for any two waiters and a notifier there is a run that ends with the first parked on a past epoch and no wake coming |
| EventCountOne.OneWaiter | common/concurrency-starling/event_count/event_count.hpp:144-149 | so is there one in which the notification read a waiter count of 1: a thread that registered after it took the wake |
| DispatchWord.PackUnpack | common/logger-crow/sink/detail/sink_status.hpp:51-60 | unpacking a packed word gives status and threshold back, and the deadline exactly when it fits 48 bits |
| DispatchWord.Layout | common/logger-crow/sink/detail/sink_status.hpp:51-60 | the deadline stands from bit 16 on, the status in bits 8 to 15 as 0, 1 or 2, the threshold in bits 0 to 7 |
| LogSink.SelectPartition | common/logger-crow/sink/file/file_sink.hpp:107-111 | the filter sends every event to exactly one side; which side is stated by BookHonest and FilterHonoured |
| LogSink.BookHonest | common/logger-crow/sink/detail/prefix_filter.hpp:50-64 | booking a batch writes only events the level and the prefix rules let pass and rejects only events they exclude, the rules being stated case by case |
| LoggerFilter.RulesInvariant | common/logger-crow/sink/file/file_sink.hpp:107-111 | so do all steps of the pipeline, for every sink with a fixed threshold in every run |
| LoggerFilter.FilterHonoured | common/logger-crow/sink/detail/prefix_filter.hpp:50-64 | in every state of every run such a sink has written no event below its threshold, no blocked empty prefix, under an allowlist only listed and under a denylist no listed prefixes; and it has rejected one at or above the threshold only for one of these reasons |
| LogSink.Delivered | common/logger-crow/sink/file/file_sink.hpp:91-96 | a batch goes through up to the first accepted event whose write fails |
| LogSink.BookTotal | common/logger-crow/sink/file/file_sink.hpp:86-98 | booking a batch accounts for each of its events once, and the lost ones are those from the failure on |
| FileSink.BackoffSchedule | common/logger-crow/sink/detail/sink_status.hpp:62-79 | the first retry is immediate, the second waits a second, and from then on the wait doubles up to a minute |
| FileSink.FileSink.constructor | common/logger-crow/sink/file/file_sink.hpp:44-48 | a new sink accounts for nothing; it starts Healthy on its stream if the file opens, else Dead with the first retry due at once |
| FileSink.FileSink.SetStatus | common/logger-crow/sink/interface/sink_interface.hpp:122-130 | a status change keeps threshold and deadline |
| FileSink.FileSink.Fail | common/logger-crow/sink/file/file_sink.hpp:187-191 | a failure sets the status, counts, moves the deadline out by the backoff for the failures so far, and touches no stream |
| FileSink.FileSink.OpenStream | common/logger-crow/sink/file/file_sink.hpp:151-185 | a failed open leaves the current stream in place and counts; a successful one makes the sink Healthy on the new stream with its size and no failures |
| FileSink.FileSink.RotateNow | common/logger-crow/sink/file/file_sink.hpp:206-225 | rotation happens exactly from the size limit on, never kills a sink, and then leaves it Healthy on the new file, Degraded on the old one with the next deadline, or as it was if the name does not change; below the limit it does nothing |
| FileSink.FileSink.RotateIfNeeded | common/logger-crow/sink/file/file_sink.hpp:193-204 | the same, except that a Degraded sink does not retry before its deadline |
| FileSink.FileSink.WriteGuarded | common/logger-crow/sink/file/file_sink.hpp:227-250 | a filtered event changes nothing and succeeds; a written one adds its bytes; a write that throws kills the sink and sets its deadline |
| FileSink.FileSink.WriteBatch | common/logger-crow/sink/file/file_sink.hpp:91-96 | the write loop stops exactly at the first failing write, has added the bytes of the events written, and only then is the sink Dead |
| FileSink.FileSink.ProcessBatch | common/logger-crow/sink/file/file_sink.hpp:86-98 | a Dead sink loses the batch; otherwise it is booked up to the first failing write, and rotation follows if none failed; seen events are always written, rejected or lost, once each, and the counter is the number lost |
| FileSink.FileSink.Process | common/logger-crow/sink/file/file_sink.hpp:74-84 | the same for a single event |
| FileSink.FileSink.Maintain | common/logger-crow/sink/file/file_sink.hpp:58-72 | nothing before the deadline; then a Dead sink makes one attempt to open its file and revives exactly if it opens, and a live one rotates if due and stays alive |
| LoggerRegistry.CommittedInvariant | common/logger-crow/logger/logger.hpp:268-278 | in every run a sink of any table has been in every table since the commit that added it, each commit is bumped at most once and after it was made, and the consumer counts only bumps that happened |
| LoggerRegistry.RegistryInvariant | common/logger-crow/logger/logger.cpp:115-127 | unless a version check misses changes, the consumer's table covers the bumps its version counts, in every state |
| LoggerRegistry.CheckMissesIff | common/logger-crow/logger/logger.cpp:163-170 | a version check goes on with the table it has although there were changes exactly if their number is a nonzero multiple of 2^32 |
| LoggerRegistry.InTableIff | common/logger-crow/logger/logger.hpp:268-278 | a sink is in a table exactly from the commit that added it until a commit removed it, for good |
| LoggerRegistry.AddAppends | common/logger-crow/logger/logger.cpp:10-19 | add_sink puts one new sink, as given, at the end of the table |
| LoggerRegistry.RemoveTakesOut | common/logger-crow/logger/logger.cpp:21-35 | remove_sink takes exactly the given sink out, keeping the others in order, and does nothing for one that is not registered |
| LoggerRegistry.DispatchIsFresh | common/logger-crow/logger/logger.cpp:163-170 | at every dispatch the consumer's table lacks each sink whose remove_sink returned before its version check, and holds each whose add_sink did unless a commit up to that table removed it |
| LoggerGate.GateIsMinimum | common/logger-crow/logger/logger.hpp:283-305 | with fixed thresholds the gate equals the minimum over the current table whenever the registry lock is free, in every run, despite concurrent mutators and sweeps |
| LoggerGate.GateAdmits | common/logger-crow/logger/logger.hpp:307-316 | once a registration returned, the gate never exceeds that sink's fixed threshold, even if other thresholds change |
| LoggerPipeline.OfferFaithful | common/logger-crow/logger/logger.cpp:171-181 | skipping a batch by its highest level, like posting it, keeps "written plus waiting, filtered" equal to "offered, filtered" |
| LoggerPipeline.SinkAccounts | common/logger-crow/logger/logger.cpp:171-181 | in every state the events that reached a sink are written, rejected, undelivered or waiting, each once, through failures, deaths and recoveries |
| LoggerPipeline.AgreesWithNaive | common/logger-crow/logger/logger.cpp:115-184 | for a sink registered before logging, with fixed threshold, never removed and losing nothing: written plus waiting, filtered, equals the drained ring filtered by should_log, in order; and no event the gate dropped was wanted |
| LoggerShutdown.FlushInvariant | common/logger-crow/logger/logger.cpp:88-106 | in every state the flush of a shutdown is on a strand exactly while it was posted there and not counted down, at most once, with no batch behind it |
| LoggerShutdown.WaitIsExact | common/logger-crow/logger/logger.cpp:92-106 | once all flushes are posted, the wait ends exactly when none is left on any strand |
| LoggerShutdown.NothingWaits | common/logger-crow/logger/logger.cpp:88-106 | when shutdown() returns the consumer has stopped and no event waits for a sink that was registered before logging and not removed |
| LoggerShutdown.CompleteAtShutdown | common/logger-crow/logger/logger.cpp:66-114 | when shutdown() returns, such a sink with fixed threshold that lost nothing has written exactly the accepted events before the first sentinel, in order |
| LoggerShutdown.WritesWhatWasLogged | common/logger-crow/logger/logger.hpp:124-156 | if moreover nothing follows the sentinel and no call is about to publish, it has written every logged event it accepts, once, and no other |
| LoggerCalls.LogReturns | common/logger-crow/logger/logger.hpp:122-156 | in every run a call to log returns at once, its event dropped, exactly if the level is below the gate; else by the step that puts its event at the end of the ring |
| LoggerCalls.ShutdownReturns | common/logger-crow/logger/logger.cpp:66-114 | in every run a call to shutdown returns at once, changing nothing, if the consumer has met a sentinel; else it has put one into the ring and returns by the step that ends its wait for the sinks |
| LoggerPipeline.DrainedAccounted | common/logger-crow/logger/logger.cpp:138-182 | for a sink registered throughout, the drained events are its written, rejected, undelivered and waiting ones, threshold-skipped batches included |
| LoggerHealth.LossNeedsDeath | common/logger-crow/logger/logger.cpp:171-181 | in every step of every run a sink loses events only if it is Dead or dies, writes only if it is alive, and is revived only by maintenance |
| LoggerHealth.AliveLosesNothing | common/logger-crow/logger/logger.cpp:171-181 | a sink that has not been Dead in any state of a run has lost nothing |
| LoggerHealth.StrandExact | common/logger-crow/sink/file/file_sink.hpp:58-98 | a batch on a Dead sink is lost whole; on a live one the filter decides about every event, unless a write of an accepted event fails, which kills the sink and loses the batch from there on; maintenance kills no live sink |
| Sorter.UpperBound | common/algorithms-bowerbird/sliding_window_sorter/sliding_window_sorter.hpp:280-283 | the position splits the sorted prefix into elements not above and elements above the key |
| Sorter.InsertionSort | common/algorithms-bowerbird/sliding_window_sorter/sliding_window_sorter.hpp:277-286 | the result is a sorted permutation, for any strict weak order |
| Sorter.StandardSort | common/algorithms-bowerbird/sliding_window_sorter/sliding_window_sorter.hpp:176-178 | above the merge threshold the batch is sorted by some sorted permutation of it |
| Sorter.Merge | common/algorithms-bowerbird/sliding_window_sorter/sliding_window_sorter.hpp:208-235 | merging two sorted ranges gives a sorted permutation of both |
| Sorter.OutputSize | common/algorithms-bowerbird/sliding_window_sorter/sliding_window_sorter.hpp:237-247 | a flush delivers everything; otherwise a pass delivers nothing below the window size, from it on at least a batch (or all there is), and more than a batch only down to exactly the window size; what it leaves fits the window |
| Sorter.CutWindow | common/algorithms-bowerbird/sliding_window_sorter/sliding_window_sorter.hpp:249-275 | output and remaining window are the two parts of the merged entries: trimming discards nothing |
| Sorter.PassConserves | common/algorithms-bowerbird/sliding_window_sorter/sliding_window_sorter.hpp:139-167 | after any number of passes, delivered plus window is a permutation of what was merged |
| Sorter.PassDelivers | common/algorithms-bowerbird/sliding_window_sorter/sliding_window_sorter.hpp:139-167 | of every pass of every history: how many entries it merges, delivers and keeps, in terms of its size, the window and the batch, and that what it delivers is sorted and not above what it keeps |
| Sorter.SlidingWindowSorter.AddEntries | common/algorithms-bowerbird/sliding_window_sorter/sliding_window_sorter.hpp:74-87 | entries are appended to the pending ones, and a pass runs exactly when the batch size is reached |
| Sorter.SlidingWindowSorter.AddEntry | common/algorithms-bowerbird/sliding_window_sorter/sliding_window_sorter.hpp:89-96 | the same for one entry |
| Sorter.SlidingWindowSorter.Flush | common/algorithms-bowerbird/sliding_window_sorter/sliding_window_sorter.hpp:98-103 | everything pending and windowed is delivered |
| Sorter.SlidingWindowSorter.Reconfigure | common/algorithms-bowerbird/sliding_window_sorter/sliding_window_sorter.hpp:123-132 | everything is delivered under the old configuration, then the new one starts empty |
| Sorter.SlidingWindowSorter.ProcessBatch | common/algorithms-bowerbird/sliding_window_sorter/sliding_window_sorter.hpp:139-167 | a pass merges window and pending entries into a sorted permutation, delivers exactly the output count from its front and keeps the rest |
| Sorter.SlidingWindowSorter.SortAndMerge | common/algorithms-bowerbird/sliding_window_sorter/sliding_window_sorter.hpp:169-201 | with sorting on the merged entries are a sorted permutation of window and pending, otherwise their concatenation |
| Sorter.SlidingWindowSorter.Conserved | common/algorithms-bowerbird/sliding_window_sorter/sliding_window_sorter.hpp:74-132 | over every sequence of calls, delivered + window + pending is a permutation of the input, and `total_processed_` is the delivered count |
| Sorter.SlidingWindowSorter.WindowSorted | common/algorithms-bowerbird/sliding_window_sorter/sliding_window_sorter.hpp:38-43 | after every call the window is within its size, and sorted when sorting is on |
| SorterOrder.SortedIffTimely | common/algorithms-bowerbird/sliding_window_sorter/sliding_window_sorter.hpp:139-167 | once everything is delivered, the stream is sorted if and only if at every pass each later entry has at least as many merged entries not above it as were delivered, whatever the window, batch and flushes |
| SorterPlan.Feed | common/algorithms-bowerbird/sliding_window_sorter/sliding_window_sorter.hpp:74-103 | after any sequence of calls the merged and delivered counts of every pass are those of a plan computed from window size, batch size and the sizes of the calls |
| SorterPlan.Deliver | common/algorithms-bowerbird/sliding_window_sorter/sliding_window_sorter.hpp:74-103 | given some calls and then flushed, the sorter has delivered a sorted stream if and only if that plan is timely for the entries, which can be told before the calls |
| SorterOrder.LateEntriesHaveCompany | common/algorithms-bowerbird/sliding_window_sorter/sliding_window_sorter.hpp:237-247 | if no entry arrives more than `slack` positions after its rank, all but `slack` of the first m entries are not above any later one |
| SorterOrder.NearlyIsTimely | common/algorithms-bowerbird/sliding_window_sorter/sliding_window_sorter.hpp:237-247 | a stream whose entries arrive at most window - batch positions after their rank, flushed only at the end, meets that condition |
| SorterOrder.NearlySortedComesOutSorted | common/algorithms-bowerbird/sliding_window_sorter/sliding_window_sorter.hpp:139-167 | if every entry arrives at most window - batch positions after its rank and flush comes only at the end, the delivered stream is globally sorted |
| SorterOrder.DeliversSorted | common/algorithms-bowerbird/sliding_window_sorter/sliding_window_sorter.hpp:38-43 | the same of the object, which after a flush has delivered a sorted permutation of its input |
| SorterOrder.LateStreamRanks | common/algorithms-bowerbird/sliding_window_sorter/sliding_window_sorter.hpp:237-247 | for every window and batch there is a stream with one entry exactly window - batch + 1 positions late and no entry later |
| SorterOrder.OneTooLate | common/algorithms-bowerbird/sliding_window_sorter/sliding_window_sorter.hpp:237-247 | the sorter, given that stream in two calls and flushed, delivers it out of order, for every 1 <= batch <= window |
| CodecRoundTrip.WriteIsPut | common/serialization-pangolin/formats/json/json.hpp:60-92 | writing a field adds one member that does not depend on the object, or nothing, and nothing only for an optional |
| CodecRoundTrip.FieldLookup | common/serialization-pangolin/config/config_interface.hpp:58-76 | with distinct keys, the members of a serialized object are exactly those its written fields contribute |
| CodecRoundTrip.WritesNothingIff | common/serialization-pangolin/formats/json/json.hpp:60-67 | a field writes no member exactly if its value is an empty optional or holds one |
| CodecRoundTrip.FieldRoundTrip | common/serialization-pangolin/formats/json/json.hpp:124-209 | reading the member a field of any type wrote gives the reset value, or fails validation if that does not validate, and something else exactly if a carried empty optional, a wide enum value or a fraction of a tick is lost within it |
| CodecRoundTrip.CastBack | common/serialization-pangolin/formats/json/json.hpp:53-58 | an enum, written as an int and read back into its underlying type, keeps its value exactly if that has at most 32 bits or the value is the sign extension of an int |
| CodecRoundTrip.WideEnumLost | common/serialization-pangolin/formats/json/json.hpp:53-58 | an enum over 64 bits with value 2^32 comes back as 0 |
| CodecRoundTrip.TicksBack | common/serialization-pangolin/formats/json/json.hpp:47-51 | a duration with an integer representation keeps its count |
| CodecRoundTrip.WholeTicks | common/serialization-pangolin/formats/json/json.hpp:47-51 | one with a floating-point representation keeps it exactly if it is a whole number |
| CodecRoundTrip.HalfTickLost | common/serialization-pangolin/formats/json/json.hpp:47-51 | one and a half ticks come back as one |
| CodecRoundTrip.VanishingElement | common/serialization-pangolin/formats/json/json.hpp:79-92 | an empty optional in a vector is written as null and reads back as something present, never as itself |
| CodecRoundTrip.FieldComesBack | common/serialization-pangolin/config/config_interface.hpp:58-96 | a field that is not both written and read, or that is an empty optional, comes back as its declared default; any other as its reset value unless it loses something |
| CodecRoundTrip.RecordWrites | common/serialization-pangolin/config/config_interface.hpp:34-43 | serialization succeeds exactly if every configuration that is written validates, at any depth |
| CodecRoundTrip.RoundTrip | common/serialization-pangolin/config/config_interface.hpp:34-96 | for every schema with distinct keys: deserialize after serialize gives the configuration back with every field not both written and read, at any depth, at its default, if and only if both validate, no carried vector element is an empty optional, every carried field that is one equals its default, carried enums fit an int (up to the sign extension CastBack states) and carried durations are whole ticks; if only validation fails it says so; the JSON in between is stated by CodecDocument |
| CodecRoundTrip.PlainFieldsSurvive | common/serialization-pangolin/config/config_interface.hpp:34-96 | schemas with no optional directly in a vector or an optional, empty defaults, enums of at most 32 bits and integer durations lose nothing |
| CodecDocument.DocumentShows | common/serialization-pangolin/formats/json/json.hpp:44-92 | the document of a configuration: each written field stands under its key as JSON of the kind, and with the value, its type prescribes (a duration as its whole ticks, an enum as an int, an optional as its content or nothing, a vector element by element, a record as its own document), and no other key |
| CodecDocument.ScalarDepicted | common/serialization-pangolin/formats/json/json.cpp:7-45 | a scalar is written as the JSON of its kind and value: text, number, boolean, the member-wise object of a map, the whole ticks of a duration, the int of an enum |
| CodecDocument.FieldDepicted | common/serialization-pangolin/formats/json/json.hpp:44-92 | the same of one field of any type |
| CodecDocument.ScalarYields | common/serialization-pangolin/formats/json/json.cpp:53-130 | reading a scalar from any JSON gives a value exactly if the JSON has the kind and range for it, and then that value |
| CodecDocument.ScalarErrors | common/serialization-pangolin/formats/json/json.cpp:80-100 | reading a scalar from any JSON fails as out of range exactly beyond the range of its type, and as a mismatch exactly for another kind |
| CodecDocument.FieldYields | common/serialization-pangolin/formats/json/json.hpp:122-209 | the same of a field of any type, at any depth |
| CodecDocument.DocumentReads | common/serialization-pangolin/config/config_interface.hpp:45-96 | deserialize gives a configuration for a document, any document, exactly if each read field is absent with the default, or present and yields the value, and the whole validates |
| CodecDocument.StructureErrors | common/serialization-pangolin/formats/json/json.hpp:180-192 | a field is read from an object only, a vector from an array only |
| CodecDocument.DocumentFails | common/serialization-pangolin/config/config_interface.hpp:78-96 | deserialize fails with the error of the first field that cannot be read, and as invalid if all can and validation refuses |

## Left out

- C++ memory orders weaker than sequential consistency, cache-line layout, spinning and yielding.
- Asio, coroutines, timers and the futex system call beyond their contracts: a timer fires at or after its deadline, a cancellation may arrive at any time, a posted completion runs once unless its context stops, a futex wait compares and parks in one step and wakes at most the given number. A context is shut down only after the threads initiating calls on it have stopped.
- Reference counts and the freeing of asynchronous waiter nodes, and moves of Borrowed and ReservedSlot tokens: nodes and tokens are values that are consumed once.
- The 64-bit overflow of sequence numbers, byte counters and the undelivered counter: they are unbounded, except for the single producer's capacity limit.
- The condition-variable fallback of the event count, the busy-spin, yielding and timeout strategies (a wait that returns early is a step back to the first look at the cursor), and the wake-up of several consumers.
- Registering the same sink object twice or again after its removal: each registration is a new sink.
- Joining the thread pool a logger owns at the end of shutdown(), and stopping the janitor at its start: maintenance may still be posted. A shutdown() that finds the logger already stopping returns at once, as in the source, and nothing is claimed of it.
- Transition reports, the error callback and the janitor's schedule: a sweep republishes the gate, and maintenance may be posted to any sink at any time.
- File and console output, paths, rotation names, formatting: a write, an open and a rotation succeed or fail as a parameter says.
- Custom serializers, other formats than JSON, and the conversions jsoncpp performs between JSON kinds other than null: a mismatch is an error.
- Floating-point durations outside the range of a 64-bit integer, whose conversion the language leaves undefined, and enums whose underlying type is bool.
- The sort and merge counters of the sorter and the algorithms behind `std::sort` and `std::inplace_merge`: callers know only their contract, a sorted permutation, so the choice between the two merges by spare capacity makes no difference.
- PoolAnswers.AcquireAnswers: is about blocking calls; what an asynchronous call is told is the outcome of its node, of which WaiterSafety, OutcomeOnce and HandoffToOldest speak, and its answer in the fast path, of which AcquireAlone does.
- PoolAlone.RegisterAlone: like the other results about a thread that moves alone it speaks of timers and posts that are accepted; the rollback of a refused one is part of the runs that the other modules speak of.
- LoggerPipeline.AgreesWithNaive: it, DispatchIsFresh, DrainedAccounted and LoggerShutdown.CompleteAtShutdown assume that no version check comes a nonzero multiple of 2^32 registry changes after the last refresh, because the version is 32 bits wide; CheckMissesIff shows that these are exactly the checks that miss them.
- EventCount.NotifyAllNeverMissed: assumes fewer than 2^32 notifications between a registration and its park, and at most INT_MAX threads, because the epoch has 32 bits and a wake names an int; ParksIffQuiet shows what happens beyond.
- Terminal rendering, the service locator, SQL, HTTP, cryptography, clocks and random generators are not part of this model.

# TinyReactor: a verified model

This project models the concurrent core of TinyReactor in Dafny and proves what it guarantees over every
interleaving: the lock-free MPMC queue with its hazard-pointer reclamation, the thread pool, the task
executor's retry and timeout machine, and the conversion between JSON and protobuf.

`dafny verify dfyconfig.toml` checks everything.

## How the code is modelled

The concurrent components are transition systems. A thread has a program counter and locals; each step is
one atomic load, store, compare-exchange, list append or splice, or lock operation of the source, named
after its line; a store that no other thread can see is joined with the next one that others can. A step is a
function of the state, the thread and a choice that the environment makes (which call an idle thread begins,
whether a weak compare-exchange fails spuriously, whether a push fails, whether a wait times out, what a user
function does). A run is a sequence of states and moves, so a lemma about every run
is a lemma about every interleaving of any number of threads.

| files | component |
|---|---|
| `Machine.dfy` | enqueue, dequeue, acquire, release, RetirePointer, Scan, reclaim_all and isProtected as atomic steps |
| `ChainInvariant.dfy`, `SlotInvariant.dfy`, `RetireInvariant.dfy`, `HazardSafety.dfy` | the invariant of that machine, layer by layer |
| `Fifo.dfy`, `QueueTheorems.dfy` | refinement to an atomic FIFO queue and the results over runs |
| `SafetyTheorems.dfy`, `CutRun.dfy` | when a validated node is deleted, and a run in which that happens |
| `LockFreedom.dfy` | why a retry loop goes round again |
| `Domain.dfy` | HazPtrDomain as a class with the loops of the source |
| `Solo.dfy` | each call of the queue machine, run alone: what it has done when it ends |
| `ScanTheorems.dfy` | Scan and RetirePointer while the other threads go on |
| `InterleavedReclaim.dfy` | reclaim_all while the other threads go on |
| `Holders.dfy` | HazPtrHolder: construct, protect, move, release in every order |
| `JsonStruct.dfy`, `RoundTrip.dfy`, `TaskProto.dfy` | JSON, Struct and Task conversion |
| `ThreadPool.dfy`, `PoolInvariant.dfy`, `PoolTheorems.dfy`, `PoolCalls.dfy` | the thread pool |
| `Executor.dfy`, `ExecutorTheorems.dfy`, `AttemptTheorems.dfy`, `TimerTheorems.dfy` | the task executor |
| `Sums.dfy`, `Pigeonhole.dfy`, `Iteration.dfy`, `Wrappers.dfy` | totals over threads, distinct sequences, repeated steps, Option |

Hypotheses of the queue model: memory is sequentially consistent; node addresses are never reused and a
deleted node keeps its contents, because enqueue reads `curr_tail->next` without a hazard slot; list splices
and appends are atomic. acquire holds the mutex of the slot list, which keeps acquires apart but neither
release nor isProtected away: it reads the owners one by one, and it makes a new slot the first of the list
(line 132) before it stores that slot's `next_` (line 133). Only in `Holders.dfy` is acquire one step. The
undeclared names in `mpmc_queue.hpp` are read as the evident ones: `TestObject` as `Node<T>`,
`release_hazard_pointer(h)` as `h.release()`. When the global list is over its threshold, RetirePointer calls
Scan with the mutex it already holds; the model stops that thread there, still holding the mutex.

Four findings about the code:

- Hazard pointers do not always protect. A walk of isProtected that reads `next_` of the newest slot between
  lines 132 and 133 of an acquire ends there and skips every older slot. `CutRun.DeletedNodeIsRead` is a run in
  which dequeue then reads a deleted node; `SafetyTheorems.ValidatedSurvivesIff` says for every run that such a
  cut is the only way and always loses the node; and once two slots per thread exist no walk is cut any more
  (`SafetyTheorems.SafeOnceSaturated`).
- `remove_threads` reads and writes the target in two steps, so two overlapping calls can raise it again and a
  worker can then leave the pool below its target. `PoolTheorems.OverlappingRemovals` is such a run,
  `PoolTheorems.NoExitBelowTarget` excludes it when calls are kept apart, `PoolTheorems.ExitBelowTargetIff` says
  for every run which move makes it happen, and `PoolTheorems.ExitBelowTargetIffOverlap` names, for runs without
  add_threads, the two calls that overlap.
- A JSON value comes back from a Struct unchanged only if it is null or an object without arrays, nulls or empty
  objects anywhere (`RoundTrip.TripIsIdentityIff`); arrays come back as objects keyed by index although a Struct
  could carry lists.
- A task that ended in SUCCESS or FAILED can still become TIMEOUT, exactly when one of its execution timers was
  left behind (`TimerTheorems.EndCanChangeIff`, with the run `TimerTheorems.SuccessCanBecomeTimeout`).

## Model

| member | source | states |
|---|---|---|
| `Machine.PickSlot` | src/common/include/hazard_pointer.hpp:119-135 | an undisturbed acquire takes the newest slot without owner, and a new slot only when every slot is owned |
| `ChainInvariant.LinkKeepsChain` | src/common/include/mpmc_queue.hpp:57-67 | a successful link happens at the end of the chain and extends it by one node |
| `ChainInvariant.MicroOk` | src/common/include/mpmc_queue.hpp:51-131 | every step links only a fresh node at the end, moves tail only to its successor and head only to its successor and not past tail |
| `ChainInvariant.StepKeepsChain` | src/common/include/mpmc_queue.hpp:51-131 | every step keeps the one-chain invariant; links are write-once and head and tail never go back |
| `QueueTheorems.EveryScheduleRuns` | src/common/include/mpmc_queue.hpp:48-132 | every schedule of any number of threads is a run of the model |
| `QueueTheorems.OneGrowingChain` | src/common/include/mpmc_queue.hpp:52-117 | in every reachable state the nodes ever linked form one chain, head is at or before tail, tail is last or second-to-last, and from any state to any later one links stay and head and tail only advance |
| `Fifo.ContentsOfChain` | src/common/include/mpmc_queue.hpp:29-34 | the values found by following `next` from head are the data of the chain strictly after head |
| `Fifo.LinkAppends` | src/common/include/mpmc_queue.hpp:59-61 | the link appends the new node's value to the queue |
| `Fifo.HeadToTakes` | src/common/include/mpmc_queue.hpp:115-118 | the head swing removes the first value, and it is the value of the node the dequeuer reads |
| `Fifo.StepOnContents` | src/common/include/mpmc_queue.hpp:51-131 | only the link and the head swing change the queue; helping, failed and spurious compare-exchanges and reclamation do not |
| `Fifo.NullNextMeansEmpty` | src/common/include/mpmc_queue.hpp:93-101 | a null `next` read from a node that was once head means that the queue is empty at that moment, even if head has been re-read earlier |
| `Fifo.StepRefines` | src/common/include/mpmc_queue.hpp:48-132 | one step of the code is one step of an atomic queue with the same call or return |
| `QueueTheorems.Linearizable` | src/common/include/mpmc_queue.hpp:48-132 | every run shows the calls and returns of an atomic FIFO queue holding the same values throughout: enqueue appends, dequeue returns the first value, false only if empty during the call |
| `QueueTheorems.FirstInFirstOut` | src/common/include/mpmc_queue.hpp:48-132 | in every reachable state the values enqueued so far, in order, are the values dequeued so far, in order, followed by the queue |
| `QueueTheorems.FalseMeansEmpty` | src/common/include/mpmc_queue.hpp:85-106 | if a dequeue returns false, the queue was empty in some state of that same call, although line 93 observes it and only line 97 confirms it |
| `LockFreedom.FailureMeansChange` | src/common/include/mpmc_queue.hpp:51-117 | an iteration of enqueue or dequeue that goes back to its first load, other than by a spurious failure, does so only if a compare-exchange on next, tail or head succeeded during it |
| `LockFreedom.SpuriousChangesNothing` | src/common/include/mpmc_queue.hpp:59-118 | a compare-exchange that would succeed may fail for no reason; then nothing changes and the loop starts again |
| `LockFreedom.HelpingIsBounded` | src/common/include/mpmc_queue.hpp:59-117 | in every reachable state the tail moves are as many as the links or one fewer, and no fewer than the head moves |
| `LockFreedom.TwoFailuresMeanProgress` | src/common/include/mpmc_queue.hpp:51-117 | lock-freedom: if a thread fails two iterations, between the start of the first and the end of the second a value entered or left the queue |
| `SlotInvariant.StepKeepsSlots` | src/common/include/mpmc_queue.hpp:81-122 | every step keeps: a dequeue owns its two distinct slots alone, they publish what it stored, a free slot publishes null, and no step touches another thread's slot |
| `SlotInvariant.StepKeepsListing` | src/common/include/hazard_pointer.hpp:115-135 | exactly the mutex holder walks the slot list, and the newest slot is unlinked exactly while that thread is between lines 132 and 133 |
| `SlotInvariant.SlotBound` | src/common/include/hazard_pointer.hpp:115-135 | no acquire creates a slot when two per thread exist, although a slot given back behind its walk escapes it |
| `SlotInvariant.SomeFree` | src/common/include/hazard_pointer.hpp:115-135 | an acquire that gets the mutex when two slots per thread exist has a free one among them |
| `QueueTheorems.SlotsAreBounded` | src/common/include/hazard_pointer.hpp:115-145 | in every reachable state there are at most two slots per thread |
| `RetireInvariant.StepKeepsLocking` | src/common/include/hazard_pointer.hpp:159-190 | exactly the threads inside the guarded sections hold the mutex of the global list, hence one at a time |
| `RetireInvariant.StepKeepsSizes` | src/common/include/hazard_pointer.hpp:265-289 | a local list reaches the threshold of 100 only inside RetirePointer |
| `RetireInvariant.AccountStep` | src/common/include/hazard_pointer.hpp:159-190 | no step loses or duplicates a retired node; only the head swing adds one, the old head |
| `RetireInvariant.StepKeepsConserved` | src/common/include/mpmc_queue.hpp:115-125 | the nodes before head are exactly those held for retirement, listed, claimed or deleted |
| `RetireInvariant.NotRetired` | src/common/include/mpmc_queue.hpp:115-125 | a node at or after head has never been retired |
| `QueueTheorems.RetiredIsConserved` | src/common/include/hazard_pointer.hpp:159-190 | everything ever retired is in the local lists, the global list, `to_reclaim` or deleted, with multiplicity; outside RetirePointer every local list is shorter than 100 |
| `QueueTheorems.DeletedAtMostOnce` | src/common/include/mpmc_queue.hpp:36-45 | every node is retired at most once and lies strictly before head and tail; deletions and the destructor's walk never meet the same node twice |
| `QueueTheorems.Destroy` | src/common/include/mpmc_queue.hpp:36-45 | the destructor's loop deletes exactly the nodes from head to the end of the chain, each once, and stops |
| `HazardSafety.ScannerNoThreat` | src/common/include/hazard_pointer.hpp:148-190 | a reclaimer whose walk is not cut cannot pass a slot that publishes the node it examines |
| `HazardSafety.SafeStep` | src/common/include/hazard_pointer.hpp:130-190 | a published node that no reclaimer has slipped past stays so under every step that leaves its slot alone and does not cut a walk for it |
| `HazardSafety.LostStep` | src/common/include/hazard_pointer.hpp:174-190 | a node that is deleted, or that a reclaimer will delete without looking at a slot again, stays so under every step |
| `HazardSafety.ValidatedIsSafe` | src/common/include/mpmc_queue.hpp:86-99 | re-reading head after publishing establishes that curr_head, and at line 97 its successor, is safe |
| `HazardSafety.StepKeepsInv` | src/common/include/mpmc_queue.hpp:48-132 | every step of every thread keeps the chain, slot and retirement invariants together |
| `SafetyTheorems.DereferencesAreLive` | src/common/include/mpmc_queue.hpp:85-118 | whatever dequeue dereferences was validated by an earlier move of that thread, and it is deleted or bound to be exactly when a walk for it was cut since then |
| `SafetyTheorems.ValidatedSurvivesIff` | src/common/include/hazard_pointer.hpp:130-190 | a node validated at line 88 or 97 of mpmc_queue.hpp and published since is safe exactly when no walk for it read a `next_` between lines 132 and 133; a cut always loses it |
| `SafetyTheorems.ClaimNeedsCut` | src/common/include/hazard_pointer.hpp:148-187 | a reclaimer that claims a validated and still published node has itself had its walk for that node cut after the validation |
| `SafetyTheorems.CutMeansClaim` | src/common/include/hazard_pointer.hpp:148-187 | the next move of a reclaimer whose walk was cut claims the node, whatever the slots publish |
| `SafetyTheorems.StaysSaturated` | src/common/include/hazard_pointer.hpp:115-135 | once two slots per thread exist and are linked, that stays so |
| `SafetyTheorems.SafeOnceSaturated` | src/common/include/hazard_pointer.hpp:115-190 | from then on every validated node is safe as long as it is published |
| `SafetyTheorems.AllInsideSaturates` | src/common/include/mpmc_queue.hpp:81-122 | that is the case as soon as all threads are inside dequeue at once, both slots in hand |
| `CutRun.DeletedNodeIsRead` | src/common/include/hazard_pointer.hpp:130-157 | a run of three threads in which dequeue reads, at line 93, a node that has been deleted |
| `Domain.ReclaimPartitions` | src/common/include/hazard_pointer.hpp:174-190 | a reclaim keeps exactly the protected entries and deletes exactly the others |
| `Domain.BacklogBound` | src/common/include/hazard_pointer.hpp:174-190 | of distinct entries at most as many survive a reclaim as there are slots |
| `Domain.ReclaimIsStable` | src/common/include/hazard_pointer.hpp:174-190 | a second reclaim with the same slots deletes nothing |
| `InterleavedReclaim.ReclaimInRunIff` | src/common/include/hazard_pointer.hpp:148-190 | in any run, if no slot publishes anything else while a reclaim_all holds the mutex, it leaves exactly the protected entries in order and deletes exactly the others in order, if and only if none of its walks for a protected entry is cut between lines 132 and 133 of an acquire |
| `InterleavedReclaim.ReclaimOnceSaturated` | src/common/include/hazard_pointer.hpp:115-190 | hence without condition once two slots per thread exist |
| `InterleavedReclaim.BacklogInRun` | src/common/include/hazard_pointer.hpp:174-190 | cut or not, the list such a reclaim leaves holds only protected entries and is no longer than there were slots, so at most two entries per thread |
| `InterleavedReclaim.OthersSpareGlobal` | src/common/include/hazard_pointer.hpp:174-187 | while a thread holds the mutex no step of another thread changes the global list |
| `Domain.HazPtrDomain.Acquire` | src/common/include/hazard_pointer.hpp:115-135 | the traversal, undisturbed, hands out the newest slot without owner, creates one only when all are owned, and changes no other slot |
| `Domain.HazPtrDomain.Release` | src/common/include/hazard_pointer.hpp:138-145 | clears the slot and its owner; no slot means no change |
| `Domain.HazPtrDomain.IsProtected` | src/common/include/hazard_pointer.hpp:148-157 | true exactly when some slot publishes the pointer |
| `Domain.HazPtrDomain.Sweep` | src/common/include/hazard_pointer.hpp:174-187 | the erasing loop leaves the protected entries in order and moves the others, in order, to `to_reclaim` |
| `Domain.HazPtrDomain.ReclaimAll` | src/common/include/hazard_pointer.hpp:174-190 | deletes exactly the unprotected entries, in order |
| `Domain.GatheredMeans` | src/common/include/hazard_pointer.hpp:159-168 | splicing empties the registered threads' lists, leaves the others alone and neither loses nor duplicates an entry |
| `Domain.HazPtrDomain.Scan` | src/common/include/hazard_pointer.hpp:159-171 | splices the registered threads' lists in order, emptying them, then reclaims; listed and deleted nodes together stay the same |
| `Domain.HazPtrDomain.RetirePointer` | src/common/include/hazard_pointer.hpp:265-289 | appends, hands the list over at the threshold and leaves a local list under the threshold |
| `Solo.SoloReclaim` | src/common/include/hazard_pointer.hpp:174-190 | run alone with every slot linked, reclaim_all ends and has left and deleted what the method ReclaimAll leaves and deletes |
| `Solo.SoloScan` | src/common/include/hazard_pointer.hpp:159-171 | run alone with every slot linked, Scan ends and has spliced the lists of all registered threads and reclaimed as the method Scan does |
| `Solo.SoloRegister` | src/common/include/hazard_pointer.hpp:81-92 | RegisterThread adds the calling thread to those that Scan visits |
| `Solo.SoloRetire` | src/common/include/hazard_pointer.hpp:265-289 | run alone, RetirePointer leaves the lists as the method RetirePointer does, and returns with the mutex free exactly when it has not taken the global list above its threshold |
| `Solo.SoloEnqueue` | src/common/include/mpmc_queue.hpp:48-73 | run alone, tail lagging or not, enqueue returns, has appended its value, left tail at the end of the chain and touched nothing else |
| `Solo.SoloDequeue` | src/common/include/mpmc_queue.hpp:80-125 | run alone, tail lagging or not, dequeue takes the first value or finds the queue empty, has given its slots back and touched nothing else up to RetirePointer |
| `Solo.SoloDequeueReturns` | src/common/include/mpmc_queue.hpp:80-127 | the whole call on a queue that is not empty: it returns the first value, and the old head is retired as by the method RetirePointer |
| `ScanTheorems.ScanSkipsNoOne` | src/common/include/hazard_pointer.hpp:159-168 | in any run, what was in a registered thread's list when a Scan got the mutex is in the global list and not in the local one when the Scan lets go of it |
| `ScanTheorems.StuckMeansFull` | src/common/include/hazard_pointer.hpp:265-289 | in any run, a RetirePointer that never comes back holds the mutex over a global list of more than 5000 |
| `ScanTheorems.HandOverReturnsIff` | src/common/include/hazard_pointer.hpp:285-289 | in any run, a hand-over returns with the mutex free exactly when the global list is not above 5000 |
| `Solo.SoloAcquire` | src/common/include/hazard_pointer.hpp:115-135 | run alone, the machine's acquire ends and has done what the method Acquire does |
| `Holders.ActKeepsInv` | src/common/include/hazard_pointer.hpp:214-258 | construction, protect, moves and each step of release keep the ownership invariant |
| `Holders.HolderRuns` | src/common/include/hazard_pointer.hpp:115-145 | with acquire as one step: in every run no two holders outside release() share a slot, a free slot publishes null, and the number of slots is the historical maximum of slots owned at once |
| `Holders.ProtectPublishes` | src/common/include/hazard_pointer.hpp:240-245 | protect publishes its pointer in the holder's own slot and changes nothing else; without a slot it does nothing |
| `Holders.MoveTransfers` | src/common/include/hazard_pointer.hpp:226-238 | a move takes the slot over and leaves the source without one |
| `Holders.ReleaseFrees` | src/common/include/hazard_pointer.hpp:252-258 | the acts of a release together clear the slot, give it up and leave the holder empty |
| `JsonStruct.KeyedElements` | src/common/src/utils.cpp:5-18 | an array becomes an object with one key per element, key `i` in decimal holding element `i` |
| `JsonStruct.DecimalReads` | src/common/src/utils.cpp:5-18 | an index key is the usual decimal notation: digits, no leading zero, and read in base ten it gives the index |
| `JsonStruct.StructSaysTheSame` | src/common/src/utils.cpp:5-18 | the Struct has one field per member or element, and each says what the JSON value says: the same boolean, number or text, null as null, a container as a Struct of the same kind, binary as unset; a lone scalar has an empty key |
| `JsonStruct.JsonSaysTheSame` | src/common/src/utils.cpp:20-32 | exactly the boolean, number, string and Struct fields come back, with the values they had, at every depth; without any the result is null |
| `JsonStruct.JsonToStruct` | src/common/src/utils.cpp:5-18 | the loop builds the Struct that the recursive definition gives, for every JSON value |
| `JsonStruct.StructToJson` | src/common/src/utils.cpp:20-32 | the loop builds the JSON value that the recursive definition gives, null when nothing is copied |
| `RoundTrip.TripByMembers` | src/common/src/utils.cpp:5-32 | a round trip acts member by member: leaves stay, containers make the trip, nulls and binaries go, and an empty result is null |
| `RoundTrip.TripIsIdentityIff` | src/common/src/utils.cpp:5-32 | for every JSON value: the round trip is the identity exactly when it is null or a non-empty object whose members are booleans, numbers, strings or objects of the same kind |
| `RoundTrip.TripCalms` | src/common/src/utils.cpp:5-32 | each round trip of an unsettled container lowers the depth to which it is unsettled |
| `RoundTrip.TripsConverge` | src/common/src/utils.cpp:5-32 | repeated trips of a container reach a fixed point within its height, null or a hereditarily non-empty object tree |
| `RoundTrip.ScalarsSettle` | src/common/src/utils.cpp:5-32 | a lone scalar is wrapped under an empty key by the first trip and then stays |
| `RoundTrip.HeightIsNeeded` | src/common/src/utils.cpp:5-32 | the bound is sharp: nested objects around an empty one need height-many trips |
| `RoundTrip.ReturnIsIdentityIff` | src/common/src/utils.cpp:5-32 | a Struct survives the trip to JSON and back exactly when all its values are copied back and no inner Struct is empty |
| `TaskProto.TaskToProto` | src/common/src/utils.cpp:34-58 | the message carries every field but `cancelled`, parameters and result as Structs |
| `TaskProto.TaskFromProto` | src/common/src/utils.cpp:60-84 | the task has every field of the message, the state cut to eight bits, and a fresh `cancelled` flag |
| `TaskProto.TaskTripIff` | src/common/src/utils.cpp:34-84 | a task comes back with every field but `cancelled` unchanged exactly when parameters and result are null or solid objects |
| `TaskProto.MessageTripIff` | src/common/src/utils.cpp:34-84 | a message comes back unchanged exactly when its state fits a byte and both Structs are full |
| `PoolInvariant.StepKeepsInv` | src/common/src/thread_pool.cpp:16-88 | every step of workers, producers, controllers and destructor keeps the books of counters, tasks and task pointers |
| `PoolTheorems.ActiveIsExact` | src/common/src/thread_pool.cpp:42-70 | `active_threads_` is the number of workers past line 43 that have not left, so no decrement underflows |
| `PoolTheorems.OnePlace` | src/common/src/thread_pool.cpp:16-52 | every accepted task is queued, in one thread's hand, executed or drained, exactly once, and no task is started twice |
| `PoolCalls.EnqueueAlone` | src/common/src/thread_pool.cpp:27-40 | run alone on a running pool, enqueue accepts one new task as the last of the queue and counts it |
| `PoolCalls.PushIsRetried` | src/common/src/thread_pool.cpp:31-37 | a failed push on a running pool is tried again and the task accepted in the end |
| `PoolCalls.EnqueueStopped` | src/common/src/thread_pool.cpp:28-30 | on a stopped pool enqueue throws and changes nothing |
| `PoolCalls.ThrowsIffStopped` | src/common/src/thread_pool.cpp:28-36 | in any run, an enqueue throws exactly when it checks at line 28 or 32 and shutdown or the destructor stopped the pool earlier |
| `PoolCalls.StoppedIff` | src/common/src/thread_pool.cpp:16-18 | in any run, the pool is stopped exactly when an earlier move was that of shutdown or the destructor |
| `PoolCalls.AcceptedWhileRunning` | src/common/src/thread_pool.cpp:28-38 | in any run, a task is accepted only from an enqueue whose line 28 came before any shutdown or destructor |
| `PoolCalls.WorkerStarts` | src/common/src/thread_pool.cpp:42-45 | a new worker counts itself and comes to its loop |
| `PoolCalls.WorkerRound` | src/common/src/thread_pool.cpp:45-66 | one round of a worker whose wait succeeds executes the first queued task, counts it off, and leaves the pool exactly when there are more threads than the target |
| `PoolCalls.WorkerWithoutTask` | src/common/src/thread_pool.cpp:45-69 | a round whose wait times out executes nothing; a worker of a stopped pool leaves |
| `PoolCalls.StaysInPool` | src/common/src/thread_pool.cpp:58-66 | a worker that finds room after all or loses the race at line 60 goes round again |
| `PoolCalls.DestroyAlone` | src/common/src/thread_pool.cpp:16-25 | run alone, the destructor stops the pool and deletes every queued task |
| `PoolCalls.DrainEndsIff` | src/common/src/thread_pool.cpp:20-24 | in any run, the destructor leaves its loop exactly when it finds the queue empty |
| `PoolCalls.AddAlone` | src/common/src/thread_pool.cpp:72-80 | run alone, add_threads raises the target by n and starts n workers |
| `PoolCalls.RemoveAndShutdown` | src/common/src/thread_pool.cpp:82-97 | run alone, remove_threads lowers the target by n, at most to zero, and shutdown stops the pool |
| `PoolCalls.EveryWorkerIsStarted` | src/common/src/thread_pool.cpp:72-80 | in any run, the threads are those of the construction and those that add_threads has been asked for and has started |
| `PoolTheorems.LeftoverInGeneral` | src/common/src/thread_pool.cpp:20-51 | `leftover_` is queued plus popped-not-subtracted minus pushed-not-added, modulo 2^64 |
| `PoolTheorems.LeftoverAtRest` | src/common/src/thread_pool.cpp:20-51 | at quiescence `leftover_` is the number of queued tasks |
| `PoolTheorems.OneWorkerInOrder` | src/common/src/thread_pool.cpp:42-52 | with one worker tasks start in acceptance order, and as a prefix of it until a destructor takes a task |
| `PoolTheorems.NoExitBelowTarget` | src/common/src/thread_pool.cpp:54-61 | without add_threads and without overlapping remove_threads no worker leaves the pool below its target |
| `PoolTheorems.LeavesAfterDeciding` | src/common/src/thread_pool.cpp:58-61 | a leaving worker executed line 59 in an earlier move of the run, where it found the target below the count it compares with at line 60 |
| `PoolTheorems.ExitBelowTargetIff` | src/common/src/thread_pool.cpp:58-61 | in any run a worker leaves below the target exactly when a move between its lines 59 and 60 lifts the target from below to at least the count it took, and the target stays there |
| `PoolTheorems.TargetWriter` | src/common/src/thread_pool.cpp:72-88 | the target changes only in the addition of add_threads or the store of remove_threads |
| `PoolTheorems.RaiseNeedsOverlap` | src/common/src/thread_pool.cpp:82-88 | without add_threads a move that raises the target is the store of a remove_threads whose load came before another remove_threads lowered the target |
| `PoolTheorems.ExitBelowTargetIffOverlap` | src/common/src/thread_pool.cpp:54-88 | in a run without add_threads a worker leaves below the target exactly when two remove_threads overlapped and the later store came between its lines 59 and 60 and lifted the target to its count for good |
| `PoolTheorems.OverlappingRemovals` | src/common/src/thread_pool.cpp:82-88 | a run without add_threads in which two overlapping remove_threads make a worker leave below the target |
| `ExecutorTheorems.MoveKeepsInv` | src/worker/task-executor/src/task_executor.cpp:35-134 | every step of attempts, execution timers, retry timers and submissions keeps quota, uniqueness and terminality |
| `ExecutorTheorems.RetriesAreLimited` | src/worker/task-executor/src/task_executor.cpp:95-113 | at most ten retries are outstanding, and `retrying_cnt` is theirs plus the callers about to take their increment back |
| `ExecutorTheorems.RetriesAreBounded` | src/worker/task-executor/src/task_executor.cpp:95-112 | `retry_count` never exceeds `max_retry`, the function is called at most once more than it was retried, never without resources, and state and message agree |
| `ExecutorTheorems.BackoffServed` | src/worker/task-executor/src/task_executor.cpp:103-112 | while a task is under way the backoff begun is that of its retries, and of one more while a retry timer is pending |
| `ExecutorTheorems.BackoffClosedForm` | src/worker/task-executor/src/task_executor.cpp:103-106 | the backoff of k retries is 2^k - 1 seconds up to five and 31 + 16(k - 5) beyond |
| `ExecutorTheorems.RestIsTerminal` | src/worker/task-executor/src/task_executor.cpp:42-119 | when no attempt is queued or running and no retry pending, the task is in SUCCESS, FAILED or TIMEOUT |
| `AttemptTheorems.TooFewResources` | src/worker/task-executor/src/task_executor.cpp:42-47 | an attempt of a task that asks for more than four cores or 8192 MB reports FAILED and ends |
| `AttemptTheorems.TooLate` | src/worker/task-executor/src/task_executor.cpp:49-56 | an attempt whose task has no time left when it reads the clock reports TIMEOUT and ends without a call |
| `AttemptTheorems.GetsTimer` | src/worker/task-executor/src/task_executor.cpp:42-67 | with enough resources and time left the attempt starts an execution timer |
| `AttemptTheorems.GetsCalled` | src/worker/task-executor/src/task_executor.cpp:69-81 | then it reports RUNNING and, if the function is known, calls it |
| `AttemptTheorems.ReturnIsSuccess` | src/worker/task-executor/src/task_executor.cpp:81-85 | when the function returns the attempt reports SUCCESS, cancels its timer if that is not too late, and ends |
| `AttemptTheorems.SuccessNeedsReturn` | src/worker/task-executor/src/task_executor.cpp:81-119 | in any run, a state becomes SUCCESS only by the next move of an attempt whose function has just returned |
| `AttemptTheorems.FailureIsReported` | src/worker/task-executor/src/task_executor.cpp:86-117 | after an exception that is not one of the three transient codes, or without retries left, the attempt reports FAILED with the exception's text, cancels its timer if that is not too late, and ends |
| `AttemptTheorems.FailureNeedsThrow` | src/worker/task-executor/src/task_executor.cpp:86-117 | in any run, that report is made only by an attempt that met such an exception |
| `AttemptTheorems.TransientError` | src/worker/task-executor/src/task_executor.cpp:95-112 | after a transient error with retries left the attempt counts itself and starts a retry timer, unless ten were counted already |
| `AttemptTheorems.QuotaFullIsReported` | src/worker/task-executor/src/task_executor.cpp:97-101 | and in that case takes its count back, reports FAILED and ends |
| `AttemptTheorems.SubmittedAs` | src/worker/task-executor/src/task_executor.cpp:35-40 | a submitted task is PENDING with one attempt queued, and its limits never change |
| `ExecutorTheorems.RestIsForever` | src/worker/task-executor/src/task_executor.cpp:62-67 | from then on, whatever fires, the task is never called or retried again and its state stays as it is or becomes TIMEOUT |
| `TimerTheorems.PendingIffLeftBehind` | src/worker/task-executor/src/task_executor.cpp:84-118 | a task at rest has a pending timer exactly when one of its attempts ended by line 101 or 113 or cancelled too late, and that timer's callback has not run to its end |
| `TimerTheorems.EndCanChangeIff` | src/worker/task-executor/src/task_executor.cpp:60-119 | the end of a task at rest can still change, in some continuation of the run, exactly when it is not TIMEOUT and an attempt left its timer behind in that way |
| `TimerTheorems.SuccessCanBecomeTimeout` | src/worker/task-executor/src/task_executor.cpp:95-113 | a run that ends at rest in SUCCESS with the first attempt's timer armed, because beginning the retry did not cancel it |
| `ExecutorTheorems.TimeoutRaisesFlag` | src/worker/task-executor/src/task_executor.cpp:62-67 | when the execution timer's callback reports a timeout it has raised the task's `cancelled` flag |

## Left out

- Memory safety of enqueue and address reuse: `curr_tail` is dereferenced without a hazard slot (src/common/include/mpmc_queue.hpp:52-53), so the code does not establish it.
- Weak memory: publication uses release and acquire orderings only; the model is sequentially consistent.
- Fairness: a single thread's retry loop may go round for ever while others make progress, and spurious failures may repeat; waiting for the mutex may not end.
- Domain.HazPtrDomain.RetirePointer: above the global threshold the source calls Scan with the mutex held, on which that thread never comes back; the result `stuck` reports this instead.
- Thread exit and UnregisterThread: a leaving thread's retired list is not handed over by the source.
- Holders.HolderRuns: takes acquire as one step; a slot given back behind the walk of an acquire can make it create one although a slot is free, so in `Machine.dfy`, where the walk is modelled, the bound on the slots is two per thread.
- Registration during a Scan beyond its order: Scan runs over the threads registered when its loop begins; that the vector may move its elements meanwhile is not modelled.
- The debug assertion in release that the releasing thread is the owner: a holder moved to another thread fails it; the model goes on as a release build does.
- The binary semaphore of the pool: a wait may succeed or time out at any moment, so nothing is said about every task eventually running.
- Exceptions thrown by a pool task, and exceptions of user functions that are not std::exception.
- PoolTheorems.NoExitBelowTarget: does not cover runs with add_threads, where a worker stalled between lines 59 and 60 can leave against an old target; `PoolTheorems.ExitBelowTargetIff` says when.
- Abandoned timers when the io_context is destroyed, and a pool stopped during a retry.
- JSON numbers as integers and their rounding to double: numbers are taken as already doubles, as reals.
- The order in which JSON members and Struct fields are visited: the result does not depend on it, and the loops visit them in any order.
- Result, start and finish timestamps written by update_task_state: only the state and the message are modelled.
- The gRPC client and server, to_json and from_json of Task, the built-in fib, logging and signal handling.

# Verified model of the task orchestrator

The orchestrator accepts tasks over HTTP, keeps them in Redis, and lets any number of workers
execute them under per-project locks, surviving crashes by a startup scan. This project models
that system in Dafny and proves what it keeps, over every run and every interleaving.

It has two layers. The **classes** (`TaskStore`, `TaskQueue`, `LockTable`, `Worker`, `Scheduler`,
`EventBus`, `EngineFactory`, `TaskRecord`, the in-memory `MemoryStore`) and the methods beside them
(`CreateTask`, `RecoverStrandedTasks`, `Subscribe`, `EventGenerator`) change their fields step by
step, as the source does. Each is proved equal in effect to a specification function, and its contract
also says directly, status by status and key by key, what the answer and the new state are. The
**protocol** (`Protocol.dfy`) is a labelled transition system over the same specification functions:
handlers, workers, clock, crashes and recovery interleave freely, at the granularity of one store,
queue or lock operation. `Conformance.dfy`, `Interleaving.dfy` and `Bystanders.dfy` show that the worker and
the endpoint are runs of the protocol. Whole-run theorems are proved on the protocol.

| file | models |
|---|---|
| `Tasks`, `Stores`, `StoreRefinement`, `Queues`, `Locks`, `Scheduling` | the shared state and its operations |
| `Recovery`, `RecoveryScan` | the startup scan |
| `Workers`, `Api`, `Conformance`, `Interleaving`, `Bystanders` | the worker, its drain loop, the creation endpoint |
| `Protocol`, `Conservation`, `Lifecycle`, `Dedup`, `Restart`, `Replicas` | the protocol and its invariants |
| `Exclusion`, `Collision` | timed mutual exclusion and its exact bounds |
| `Orphans`, `Progress`, `Contention` | orphaned locks, remaining work, absence of deadlock |
| `Commands` | store writes as single Redis commands, interleaved |
| `Events`, `Broadcast`, `Truncation`, `Attempts` | server-sent events: one and many subscribers, how they cut each other off, what an attempt means for them |
| `Engines` | the memoising engine factory |

What is assumed of the outside world: uuids and lock tokens are fresh; SHA-256 does not collide, so
a digest is the text it hashes; payloads read back as they were written; a scan yields every key
once (the scanner's own contract does not need it, the theorems about recovery do). A cancellation
may hit a worker at any await, before or after the awaited command took effect. Redis may lose any
part of the queue at any time. A run is *orderly* if every recovery finds the queue empty, drained
or lost. Engine results, scheduler checks, stream outcomes and clock readings are unconstrained
parameters. Time is real; a lease is live strictly before it expires. Two numbers bound the timing:
`delay`, how late a due heartbeat may reach Redis, and `releaseDelay`, how long a release may take
after the heartbeat is cancelled. `System` carries three history fields that no step reads (`place`,
`attempts`, `recoveries`); `StrandedStep` with `CarrierConservation`, and `CountersRun`, say what
they record in terms of the run itself.

## What the proofs found out

- **Exclusion is exactly a matter of arithmetic.** A lost lock is noticed by the heartbeat only,
  whose error never reaches the execution (`src/worker.py:117-122`). One RUNNING task per project
  (of those not stranded) holds in all orderly runs if and only if heartbeat interval + delay < TTL; one worker between acquire and
  release if and only if the release delay fits in as well. The settings do not enforce either
  (`src/config.py:40-50` takes both numbers independently from the environment).
- **A restart is safe exactly if nothing of the queue survives it.** `README.md:231` assumes the queue was
  lost, but it is a Redis list (`src/task_queue/queue.py:29`). Whatever was queued: if all of it is lost or
  deleted, no orderly run after recovery leaves the life cycle; if any entry survives, some run stores a
  task as SUCCESS and then starts it again (`RestartIsSafeIff`).
- **Some cancellations are as bad as a crash.** Between a retriable failure and its record
  (`src/worker.py:190-192`) they leave a RUNNING record behind a released lock, so a second task of the
  project can run (`AbandonedStreamsCollide`); after the SET of `src/worker.py:88` or before the release
  of line 123 they leave a lock to its TTL. `AttendedStep` and `OrphansStep` say exactly which steps do.
- **Deduplication is check-then-act.** Any number of requests checked against one store and then all
  saved leave it consistent if and only if no two name the same project or share a digest key
  (`RaceIff`); the first two requests of a project show it (`FirstRequestsRace`). The theorems over whole
  runs take check and save as one step; `SaveConsistentIff` gives the exact condition without that.
- **Digest keys collide for some project names.** They are injective on NUL-free names; `DigestKeyCollision`
  says exactly which pairs of requests collide otherwise.
- **An empty `model` or `api_key` in `config_json` is not replaced by the environment's value**, although
  `src/api.py:143-144` and the error text suggest it: only a missing key is (`MergeFailsIff`).
- **PENDING -> FAILED and INTERRUPTED -> RUNNING/FAILED happen**, which the diagram in
  `src/models/enums.py:23-25` does not show.
- **An attempt that runs to its end ends the event streams.** `api_contract.md:344` has a stream close on a
  terminal event, but DONE is published after each attempt that is not cut off by a crash or an
  abandoning cancellation, before a retry too (`src/worker.py:190-193`). A retry that succeeds is not seen
  by those who watched the first attempt (`RetryHidesItsEnd`).
- **A late DONE cuts off another subscriber.** One that has sent a terminal frame closes the channel, which
  all runs of a task share (`src/api.py:273-275`); if the attempt that failed is retried meanwhile, those who
  joined the retry are cut off. A subscriber that joins during an attempt is sure to get the rest of it, and
  a terminal frame exactly if the attempt still publishes a terminal event, if and only if no such DONE is
  owed as it joins or the attempt has no event left (`StreamEndsWithAttempt`, `SafeToJoinIff`).
- **Recovery beside live replicas duplicates whatever they carry.** No task has two carriers afterwards if and
  only if every unfinished one was stranded (`RescanIsUniqueIff`), and every live stream that then succeeds
  goes from INTERRUPTED to SUCCESS (`LiveStreamLeavesLifecycle`).
- **A lock left behind only delays.** From every state of an orderly run, whatever crashed, one live worker
  can finish all unfinished tasks that are not stranded, waiting at most one TTL for every unit of work
  (`NeverStuck`).

## Model

| member | source | states |
|---|---|---|
| Tasks.TaskRecord.constructor | src/models/task.py:21-45 | a record parsed from a payload serialises back to that payload |
| Tasks.TaskRecord.Transition | src/models/task.py:55-59 | any status may be set from any other, and nothing else of the record changes |
| Stores.DigestKeyCollision | src/task_queue/store.py:59-62 | two requests share a digest key iff they are equal or one is the other with a NUL-separated piece shifted between project and requirement |
| Stores.DigestKeyInjective | src/task_queue/store.py:59-62 | for NUL-free project names the digest key determines project and requirement |
| Stores.NulNamesCollide | src/task_queue/store.py:59-62 | two concrete different requests with one digest key |
| Stores.FindByDigestExact | src/task_queue/store.py:181-190 | with agreeing digests a lookup answers iff an unfinished task with that key is stored, and then with such a task |
| Stores.FindByDigestByRequest | src/task_queue/store.py:181-190 | for NUL-free names it answers iff an unfinished task with exactly this project and non-empty requirement is stored; never for the empty requirement |
| Stores.TaskStore.Save | src/task_queue/store.py:72-101 | fails iff the id is taken and then changes nothing; else sets record, project set and, for a non-empty requirement, digest key |
| Stores.TaskStore.Update | src/task_queue/store.py:114-131 | overwrites the record, deletes the digest key iff the task is terminal with a requirement, leaves the project sets alone |
| Stores.TaskStore.Lookup | src/task_queue/store.py:137-143 | the stored record, or none |
| Stores.TaskStore.ListByProject | src/task_queue/store.py:145-166 | exactly the stored records of the project set, each once; dangling ids are skipped |
| Stores.TaskStore.HasRunningTask | src/task_queue/store.py:168-171 | true iff a listed task is RUNNING |
| Stores.TaskStore.FindIncomplete | src/task_queue/store.py:173-179 | a task listed for the project and stored as PENDING or RUNNING; none iff no such task is stored |
| Stores.TaskStore.LookupDigest | src/task_queue/store.py:181-190 | the record the digest key points to, or none |
| StoreRefinement.MemoryStore.Save | src/task_queue.py:46-52 | the dict gains the task iff its id is new, else save fails |
| StoreRefinement.MemoryStore.Update | src/task_queue.py:54-65 | the dict entry is overwritten |
| StoreRefinement.MemoryStore.HasRunningTask | src/task_queue.py:77-80 | true iff a task of the project is stored as RUNNING |
| StoreRefinement.MemoryStore.FindIncomplete | src/task_queue.py:82-92 | a task of the project stored as PENDING or RUNNING, none iff there is none |
| StoreRefinement.SaveKeepsIndex | src/task_queue/store.py:85-94 | saving keeps the project sets exactly the ids whose record names the project |
| StoreRefinement.UpdateKeepsIndexIff | src/task_queue/store.py:114-127 | updating keeps them exact iff the id was saved and keeps its project name |
| StoreRefinement.RunRefines | src/task_queue/store.py:72-131 | simulation over every history of well-formed writes: same records, exact project sets |
| StoreRefinement.Replay | src/task_queue/store.py:72-131 | the two store objects, given the same history, follow their runs and stay in simulation |
| StoreRefinement.QueriesAgree | src/task_queue/store.py:137-179 | in simulating states get, list_by_project, has_running_task and find_incomplete answer as the dict store |
| StoreRefinement.RedisStoreRefinesMemoryStore | src/task_queue.py:34-92 | from empty stores, after every well-formed history, all four queries agree with the in-memory store |
| Queues.PopIsHead | src/task_queue/queue.py:29-35 | the right end of a list pushed on the left is the oldest element, and popping it leaves the rest in order |
| Queues.TaskQueue.Enqueue | src/task_queue/queue.py:25-30 | LPUSH appends to the service order |
| Queues.TaskQueue.Dequeue | src/task_queue/queue.py:32-42 | BRPOP takes the first in service order, none iff empty |
| Queues.TaskQueue.Size | src/task_queue/queue.py:47-50 | the number of queued snapshots |
| Locks.LockTable.Acquire | src/worker_locks.py:24-32 | succeeds iff no live lease exists, and then installs the token with a full TTL |
| Locks.LockTable.Refresh | src/worker_locks.py:47-57 | succeeds iff the live lease has this token, and extends only then |
| Locks.LockTable.Release | src/worker_locks.py:35-44 | removes the lease iff it is live and has this token |
| Locks.StrangersAreHarmless | src/worker_locks.py:24-57 | no command with another token changes a live lease |
| Locks.OwnershipPersists | src/worker_locks.py:24-57 | over every history of commands the lock stays with a token that keeps refreshing in time, with the expiry of its own last refresh |
| Locks.OnlyTheOwnerRemoves | src/worker_locks.py:35-44 | a live lease disappears by a command iff that command is the release of its own token |
| Scheduling.Scheduler.DecideTask | src/scheduler.py:82-177 | writes the mode of the documented table onto the record, each mode under its exact condition, failing checks counting as absent; raises ValueError, the record untouched, iff the requirement is empty and there is no checkpoint |
| Recovery.PayloadsExact | src/recovery.py:45-90 | over distinct ids, a payload is appended for exactly the unfinished records, once each, in demoted form |
| RecoveryScan.FilterExact | src/recovery.py:28-31 | the prefix filter keeps a record key iff its id does not begin with "digest:", and no digest key |
| RecoveryScan.ScanKeys | src/recovery.py:24-33 | the cursor loop returns the ids of all record keys of all pages, in order |
| RecoveryScan.ScanLaws | src/recovery.py:27-33 | keys are taken one by one: exactly those beginning with cio:task: but not with cio:task:digest: |
| RecoveryScan.PayloadLaws | src/recovery.py:45-90 | records are queued one by one: PENDING and INTERRUPTED as they are, RUNNING as INTERRUPTED, SUCCESS, FAILED and missing ones not at all |
| RecoveryScan.CompleteEnumerates | src/recovery.py:24-33 | if the pages hold every record key, otherwise only digest keys, and none twice, the ids returned are exactly the stored ones, each once |
| RecoveryScan.RecoverOne | src/recovery.py:46-90 | a RUNNING record is stored as INTERRUPTED and nothing else changes; what is then PENDING or INTERRUPTED is queued as stored |
| RecoveryScan.RecoverStrandedTasks | src/recovery.py:18-97 | for whatever the scan returned: exactly the scanned RUNNING records are demoted, the unfinished ones appended in order, their number returned; for a complete scan store and payloads are a recovery of the whole store |
| RecoveryScan.CountPayloads | src/recovery.py:44-90 | as many payloads as there are unfinished records among the ids visited |
| RecoveryScan.RecoveryExact | src/recovery.py:44-90 | visiting every record once leaves no RUNNING record, changes only RUNNING to INTERRUPTED, queues exactly one payload per unfinished record equal to its stored value, and changes no record when repeated |
| RecoveryScan.ScanIsExact | src/recovery.py:18-97 | what the scanner leaves after a complete scan is such a recovery: filter, loop and exactness composed |
| Conservation.WriterStep | src/worker.py:143-210 | every status write of a worker is one of the five legal continuations of what it was doing |
| Conservation.CoreStep | src/worker.py:85-123 | every step of every participant, and every loss of queue entries, keeps the single-carrier invariant; recovery does if it finds the queue empty |
| Conservation.CarriersExact | src/worker.py:85-123 | under the invariant an unfinished, not stranded task has one carrier among handlers, queue entries and workers; any other has none |
| Conservation.StrandedStep | src/worker.py:85-123 | a step leaves a task stranded iff it cancels or crashes its carrier or loses its queue entry, or the task was stranded and is not recovered |
| Conservation.CarrierConservation | src/worker.py:70-123 | in all orderly runs of N workers and handlers a task has exactly one carrier iff it is unfinished and no crash, cancellation or loss took its carrier since the last recovery, and otherwise none |
| Conservation.UndisturbedConservation | src/worker.py:70-123 | in orderly runs without crash, cancellation and loss every unfinished task has exactly one carrier, and no other task has any |
| Lifecycle.RecordsStep | src/worker.py:143-294 | every step keeps: PENDING undecided and unretried, later states decided, retry limit respected, attempts within budget |
| Lifecycle.LifecycleMoves | src/models/task.py:55-63 | though transition is unguarded, every step changes a stored status only along the life cycle and never the request |
| Lifecycle.StatusStep | src/worker.py:143-210 | of all steps of all participants, exactly which store RUNNING, SUCCESS, FAILED and INTERRUPTED, and which raise retry_count: SUCCESS only a completed stream, retry_count only a retriable failure below the limit |
| Lifecycle.TerminalIsAbsorbing | src/models/task.py:61-63 | in orderly runs a record stored as SUCCESS or FAILED never changes again |
| Lifecycle.CountersRun | src/worker.py:170-171 | in orderly runs the history counters equal the numbers of RUNNING entries and of recoveries |
| Lifecycle.BoundedAttempts | src/worker.py:267-294 | in orderly runs a task enters RUNNING at most retry_count + recoveries + 1 times, and retry_count stays within the limit |
| Lifecycle.SnapshotAgreement | src/task_queue/queue.py:25-42 | in every state of an orderly run each queued payload is the stored record and is PENDING or INTERRUPTED; modes fit statuses, RESUME for the empty requirement |
| Exclusion.TimedStep | src/worker.py:86-141 | with interval + delay below the TTL, every step keeps each heartbeating worker's lease its own and unexpired |
| Exclusion.MutualExclusion | src/worker.py:86-141 | then in every reachable state, crashes included, one worker per project has a heartbeat and its next refresh succeeds; with fast releases one is between acquire and release |
| Exclusion.AttendedStep | src/worker.py:190-203 | a step leaves a RUNNING record without its worker iff it crashes a streaming worker or cancels it between a retriable failure and its record |
| Exclusion.OneRunningPerProject | src/worker.py:170-210 | then in orderly runs at most one stored task per project is RUNNING, of those whose carrier was not hit since the last recovery; and of all, if no step of the run abandons a stream |
| Collision.SlowHeartbeatsCollide | src/config.py:40-50 | otherwise a run leads to two workers streaming, and two RUNNING records, of one project |
| Collision.SlowReleasesCollide | src/worker.py:117-123 | if the release delay does not fit, a run leads to two workers between acquire and release of one project |
| Collision.AbandonedStreamsCollide | src/worker.py:190-192 | however generous the timing, a run without any crash leads to two RUNNING records of one project |
| Collision.ExclusionIffTimely | src/worker.py:86-141 | the exact conditions: each form of exclusion holds in all runs (for RUNNING records, in all orderly runs) iff its sum of interval and delays is below the TTL |
| Dedup.AdmitsExactly | src/api.py:152-157 | a request passes both checks iff the project has no PENDING or RUNNING task and no unfinished task has its digest key |
| Dedup.SaveConsistent | src/api.py:172 | saving an admitted request keeps records, both indexes and uniqueness consistent |
| Dedup.UpdateConsistent | src/task_queue/store.py:114-127 | so does any non-PENDING update of an unfinished task, although a terminal one deletes the digest key unconditionally |
| Dedup.SaveConsistentIff | src/api.py:152-172 | whenever the checks were made, a save keeps the store consistent iff at that moment no unfinished task has its key and no PENDING one its project |
| Dedup.RaceIff | src/api.py:152-172 | any number of requests checked against one store and then all saved keep it consistent iff no two clash |
| Dedup.FirstRequestsRace | src/api.py:152-172 | two first requests of a project both pass the checks, and saving both breaks consistency |
| Dedup.SecondCheckStopsClashes | src/api.py:152-172 | with the second check after the first save, exactly the clashing requests are stopped |
| Dedup.ConsistentStep | src/api.py:152-173 | every protocol step keeps the store consistent while tasks have a single carrier |
| Dedup.DedupUniqueness | src/api.py:152-173 | in every state of an orderly run, creations being one step, at most one PENDING task per project and one unfinished task per project and non-empty requirement, INTERRUPTED ones included |
| Dedup.DigestAgreement | src/task_queue/store.py:181-190 | in every state of an orderly run, creations being one step, find_by_digest answers iff an unfinished task with this digest key is stored, and with NUL-free names iff one with exactly this project and non-empty requirement is |
| Restart.RecoveryAddsOneCarrier | src/recovery.py:45-90 | from any state at startup, with no handler and no worker left, recovery adds one carrier to each unfinished task and none to any other |
| Restart.UniqueAfterRecoveryIff | src/recovery.py:89 | whatever was queued, no task has two carriers after a restart iff nothing of the queue survived it |
| Restart.RecoveryRestores | src/recovery.py:45-90 | if nothing of the queue survived, every unfinished task is queued exactly once, none stranded, none RUNNING |
| Restart.FinishedRunsAgain | src/recovery.py:89 | from every such state with a surviving queue and some worker, an orderly run completes a queued task and then starts it again |
| Restart.RestartIsSafeIff | src/recovery.py:45-90 | given a worker, whatever was queued: all orderly runs after recovery keep to the life cycle, and keep terminal records, iff nothing of the queue survived |
| Restart.SurvivingQueueBreaksLifecycle | src/task_queue/queue.py:29 | such states are reached: one run from the start stores a task as SUCCESS and later as RUNNING |
| Replicas.RescanAddsOneCarrier | src/recovery.py:45-90 | beside live workers, handlers and queue too, recovery adds one carrier to each unfinished task and none to any other |
| Replicas.RescanIsUniqueIff | src/recovery.py:45-90 | no task has two carriers after such a recovery iff every unfinished task was stranded |
| Replicas.LiveStreamLeavesLifecycle | src/recovery.py:63-68 | a stream that is live during the recovery and then succeeds stores SUCCESS over INTERRUPTED |
| Progress.WorkStep | src/worker.py:91-99 | every start, finish, failure or retry uses up remaining work; re-queuing after contention and all other steps keep it |
| Progress.WorkBoundsRuns | src/worker.py:267-294 | undisturbed, N workers take at most as many productive steps as there is work |
| Orphans.TokensStep | src/worker.py:86-90 | no two workers between acquire and release ever hold the same token |
| Orphans.OrphansStep | src/worker.py:86-123 | a step leaves a live lock without a living holder iff it crashes a lock owner, or cancels a worker whose lock was just set or whose release was not sent |
| Orphans.TendedRun | src/worker.py:117-123 | in runs without such steps every live lock belongs to a worker between acquire and release |
| Orphans.RefusedForAReason | src/worker.py:91-99 | while no lock is orphaned, a task is put back only while another live worker holds its project's lock |
| Contention.ProgressIsPossible | src/worker.py:70-123 | while an unfinished task is carried and a worker is alive, locks orphaned or not, and whatever engines, checks and streams answer, some undisturbed run uses up work within one TTL |
| Contention.DrainIsPossible | src/worker.py:70-123 | for every way the environment chooses engine failures, checks and stream outcomes, some schedule finishes every task that is not stranded, strands no other, and waits at most one TTL for every unit of work |
| Contention.NeverStuck | src/worker.py:70-123 | that holds from every state of every orderly run in which a worker is left, whatever crashed or was cancelled before |
| Workers.Worker.HandleRetriable | src/worker.py:267-294 | below the limit: retry_count raised by one, INTERRUPTED and re-queued as stored; at the limit: FAILED and the channel closed |
| Workers.Worker.Stream | src/worker.py:256-261 | publishes every event of the stream in order |
| Workers.Worker.Settle | src/worker.py:179-210 | the events in order, then the record each stream outcome stores, what is re-queued, and one or two DONEs |
| Workers.Worker.RunLocked | src/worker.py:143-210 | SUCCESS iff it started and completed; INTERRUPTED iff it was cancelled or failed retriably below the limit; else FAILED; retry_count, mode, the records written (RUNNING first iff it started), indexes, what is re-queued and all messages, on the channel of the task |
| Workers.Worker.Heartbeat | src/worker.py:125-141 | refreshes until a refresh fails and touches nothing but the lock |
| Workers.Worker.Execute | src/worker.py:85-123 | refused iff a live lease exists, and then the task is put back unchanged; acquired: all that the locked execution promises, and no live lock of the project is left nor any other touched |
| Workers.Worker.Turn | src/worker.py:72-76 | one turn of the loop: an empty poll changes nothing; else the first queued task is executed, with all that promises, one allowed execution is used up, and no live lock is left |
| Workers.Worker.Run | src/worker.py:70-79 | with one worker and no foreign lock, told to stop after any number of polls, the loop executes the first queued task again and again, within the allowed executions; with as many polls as those it drains the queue: all tasks terminal, no digest key, no live lock, unless a cancellation ends it |
| Workers.StoreStaysConsistent | src/worker.py:143-210 | one execution keeps the store consistent and changes just the record of its task |
| Workers.ExecutionKeeps | src/worker.py:70-123 | an execution not cancelled keeps queue and store in step and uses up an allowed execution |
| Workers.BeatsKeepTheOwner | src/worker.py:125-141 | a heartbeat never changes the owner of its lock nor any other lock |
| Workers.LockIsGone | src/worker.py:117-123 | no live lock is left after an execution, however its heartbeat fared |
| Api.CreateTask | src/api.py:130-178 | if no PENDING or RUNNING task is listed for the project and no stored task has its digest key: a PENDING, undecided, unretried task with exactly the given fields is saved, enqueued and returned; else such a task is returned, the project's first, and nothing changes |
| Api.AnswersAreUnfinished | src/api.py:152-178 | in a consistent store every answer is an unfinished task of the same project or digest key, stored as returned |
| Conformance.RunLockedConforms | src/worker.py:143-210 | the locked execution is a run of protocol steps with the same effect on store, queue and locks |
| Interleaving.BeatsConform | src/worker.py:125-141 | the heartbeat coroutine, paced by its interval and delay, is a run of refresh and clock steps with the same effect on the lock |
| Interleaving.BeatsCommute | src/worker.py:101-107 | a step under the lock and a step of the heartbeat or clock after it can change places |
| Interleaving.ShufflesAgree | src/worker.py:101-107 | every interleaving of the steps under the lock with the heartbeat is a run to the same state |
| Interleaving.ExecutionConforms | src/worker.py:85-123 | however its steps and beats interleave, a whole acquired execution is a run of the protocol with the promised effect on store, queue and locks, after which the worker is back in its loop or, cancelled, out of it |
| Bystanders.BeatsAre | src/worker.py:125-141 | any run of refreshes and clock steps has the heartbeat's effect on the lock for the times of its refreshes |
| Bystanders.RunSeen | src/worker.py:85-123 | while a worker holds its lock, a run in which others refresh and release theirs is, for it, the run of its own steps |
| Bystanders.EveryExecutionConforms | src/worker.py:85-123 | every run of an execution, however it interleaves with its heartbeat, the clock and other workers that refresh or release, has the promised effect on store, queue and its project's lock |
| Conformance.RefusalConforms | src/worker.py:91-99 | so is a refused execution |
| Conformance.CreateConforms | src/api.py:152-173 | the endpoint creates exactly when the protocol can, as its create and enqueue steps |
| Commands.CommandsMakeOperations | src/task_queue/store.py:84-94 | run without interruption the commands of a save or update are the whole operation |
| Commands.SoundStep | src/task_queue/store.py:120-127 | every single Redis command keeps both indexes sound |
| Commands.IndexesAlwaysSound | src/task_queue/store.py:84-94 | under every interleaving of commands, deaths of savers included, project sets and digest keys point only to stored records of that project and requirement |
| Commands.ClosedStaysUnreferenced | src/task_queue/store.py:120-127 | once a terminal update has completed, no digest key ever points to that task again |
| Commands.StaleAnswersAreClosing | src/task_queue/store.py:181-190 | a lookup answers with a finished task iff that task's key deletion is outstanding |
| Events.EventBus.Publish | src/event_bus.py:38-52 | appends the event to the channel log |
| Events.EventBus.Close | src/event_bus.py:54-56 | appends the sentinel |
| Events.Subscribe | src/event_bus.py:58-114 | poll by poll up to the first DONE: an event is yielded at once with its time, a keepalive iff a poll is empty and the last yield, or the subscription, is at least one interval old; nothing else |
| Events.SubscriberDelivers | src/event_bus.py:74-114 | with keepalives erased it yields exactly the events received before the first DONE, in order |
| Events.KeepalivesAreSpaced | src/event_bus.py:87-90 | a keepalive comes no earlier than one interval after the previous yield |
| Events.KeepalivesAreDue | src/event_bus.py:70-93 | while polls are empty and take at most P, yields are less than interval + P apart |
| Events.NeverSilent | src/event_bus.py:70-93 | after every empty poll, events or not before it, less than one interval has passed since a yield |
| Events.EventGenerator | src/api.py:259-275 | sends the items in order, keepalives included, until the client has left or workflow_complete or workflow_failed was sent, and closes the channel exactly in the latter case |
| Events.FramesAreACut | src/api.py:259-275 | the frames are the items through the first terminal one, cut where the client left |
| Events.TerminalIsUniqueAndLast | src/sse_utils.py:14-28 | only the last frame can be terminal |
| Events.StreamDelivers | src/api.py:259-275 | a connected client gets exactly the channel log through the first terminal event or before the first DONE |
| Broadcast.EachGetsItsDue | src/event_bus.py:58-114 | in every reachable state of a channel with many subscribers each connected one has sent exactly what is due since it joined |
| Truncation.DoneNeverTruncates | src/api.py:273-275 | a subscriber that joins while no DONE is owed is due, in every continuation, what the workers alone publish, whatever DONE others send |
| Truncation.InTimeMeansNothingOwed | src/api.py:273-275 | none is owed as long as no terminal event was published |
| Truncation.OwedDoneCuts | src/api.py:271-275 | if one is owed at the join, then whatever the workers go on to publish, in some continuation the new subscriber stays connected, gets nothing and is over |
| Truncation.SafeToJoinIff | src/api.py:259-275 | in every reachable state of a channel: a new subscriber gets what the workers publish, however things go on, iff no DONE is owed |
| Attempts.AttemptIsAll | src/worker.py:179-210 | a subscriber that joins during an attempt is due the rest of that attempt through its first terminal event, whatever is published later |
| Attempts.TerminalFrameIff | src/worker.py:190-193 | it is due a terminal frame iff that very attempt publishes a terminal event after it joined |
| Attempts.StreamEndsWithAttempt | src/api.py:259-275 | on a channel with any number of subscribers: whoever joins during an attempt, stays connected and is over has sent the rest of the attempt, with a terminal frame iff the attempt had a terminal event left; that is sure iff no DONE is owed at the join or no event is left |
| Attempts.LateDoneCutsRetry | src/api.py:271-275 | after one attempt that publishes workflow_failed, a state is reached in which every attempt with an event left can be cut off for those who join |
| Attempts.RetryHidesItsEnd | src/worker.py:190-193 | after a retriable attempt without a terminal event its subscribers never see the terminal event of the retry, those of the retry do |
| Engines.EngineFactory.Get | src/engine_factory.py:262-295 | for every request, whatever is cached: the exact fields the engine is built from - caller keys over defaults, or the configuration file, or the five settings, each with the resolved work dir - and exactly when there is no answer; a failed build leaves the cache as it was |
| Engines.StripIs | src/engine_factory.py:87-93 | trimming removes exactly the white space at both ends |
| Engines.EngineFactory.Clear | src/engine_factory.py:298-300 | empties the cache |
| Engines.MergeFailsIff | src/engine_factory.py:129-145 | merging fails iff the caller's model or key, or the default of a missing one, is blank or no string |
| Engines.EmptyModelIsNotDefaulted | src/engine_factory.py:125-145 | an empty model of the caller fails whatever the environment offers |

## Left out

- Workers.Worker.Run: no task arrives while the loop runs, and there is no pause after a refusal, since no other worker holds a lock.
- Workers.Worker.Execute: cancellation is modelled at the stream; at every other await it is a step of the protocol (`Cancel`, `Abandon`).
- Dedup.DedupUniqueness: takes the checks and the save of `create_task` as one step, since without that it is false, as `Dedup.FirstRequestsRace` shows; `Dedup.SaveConsistentIff` has the exact condition.
- Conservation.CarrierConservation: for orderly runs, as are the theorems of `Lifecycle` and `Dedup` over runs and `Exclusion.OneRunningPerProject`; `Restart.RecoveryAddsOneCarrier` and `Restart.RestartIsSafeIff` say what happens otherwise.
- Commands.IndexesAlwaysSound: each task has one writer at a time, and a saver that dies before its SADD leaves a record that no project set holds.
- Contention.ProgressIsPossible: states that work can always be used up, not that a scheduler must do so; two workers may refuse each other's tasks for as long as a lock is held.
- Interleaving.ExecutionConforms: constructs an execution during which no other worker has to refresh or release; `Bystanders.EveryExecutionConforms` covers all runs in which others do.
- Bystanders.EveryExecutionConforms: the other workers do nothing to store or queue meanwhile, so that the effect on these is the execution's own.
- Workers.Worker.RunLocked: records, queue entries and messages are each given in order, but not the order between a record, an entry and a message of one execution.
- FastAPI routing, request validation, uvicorn, signal handling and the Redis connection (`src/main.py`, `src/redis_client.py`): wiring.
- The CIO-Agent library, which is not part of this model: engines, project and checkpoint checks are oracles that may fail.
- Threads and the event loop: `TaskStore.update` (`src/task_queue/store.py:103-112`) has the effect of `async_update`, and the stream is a sequence of published events followed by one outcome; blocking, five-second timeouts and the lookup of a running loop inside an executor thread are not modelled.
- The `except LockStolenError` paths (`src/worker.py:108-116`, `src/worker.py:195`): the only raise is in the heartbeat coroutine, where it is swallowed.
- JSON and Pydantic: payloads that do not parse, in the queue, the store or a pub/sub message with a non-object body.
- Timestamps, `status_detail`, logging, correlation ids, response copying and the schema of `config_json`: no property beyond copying.
- Redis TTLs as whole seconds: leases here are real-valued and end at the instant of expiry.
- The order of SMEMBERS and of a dict: any listed task may be the one found.
- White space beyond ASCII in `strip()`, and floating-point numbers in configuration text.
- Replicas.LiveStreamLeavesLifecycle: recovery beside live replicas is one step, not part of the protocol's runs; a crash in the middle of recovery is left out.
- `src/models.py`, shadowed by the package of that name.

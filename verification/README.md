# fastworker, modelled and proved in Dafny

fastworker is an in-process job pool written in Go: callers submit jobs, a set of workers takes
them from a fast path, a FIFO, a delayed priority queue or a spill, runs them under per-key rate
and concurrency limits, retries them with a backoff, and keeps the ones that fail for good as dead
letters. This project models its queues, limiters and futures as classes and specification
functions, and its concurrent parts as transition systems, and proves what they promise over every
interleaving and every run.

`dafny verify dfyconfig.toml` checks the whole project.

## How the project is laid out

| file | what it models |
|---|---|
| `RingProtocol.dfy` | the lock-free ring: any number of threads, every atomic access a step of its own |
| `RingArithmetic.dfy` | its 64-bit arithmetic: doubling, masking, wrapped differences |
| `Ring.dfy` | the ring as a class over arrays, as one thread alone sees it |
| `Fifo.dfy` | the blocking FIFO's circular buffer as a class |
| `FifoMonitor.dfy` | the same queue as a monitor with two condition variables |
| `PriorityQueue.dfy` | the binary heap behind the delayed queue |
| `PriorityWake.dfy` | how consumers of the delayed queue sleep and are woken |
| `TokenBucket.dfy` | the token bucket with debt |
| `KeyedSemaphore.dfy` | the per-key concurrency limit |
| `Futures.dfy` | the result future |
| `DeadLetters.dfy` | replaying and purging dead letters, for one caller alone |
| `PoolProtocol.dfy` | the pool: submitters, workers, replays and lifecycle calls as one transition system |
| `PoolThreads.dfy` | which threads exist; the pool state's one-way door |
| `PoolOwnership.dfy` | each job is in exactly one place |
| `PoolTiming.dfy` | when attempts start and how many there are |
| `PoolLife.dfy` | the life of one job: where it can go from where it is, and under which condition |
| `PoolSchedule.dfy` | which way a job goes, when it starts and who goes first, by what its submitter asked for |
| `PoolOutcomes.dfy` | what a job's future answers, and why it was refused or buried |
| `PoolRests.dfy` | what does not start: cancelled jobs, paused queues, paused and terminated pools |
| `PoolAdmission.dfy` | what a rejecting or blocking limiter admits |
| `PoolCounters.dfy` | the counters add up |
| `PoolFuture.dfy` | what happens to a job and its future over time |
| `PoolIdempotency.dfy` | who holds an idempotency key |
| `PoolLostKeys.dfy` | which jobs give their key back when they end, and which keep it for ever |
| `PoolSemaphore.dfy` | the concurrency limit across workers |
| `PoolRate.dfy` | the rate limit through the whole pool |
| `PoolDrain.dfy` | graceful shutdown leaves no work behind |
| `PoolRuns.dfy` | building concrete runs of the machine, a few steps at a time |
| `PoolReplayRuns.dfy`, `PoolSpillRuns.dfy`, `PoolLossRuns.dfy` | the runs that the modules on replays, the spill and lost keys need |
| `PoolSpill.dfy` | what the spill breaks, and in exactly which configurations |
| `PoolReplay.dfy` | when a replay makes two live jobs share a key |
| `PoolLosses.dfy` | the configurations that have runs which lose a key |
| `PoolOverrun.dfy` | how one job without a limit breaks the limit of the others |
| `PoolShutdown.dfy` | when concurrent shutdowns panic, and what a termination leaves |

## The pool machine

A state of `PoolProtocol` holds a clock, the pool state, the four containers and the dead list, a
record per job, a program counter per thread, the shared tables and the counters. A step is one
mutex-protected body, one atomic access, or a stretch of work on a job that only its owner can
reach. Its steps and the code they stand for:

| steps | code |
|---|---|
| `LoopMoves`, `Takes` | the worker loop, `pool.go:429-499`; `popSpill`, `pool.go:970-981` |
| `RunsBasic` | `executeBasic`, `pool.go:502-525` |
| `ExecMoves`, `Prepares` | `execute` up to the attempt, `pool.go:539-586` |
| `Reserves` | `delayForRateLimit`, `pool.go:885-921`; the concurrency delay and the start, `pool.go:577-608` |
| `Concludes` | the attempt and its outcome, `pool.go:628-702`; `future.go:89-95` |
| `PutsBack` | `requeue` with `pushBlock`, `pool.go:385-403` and `527-537`; `deadletter`, `pool.go:704-734` |
| `Leaves` | the key of a success and the deferred release, `pool.go:586` and `664-666` |
| `Begins`, `SubmitMoves`, `Submits`, `Accepts` | `submit`, `pool.go:192-324`; `pushBasic`, `pushFast`, `pushBlock`, `pool.go:332-403`; `admitRate`, `pool.go:854-883`; `trySpill`, `pool.go:947-968`; `DropOldestPush`, `queue/priority.go:120-133` |
| `TakesDead`, `Replays`, `Purges` | `dlq.go:12-48` |
| `Calls`, `Lives` | `Start`, `Pause`, `Resume`, `Shutdown`, `Terminate`, `pool.go:124-142` and `744-823` |
| `Outside` | the clock, pausing a named queue, `CancelJob` (`inspect.go:22-41`), a future's `Cancel` (`future.go:43-56`) |

`IsRun` strings the steps into runs of any length, with any number of clients and with the
configured number of workers. Fields called history in the comments are written by steps and read
by none; they give the theorems something to speak about (who handed over which reservation, which
attempt started when, where a job is).

## What turned out to be false

* **The spill and graceful shutdown.** A worker looks into the spill before its exit tests, which
  do not, and a submit spills in a step of its own after its push has failed. So a job whose submit
  returned before `Shutdown` began can be left in the spill when all workers have gone. This
  happens in some run of a configuration if and only if it has a spill path and submits may give
  up: a policy that does not wait, or a submit timeout (`PoolSpill.StrandsExactlyIfItSpills`, for
  any number of workers and any queue size).
* **The spill and delays.** `popSpill` does not look at `runAt`: a job delayed by an hour can start
  at once. Early starts are possible if and only if a spill path is configured
  (`PoolSpill.EarlyStartsNeedTheSpill`).
* **Replays and idempotency keys.** A replay puts a dead job back without consulting the key table.
  While every replay finds only jobs without a key on the dead list, two live jobs never share one
  (`PoolIdempotency.OneLiveJobPerKey`). The first other replay can break it. Take a state that such
  a run has reached, in which the pool is open, the heap has room for the dead list, and no dead
  letter names a lost key: replaying that list can lead to two live jobs with one key if and only
  if some job on it has a key (`PoolReplay.HarmfulExactly`). From any reachable state, also after
  harmful replays, it takes a keyed dead letter that the heap has room for and whose key is free,
  in the hands of a live job or about to be released, or shared by an earlier dead letter
  (`PoolReplay.ReplayBreaksIt`). A lost key does not help where a worker can run the dead letter
  again: its second death deletes the key of whoever has it (`PoolReplay.LostKeysBreakToo`).
* **Lost idempotency keys.** The key of a job that was cancelled before it ran, evicted by
  `DropOldestPush`, or rejected after it took its key is never released: later submits with that
  key are duplicates for ever. A job that took its key and has ended keeps it for ever in these
  three cases, and never has it again in all others (`PoolLostKeys.KeyLostExactly`). The steps that
  lose a key are a worker's that finds the job's context done (`pool.go:544`), a `DropOldestPush`
  into a full heap of which the job's item is a least one (`queue/priority.go:120-133`), and the
  refusal of the job's own submit (`PoolLostKeys.LosingSteps`), which comes from the rate limiter
  (`pool.go:244-248`) or from a spill that refuses after the push did (`pool.go:303-318`;
  `PoolLostKeys.RefusedAfterTaking`). The first and the last happen in some run of every
  configuration, evictions in some run if and only if the policy is `DropOldest`
  (`PoolLosses.WhoLosesKeys`).
* **Limits of one key.** A job with a concurrency key but without a positive limit is not counted
  when it starts and takes a count away when it ends. If all other jobs of the key have the limit
  m, one such job is enough for more than m of those others to run at once, in exactly the
  configurations with more than m workers; if every job of the key has a limit between 1 and m,
  never more than m run (`PoolOverrun.OneUncountedJobIsEnough`).
* **Evicted futures.** `DropOldestPush` drops the evicted job without a word: unless somebody
  cancels it, its future stays pending for ever (`PoolOutcomes.EvictedNeverAnswers`).
* **Huge rings.** The doubling loop of `NewRing` ends if and only if the requested size is at most
  2^63 (`RingArithmetic.NewRingTerminates`).
* **Two consumers of the delayed queue.** A consumer can sleep past a due item if and only if the
  queue has at least two consumers, whatever its capacity (`PriorityWake.OversleepingTakesTwo`).
* **Concurrent shutdowns.** Two `Shutdown` calls that both see an open pool close `scaleStop`
  twice, which panics in Go (`PoolShutdown.TwoShutdownsCanCrash`). A close panics if and only if
  there was one before it (`PoolShutdown.SecondCloseCrashes`). A run can be continued from one of
  its states to a panic, by steps of lifecycle calls alone, if and only if in it some `Shutdown`
  went on to stop the pool while another was between its load of the state and its close of the
  channel (`PoolShutdown.CrashesExactlyByOverlap`). So a caller that lets no two shutdowns overlap
  there is safe (`PoolShutdown.AloneNeverCrashes`).
* **The replay's documentation** says that attempts are reset when jobs are re-enqueued
  (`dlq.go:9-11`); the code resets them for jobs it fails to re-enqueue as well, and so does
  `DeadLetters.DeadLetterQueue.ReplayDeadLetters`.

## Model

| member | source | states |
|---|---|---|
| RingProtocol.RunInv | queue/ring.go:41-87 | in every reachable state of any number of pushers and poppers head <= tail <= head + n, every cell's seq says whether the newest position claimed on it is claimed, published or released, and each claim has one owner |
| RingProtocol.Refines | queue/ring.go:41-87 | the ring refines an atomic FIFO: the successful tail swap appends the pusher's value, the successful head swap removes the front, and no other step changes the FIFO |
| RingProtocol.DeliveredOnce | queue/ring.go:58-61 | a pop returns the value of the push that claimed the same position, and no position is delivered twice |
| RingProtocol.ExclusiveCells | queue/ring.go:58-60 | two threads in flight never own the same cell's value |
| RingProtocol.SeqGrows | queue/ring.go:60 | no step lowers a cell's seq |
| RingProtocol.OldPosition | queue/ring.go:46-56 | a cell's seq never falls behind a position claimed on it, so an old position never makes a push or a pop give up |
| RingProtocol.SwapsAreCurrent | queue/ring.go:46-51 | in every run, a tail swap that succeeds finds the cell free for its position, and a head swap that succeeds finds the value of the push that claimed that position published, whatever happened since the loads |
| RingProtocol.PushRefused | queue/ring.go:43-57 | when TryPush gives up, tail is its pos at that load and the ring is full or the pop one lap earlier is unfinished, however old pos is |
| RingProtocol.PopRefused | queue/ring.go:67-81 | when TryPop gives up, head is its pos at that load and the ring is empty or the push of that position is unfinished |
| RingArithmetic.NewRingTerminates | queue/ring.go:22-30 | the 64-bit doubling loop ends if and only if size <= 2^63 |
| RingArithmetic.RoundUp | queue/ring.go:23-30 | it ends with the least power of two that is at least size and at least 2 |
| RingArithmetic.MaskIsMod | queue/ring.go:45 | the bitwise and with n - 1 is the remainder modulo n, for n a power of two |
| RingArithmetic.DifferenceExact | queue/ring.go:46-47 | the signed difference of two wrapped counters is the true one while they are within 2^63 of each other |
| Rings.PushStores | queue/ring.go:41-62 | alone, a push finds its own position in the cell exactly when there is room, and then the contents grow by its value |
| Rings.PopStores | queue/ring.go:64-87 | alone, a pop finds the next position exactly when something is stored, takes the oldest value, clears the cell and frees it for the next lap |
| Rings.Ring.constructor | queue/ring.go:22-36 | a new ring is empty, has the least sufficient power of two of cells, and is an initial state of the protocol |
| Rings.Ring.TryPush | queue/ring.go:41-62 | alone, it appends unless the ring is full, and then changes nothing |
| Rings.Ring.TryPop | queue/ring.go:64-87 | alone, it removes and returns the oldest value unless the ring is empty |
| Fifo.FIFO.constructor | queue/fifo.go:21-29 | an empty open queue whose capacity is at least one |
| Fifo.FIFO.Close | queue/fifo.go:34-40 | closes the queue and keeps its values |
| Fifo.FIFO.TryPush | queue/fifo.go:42-75 | the value goes to the back exactly if the queue is open and has room, and nothing changes otherwise |
| Fifo.FIFO.TryPop | queue/fifo.go:77-98 | the oldest value leaves exactly if there is one, whether or not the queue is closed |
| Fifo.FIFO.PopLocked | queue/fifo.go:126-137 | one value leaves the front; the order of the others stays across the wrap |
| FifoMonitor.NoLostWakeup | queue/fifo.go:34-98 | while a pusher (popper) sleeps, the woken ones are at least as many as the free slots (values); with none woken the queue is full (empty); after Close nobody sleeps |
| FifoMonitor.FirstInFirstOut | queue/fifo.go:42-137 | across blocking and non-blocking callers, what was pushed is what was popped followed by what is queued |
| FifoMonitor.ClosedForGood | queue/fifo.go:34-40 | a closed queue stays closed and takes nothing in |
| FifoMonitor.TryOutcomes | queue/fifo.go:42-98 | in every run, a non-blocking push adds its value exactly if the queue is open and has room, and a non-blocking pop hands out the oldest value exactly if there is one, closed or not |
| FifoMonitor.CanBeDrained | queue/fifo.go:77-98 | every run, also one that has closed the queue, goes on by pops alone to a state in which all that was pushed has been popped |
| PriorityQueue.LessIsStrictTotal | queue/priority.go:17-25 | lessItem is irreflexive, transitive, asymmetric and total on distinct sequence numbers, and its negation is transitive |
| PriorityQueue.LeastMeans | queue/priority.go:17-25 | a least item is one that no other has an earlier RunAt than, nor the same and a higher priority, nor both the same and a lower sequence number |
| PriorityQueue.PriorityQueue.HeapPush | queue/priority.go:27-39 | sift-up ends, keeps the heap order and adds exactly the new item |
| PriorityQueue.PriorityQueue.SiftDown | queue/priority.go:50-70 | sift-down ends, restores the heap order and keeps the bag of items |
| PriorityQueue.PriorityQueue.HeapPop | queue/priority.go:41-71 | it removes an item with the earliest RunAt, of those one with the highest priority, of those the one with the lowest sequence number, and keeps the rest in heap order |
| PriorityQueue.PriorityQueue.Push | queue/priority.go:106-119 | it adds the item unless closed or at capacity, and never exceeds the capacity |
| PriorityQueue.PriorityQueue.DropOldestPush | queue/priority.go:120-133 | at capacity exactly the existing item that would come out next is evicted, by RunAt, priority and sequence number; the new one always gets in |
| PriorityQueue.PriorityQueue.TryPop | queue/priority.go:167-175 | it hands out that item when its RunAt has come, otherwise no item is due |
| PriorityQueue.PriorityQueue.PopAll | queue/priority.go:41-71 | pops to exhaustion leave nothing behind and hand out the bag in the order of a drain |
| PriorityQueue.DrainIsSorted | queue/priority.go:41-71 | any drain is a permutation of the bag, by RunAt, then by priority downwards, then by sequence number |
| PriorityQueue.DrainIsUnique | queue/priority.go:17-25 | with distinct sequence numbers the order of a drain is determined by the bag |
| PriorityWake.SingleConsumerWakes | queue/priority.go:134-238 | one consumer never sleeps past the RunAt of a queued item: an item earlier than its timer means a token is waiting |
| PriorityWake.TwoConsumersMayOversleep | queue/priority.go:134-238 | for any set of consumers with two different ones in it and any capacity, a run after which one of the two sleeps past a due item with nothing pending to wake it |
| PriorityWake.OversleepingTakesTwo | queue/priority.go:134-238 | for every set of consumers and every capacity, some run has a consumer sleep past a due item if and only if there are at least two consumers |
| TokenBucket.TokenBucket.constructor | rate_limiter.go:38-43 | a new bucket is full; a burst that is not positive means the rate |
| TokenBucket.TokenBucket.ReserveDelay | rate_limiter.go:53-84 | with the old tokens and rate times the elapsed time, up to burst, it takes a token if there is one, else refuses, or in queue mode goes into debt and waits exactly until the missing part is produced, in whole nanoseconds |
| TokenBucket.ReserveMeans | rate_limiter.go:53-84 | the same of a bucket value, which is what the pool works with |
| TokenBucket.TokenBucket.Allow | rate_limiter.go:44-47 | it grants exactly if the old tokens and what was produced since, up to burst, make a whole one |
| TokenBucket.ReservePays | rate_limiter.go:53-84 | a grant lowers tokens less refill by at least one, and fixes its ready instant by what is left |
| TokenBucket.WindowBound | rate_limiter.go:38-84 | between any two grants, those included, at most burst + rate times the time between their ready instants were granted, for reservations, allow grants and mixtures |
| TokenBucket.WindowBoundTruncated | rate_limiter.go:83 | truncating the waits costs at most one nanosecond of window |
| TokenBucket.AllowExactly | rate_limiter.go:44-47 | on a bucket that was full at first, after any mixture of operations, allow grants if and only if that exceeds burst + rate times the time for no window that opened with an earlier operation |
| TokenBucket.QueueExactly | rate_limiter.go:75-83 | the wait of a reservation is the least one with which it exceeds no such window |
| TokenBucket.ReadyMonotone | rate_limiter.go:53-84 | ready times never decrease, exactly and truncated |
| TokenBucket.DebtSpacing | rate_limiter.go:78-79 | reservations in debt are exactly 1 / rate apart |
| TokenBucket.QueueModeGrantsAll | rate_limiter.go:75-83 | in queue mode every reservation is granted, so the window bound counts them all |
| KeyedSemaphore.Semaphore.TryAcquire | rate_limiter.go:92-103 | it grants exactly when the key is held fewer than max times, and counts the grant |
| KeyedSemaphore.Semaphore.Release | rate_limiter.go:104-115 | it takes one count away and leaves no zero entry |
| KeyedSemaphore.ReleaseUndoesAcquire | rate_limiter.go:92-115 | release after acquire gives back the same map, whatever others hold |
| Futures.FutureAny.SetValue | future.go:25-29 | it overwrites the value, whether or not the future is done |
| Futures.FutureAny.Complete | future.go:31-41 | the first completion sets the error and, unless its value is missing, the value; later ones change nothing |
| Futures.FutureAny.Cancel | future.go:43-56 | it ends the job's context even when the future is done, completes with ErrCancelled, and reports whether it was the one to complete |
| Futures.FutureAny.Get | future.go:62-83 | it returns when the future is done or the caller's context has ended: the context's error, or the future's error if there is one, or its value; with both, either |
| Futures.AnswerChanges | future.go:25-56 | a call changes what a done future answers if and only if the future succeeded and the call sets another value |
| Futures.AnswerSettled | future.go:25-83 | a failed future is settled for ever, a successful one as long as no call sets another value |
| DeadLetters.DeadLetterQueue.ReplayDeadLetters | dlq.go:12-38 | the first jobs go back fresh and due at once, as many as the queue has room for; the rest stay listed in order, their attempts reset too; the error says whether any stayed |
| DeadLetters.DeadLetterQueue.PurgeDeadLetters | dlq.go:41-48 | it empties the list and returns how many it held |
| DeadLetters.RoomStep | dlq.go:25-34 | a push after others succeeds exactly while there is room, and after a refusal all later ones are refused |
| DeadLetters.EntriesAre | dlq.go:25 | the replayed items carry exactly those jobs with their own priority and sequence number, due at the time of their replay |
| PoolThreads.ClosingIsFinal | pool.go:744-823 | once the pool is stopping, stopped or terminated it never runs again, under all interleavings of the lifecycle calls |
| PoolThreads.RunStaffed | pool.go:124-143 | Start runs once and spawns each configured worker once; workers run worker code and clients client code |
| PoolOwnership.Conservation | pool.go:429-734 | in every reachable state each live job fills exactly one slot of the queues, the heap, the spill, the dead list or a thread's hands, and a finished one none |
| PoolOwnership.StepOwned | pool.go:192-742 | every step of submitters, workers, replays and lifecycle calls keeps containers and job places in agreement, the heap's RunAt included |
| PoolOwnership.ReplaysOwned | dlq.go:12-38 | a replay some of whose pushes fail, beside workers that dead-letter, neither loses nor duplicates a job |
| PoolOwnership.EvictOwned | queue/priority.go:120-133 | eviction takes exactly the least item's job out and puts the new one in |
| PoolTiming.NoEarlyStart | pool.go:566-598 | no attempt starts before its job's runAt, whatever set it, unless its job was last taken from the spill, which only a configured spill makes possible |
| PoolLife.JobsLiveByTheTables | pool.go:192-742 | in every run, every step leaves a job where it is or moves it along its life cycle: the next place, program counter and runAt, on the fields of its options and of the state |
| PoolLife.JobsEnterBySubmit | pool.go:192-225 | a new job has its caller's options, with the default for a missing attempt bound |
| PoolSchedule.BasicWayExactly | pool.go:325-330 | the basic way, where nothing is limited or delayed, is taken only by jobs without any key, queue, delay, start time, priority, timeout, future, metadata or second attempt, in plain pools; and all jobs elsewhere are not of that kind |
| PoolSchedule.FastMeansOrdinary | pool.go:353-355 | a job in the fast queue has no delay, no start time and normal priority |
| PoolSchedule.StartsWhenAsked | pool.go:249-256 | no worker starts on a job before the time of its submit plus its delay, nor before its RunAt, however often it is requeued, unless it has been in the spill or dead in between |
| PoolSchedule.HeapInOrder | queue/priority.go:17-25 | a worker takes a due job ahead of which no job in the heap is, by runAt, priority and sequence number; an eviction takes such a job too, and only from a full heap under DropOldest |
| PoolSchedule.LooksInOrder | pool.go:441-498 | in every run a worker takes from the fast queue only after finding the basic queue empty in the same turn of its loop, from the spill or the heap only after finding both empty, and from the heap at its first look only after finding the spill empty too |
| PoolSchedule.QueuesBounded | pool.go:332-403 | in every reachable state both FIFOs and the heap hold at most QueueSize jobs and the spill at most its bound |
| PoolRests.CancelledNeverStarts | pool.go:544-565 | a job cancelled while it waits, is dead or between attempts never starts another attempt |
| PoolRests.PausedQueueRests | pool.go:566-573 | while a queue stays paused, none of its jobs starts an attempt except those past the test when it was paused |
| PoolRests.PausedPoolRests | pool.go:429-440 | in a paused pool workers that have come to rest stay at rest and no attempt starts |
| PoolRests.TerminatedTakesNoMore | pool.go:431-434 | in a terminated pool a worker at the top of its loop takes no more work |
| PoolOutcomes.RefusedForAReason | pool.go:192-324 | every refused submit met, in some earlier state, a closing pool, a nil job, a full or closed fast path, a held key, a limiter without a token or a timeout, or a spill without room |
| PoolOutcomes.SpilledForAReason | pool.go:303-308 | a submit spills only after its queue has been closed or full |
| PoolOutcomes.WaitersAreServed | pool.go:332-403 | where policy and timeout let a submit wait, an admitted job is spilled or refused only by a closing pool |
| PoolOutcomes.LateIsTurnedAway | pool.go:195-211 | a submit that begins while the pool is closing, or without a job, is refused and its job never gets anywhere |
| PoolTiming.AttemptsBounded | pool.go:596-684 | attempts never exceed MaxAttempts, and every job waiting in a queue has one left |
| PoolCounters.CountersAddUp | pool.go:502-734 | submitted = rejected + accepted - replayed + submits in progress; started - completed - failed = attempts running; dlq + failures in progress = failed - retried + refused requeues |
| PoolFuture.AnswersStay | pool.go:641-720 | a future completes at most once and Get answers the same for ever, through cancellation while running and through replays |
| PoolFuture.PendingUntilTheEnd | pool.go:682-720 | a future is done only if its job was cancelled, is gone, or has been dead-lettered; so it is pending between a failed attempt and its retry |
| PoolOutcomes.ResultsKept | future.go:89-95 | a future holds the last result its job has set, whatever else happens to it |
| PoolOutcomes.SuccessAnswers | pool.go:641-653 | a job that succeeds without having been cancelled or dead answers the last result it set, for ever |
| PoolOutcomes.BurialAnswers | pool.go:704-720 | a job that is dead-lettered while its future is pending answers the error it is buried with, for ever |
| PoolOutcomes.RefusalAnswers | pool.go:312-315 | a dropped cancelled job answers ErrCancelled, a submit refused for lack of room ErrQueueFull |
| PoolOutcomes.CancelAnswers | inspect.go:22-41 | cancelling ends the context and completes a pending future with ErrCancelled |
| PoolOutcomes.FailureAnswers | pool.go:544-720 | whatever completes a future, its answer says what it was |
| PoolOutcomes.EvictedNeverAnswers | queue/priority.go:120-133 | the future of an evicted job that is never cancelled is pending for ever |
| PoolOutcomes.BuriedForAReason | pool.go:682-702 | a job is dead-lettered only after a permanent failure, its last allowed one or one while the pool closes, or after the heap refused to take it back |
| PoolFuture.GoneStays | pool.go:544-668 | jobs are never forgotten, keep their options, and one that succeeded, was cancelled, evicted, purged or rejected never comes back |
| PoolIdempotency.OneLiveJobPerKey | pool.go:237-243 | if replays find only jobs without a key, two live jobs never share an idempotency key |
| PoolIdempotency.RunKeys | pool.go:664-733 | if replays find only jobs without a key, the key table maps exactly the held keys, each to the one job that holds it |
| PoolLostKeys.KeyLostExactly | pool.go:237-318 | a job that took its key and has ended has it for ever after if it was cancelled, evicted or rejected, and never again otherwise |
| PoolLostKeys.EndedStays | pool.go:544-734 | such a job stays where it is, except that a dead letter may be purged, and holds its key exactly at the three losing ends |
| PoolLostKeys.LosingSteps | pool.go:544-565 | in every run, a step brings an unfinished job to a losing end if and only if it is a worker's that finds its context done, an eviction of a least item from a full heap under DropOldest, or the refusal of its own submit |
| PoolLostKeys.RefusedAfterTaking | pool.go:244-318 | a submit that holds its key is refused only by a rejecting limiter without a token, by a blocking one that timed out or saw the pool close, or by a spill that has no room or no path |
| PoolLosses.WhoLosesKeys | pool.go:244-318 | some run loses a key to a cancelled job and some to a rejected one in every configuration, some to an evicted one if and only if the policy is DropOldest, and none to any other end |
| PoolLosses.EvictionNeedsPolicy | queue/priority.go:120-133 | only DropOldest evicts |
| PoolReplay.ReplayBreaksIt | dlq.go:22-36 | from every reachable open state with a keyed dead letter that the heap has room for and whose key is free, held by a live job, about to be released, or named by an earlier dead letter, a run with one replay goes on to two live jobs with one key |
| PoolReplay.HarmfulExactly | dlq.go:12-38 | from an open state with harmless replays behind it, room for the dead list and no lost key on it, replaying that list can make two live jobs share a key if and only if some job on it has one |
| PoolReplay.UnlessLost | pool.go:237-243 | a key in the table that is not lost is held by a live job or about to be released |
| PoolReplay.LostKeysBreakToo | dlq.go:12-38 | from every reachable quiet state whose first dead letter is keyed and can run, a run goes on to two live jobs with one key, whoever has the key |
| PoolReplay.TwoLiveJobsShareAKey | dlq.go:12-38 | in every configuration some run from the start has two live jobs with one key |
| PoolSemaphore.AtMostLimit | pool.go:577-608 | if every job with key k has a limit between 1 and m, active[k] is the number of threads between acquire and release, no zero entry stays, and at most m attempts for k run |
| PoolSemaphore.AcquireSeesRoom | pool.go:577-586 | each acquire saw fewer holders than its own job's limit |
| PoolOverrun.OneUncountedJobIsEnough | rate_limiter.go:92-115 | with limits between 1 and m at most m attempts of a key run; one job of the key without a limit makes more than m jobs that all have the limit m run at once in some run, if and only if there are more than m workers |
| PoolRate.ReserveInTime | rate_limiter.go:53-84 | the n-th reservation of a bucket cannot be ready before n - burst tokens have been produced |
| PoolRate.StepRated | pool.go:885-921 | every step keeps each reservation with its one owner: a job waiting for it, a worker using it, an attempt that used it, or nobody |
| PoolRate.AttemptsWithinRate | pool.go:574-598 | a queue-mode bucket installed at t0 before any submit and never replaced lets at most burst + rate (t - t0) of its key's attempts start by t, plus a nanosecond for truncation, through requeues, concurrency delays, retries and replays; PoolSchedule.BasicWayExactly keeps the key's jobs off the basic way |
| PoolAdmission.AdmissionsWithinRate | pool.go:854-883 | a rejecting or blocking bucket installed at t0 before any submit and never replaced lets at most burst + rate (t - t0) submits pass by t |
| PoolDrain.Drained | pool.go:429-499 | after a graceful shutdown, when every worker has left, both fast queues and the heap are empty, and the spill too unless submits may give up and spill |
| PoolDrain.StepDraining | pool.go:441-498 | every step after the shutdown began keeps the drain invariant: a worker leaves only past three tests that all hold when it does |
| PoolSpill.SpillStrandsAJob | pool.go:449-465 | for every configuration that spills, with any number of workers and any queue size, a graceful run that ends with all workers gone and a job in the spill |
| PoolSpill.StrandsExactlyIfItSpills | pool.go:947-981 | a graceful run can strand a job if and only if the configuration has a spill path and a policy that does not wait or a submit timeout |
| PoolSpill.SpillStartsEarly | pool.go:970-981 | for every configuration with a spill, a run in which a job delayed by an hour starts at once |
| PoolSpill.EarlyStartsNeedTheSpill | pool.go:449-452 | some run starts an attempt before its job's runAt if and only if a spill path is configured |
| PoolShutdown.SecondCloseCrashes | pool.go:785-787 | in every run, a close of scaleStop panics if and only if an earlier step closed it |
| PoolShutdown.AloneNeverCrashes | pool.go:780-787 | while no Shutdown goes on to stop the pool with another between its load and its close, nobody panics |
| PoolShutdown.CrashesExactlyByOverlap | pool.go:780-787 | a run can be continued from one of its states to a panic by lifecycle calls alone if and only if two shutdowns overlapped in it |
| PoolShutdown.EndsAreComplete | pool.go:796-823 | once its callers are through, a terminated pool has its context cancelled and all its queues closed, and a stopped one its context cancelled |
| PoolShutdown.TwoShutdownsCanCrash | pool.go:780-787 | in every configuration some run with two callers of Shutdown panics |

## Left out

- HTTP admin and adapters, stores, spill file contents, Prometheus text, signals, configuration and cron parsing: input and output, or string code.
- Lifecycle events, hooks, callbacks, progress, middleware, metadata and builders: no-ops here; `plain` in the configuration says whether any of them is set, since that decides the fast path.
- Batch helpers, `Map`, `Group`, `WhenAll`, schedulers: thin wrappers around submit.
- `Once`, `Replace` and `SetRateLimit` while the pool runs: they rewrite the key table and the buckets under running jobs; the theorems on keys and rates are for runs without them.
- Autoscaling and `Resize`: the number of workers is fixed, so the idle exit of a worker never applies.
- Recycling job records through `sync.Pool`: every job has an identity of its own.
- Panics in jobs: an ordinary failed attempt, as with `RecoverPanics`; `Run` of a job is any sequence of result writes that ends in success or failure.
- `WaitIdle` and the `busy` counter, `Len` of the ring under concurrency: the source promises nothing exact about them.
- Progress: nothing is said about when a step is taken, so no theorem says that a future completes or a queue empties in the end; `FifoMonitor.CanBeDrained` says that it can.
- PoolSchedule.StartsWhenAsked: says nothing about a job that has been in the spill, which starts when it is taken (`PoolSpill.SpillStartsEarly`), or that was replayed, which is due at once (`dlq.go:22-24`).
- Float rounding: tokens are reals; only the final truncation of a wait is kept.
- pool.go as classes: its methods run concurrently, so they are steps of a relation on one state value; update in place is in the state, aliasing of a job record is the ownership theorem.
- `deadletter` and `CancelJob` are one step each, although their parts can interleave with others.
- PriorityQueue.PriorityQueue.HeapPush: sifts a sequence held in a field where the source swaps slice elements in place.
- Rings.Ring.TryPush: has no retry loop, because alone a swap always succeeds; the loop and its interference are in `RingProtocol`.
- DeadLetters.DeadLetterQueue.ReplayDeadLetters: takes the clock's readings as an argument and sees no other thread; interference is in `PoolOwnership.ReplaysOwned`.
- PoolIdempotency.OneLiveJobPerKey: asks that replays find only jobs without a key; `PoolReplay.HarmfulExactly` shows where that is needed.
- PoolReplay.HarmfulExactly: asks for room for the whole dead list and that no letter names a lost key; beyond that `PoolReplay.ReplayBreaksIt` needs room up to the letter only, and `PoolReplay.LostKeysBreakToo` covers lost keys where the pool is quiet and the letter can run at once, naming neither a rate limit nor a queue.
- PoolSemaphore.AtMostLimit: asks for a positive limit on every job of the key; `PoolOverrun.OneUncountedJobIsEnough` shows why.
- PoolDrain.Drained: asks that no submit or replay is past its state check when `Shutdown` stores its state, and that nobody terminates the pool.
- PoolRate.AttemptsWithinRate: t0 is the creation of the pool, as limiters are installed before the first call; a bucket installed under running jobs is not covered.
- PoolLostKeys.KeyLostExactly: asks that replays find only jobs without a key, since a replayed job deletes the key of whoever has it when it ends.

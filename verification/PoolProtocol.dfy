/** The job protocol of pool.go, dlq.go and inspect.go as a transition system: any number of
    submitters, a fixed number of workers, replays and lifecycle calls, in any interleaving.

    One step is one mutex-protected body, one atomic load, store or compare-and-swap, or a
    stretch of work on a job only its owner can reach. Hooks, events, callbacks, the store and
    middleware are no-ops; job identities are never reused. Fields marked history are written and
    never read by the protocol. */
module PoolProtocol {
  import opened Options
  import opened Futures
  import opened KeyedSemaphore
  import opened TokenBucket
  import PQ = PriorityQueue

  type JobId = nat
  type Item = PQ.Item<JobId>

  datatype Tid = Worker(w: nat) | Client(c: nat)

  datatype Phase = New | Running | Paused | Stopping | Stopped | Terminated

  /** `state >= stateStopping` */
  predicate Closing(p: Phase) {
    p.Stopping? || p.Stopped? || p.Terminated?
  }

  datatype Backpressure = Block | Reject | DropOldest | DropNewest

  datatype Config = Config(
    workers: nat, queueSize: nat, backpressure: Backpressure, submitTimeout: int,
    defaultMaxAttempts: nat,
    spill: bool, spillMax: int,  // spillPath != ""
    tracking: bool,
    plain: bool)                 // no store, tracking, ids, middleware, lifecycle or hooks

  /** normalizeConfig leaves these positive. */
  ghost predicate Normal(c: Config) {
    c.workers >= 1 && c.queueSize >= 1 && c.defaultMaxAttempts >= 1
  }

  datatype Opts = Opts(
    nilJob: bool, queue: Key, priority: int, delay: int, runAt: Option<int>, timeout: int,
    maxAttempts: int, ownBackoff: bool, metadata: bool, idempotency: Key,
    concurrency: Key, maxConcurrent: int, rateKey: Key, future: bool)

  datatype End = Succeeded | Cancelled | FailedBasic | Evicted | Purged | Rejected

  /** Where a job is (history; the invariant of PoolOwnership ties it to the containers). */
  datatype Place = Held(t: Tid) | InBasic | InFast | InSpill | InHeap | InDead | Gone(end: End)

  datatype Track = Track(place: Place, keyHeld: bool, reservation: Option<nat>)

  datatype Job = Job(
    opts: Opts, runAt: int, attempt: int, rateReadyAt: Option<int>,
    cancelled: bool,  // its context
    future: Future<int>, indexed: bool,
    track: Track)     // history

  datatype Mode = QueueMode | RejectMode | BlockMode

  datatype Owner = OfJob(j: JobId) | OfThread(t: Tid) | UsedBy(attempt: nat) | Dropped

  /** One reservation a queue-mode bucket handed out (history). */
  datatype Reservation = Reservation(ready: int, owner: Owner)

  datatype Limiter = Limiter(mode: Mode, bucket: Bucket, log: seq<Reservation>)

  /** One started attempt (history): spilled tells whether its job was last taken from the spill. */
  datatype Attempt = Attempt(job: JobId, at: int, runAt: int, spilled: bool, rateKey: Key, reservation: Option<nat>)

  datatype Counters = Counters(
    submitted: int, accepted: int, rejected: int, started: int, completed: int, failed: int,
    retried: int, dlq: int, rateDelayed: int,
    replayed: int, refused: int)  // history

  /** The program counter of the loop in worker. */
  datatype LoopPc =
    | Top | PauseCheck | PauseWait | PopBasic | PopFast | PopSpill | TryHeap | LenHeap | TimedHeap
    | TestPhase | TestBasic | TestFast | TestHeap | TimedBasic | PopFastAgain | TimedHeapAgain | Select | Exited

  datatype BasicPc = BasicStart | BasicRun | BasicFailed

  /** Inside execute; spilled and r (the reservation in use) are history. */
  datatype ExecPc =
    | Dequeued(spilled: bool) | PauseTest(spilled: bool) | Rate(spilled: bool)
    | Delaying(delay: int, k: nat)
    | Acquire(spilled: bool, r: Option<nat>) | Start(spilled: bool, r: Option<nat>)
    | Run | RunSucceeded | RunFailed(err: Error, permanent: bool)
    | Requeue(held: bool) | RequeueCheck(held: bool) | Burying(err: Error, held: bool)

  datatype SubmitPc =
    | Entered | Routing | BasicPush | Keying | Admitting | AdmitCheck | Creating
    | FastPush | HeapPush | HeapCheck | Spilling | Rejecting(full: bool)

  datatype ReplayPc = ReplayLoop | ReplayPush | ReplayBack | ReplayAccept

  datatype LifePc =
    | Spawning(i: nat) | ShutdownLoad | ShutdownStore | ShutdownScale | ShutdownWait | ShutdownCancel | Crashed
    | TerminateCancel | CloseFirst(shutdown: bool) | CloseSecond(shutdown: bool) | CloseThird(shutdown: bool)

  datatype Pc =
    | Loop(l: LoopPc)
    | Basic(j: JobId, b: BasicPc)
    | Exec(j: JobId, x: ExecPc)
    | Unkeying(j: JobId) | Releasing(j: JobId)   // ends of execute that no longer hold the job
    | Idle
    | Submit(j: JobId, u: SubmitPc) | Accepting(j: JobId)
    | ReplayCheck | ReplayTake | Replay(items: seq<JobId>, r: ReplayPc)
    | Life(y: LifePc)

  datatype Lifecycle = Lifecycle(
    phase: Phase, ctxDone: bool, scaleClosed: bool, startDone: bool,
    basicClosed: bool, fastClosed: bool, heapClosed: bool)

  datatype Queues = Queues(basic: seq<JobId>, fast: seq<JobId>, heap: multiset<Item>, spill: seq<JobId>,
                           dead: seq<JobId>)

  datatype Shared = Shared(
    idemp: map<Key, JobId>, active: map<Key, int>, limiters: map<Key, Limiter>, pausedQueues: set<Key>)

  datatype Pool = Pool(
    now: int, life: Lifecycle, q: Queues, jobs: map<JobId, Job>, threads: map<Tid, Pc>, sh: Shared,
    n: Counters, attempts: seq<Attempt>)

  ghost predicate Init(c: Config, s: Pool) {
    && Normal(c)
    && s.life.phase == New && !s.life.ctxDone && !s.life.scaleClosed && !s.life.startDone
    && s.q.basic == s.q.fast == s.q.spill == s.q.dead == [] && s.q.heap == multiset{}
    && !s.life.basicClosed && !s.life.fastClosed && !s.life.heapClosed
    && s.jobs == map[] && s.threads == map[] && s.sh.idemp == map[] && s.sh.active == map[]
    && (forall k | k in s.sh.limiters ::
          exists rate, burst :: s.sh.limiters[k] == Limiter(s.sh.limiters[k].mode, NewBucket(rate, burst, s.now), []))
    && s.n == Counters(0, 0, 0, 0, 0, 0, 0, 0, 0, 0, 0) && s.attempts == []
  }

  const MILLISECOND: int := 1_000_000

  // ---- Pure decisions of the source ----

  /** applyDefaults' and submit's treatment of a missing attempt bound. */
  function Normalized(c: Config, o: Opts): Opts {
    if o.maxAttempts <= 0 then o.(maxAttempts := c.defaultMaxAttempts) else o
  }

  predicate UseBasicFastPath(c: Config, o: Opts) {
    && !o.future && c.plain && !c.tracking && !c.spill
    && o.queue == NO_KEY && o.priority == 0 && o.delay == 0 && o.runAt.None? && o.timeout == 0
    && o.maxAttempts == 1 && !o.ownBackoff && !o.metadata
    && o.idempotency == NO_KEY && o.concurrency == NO_KEY && o.rateKey == NO_KEY
  }

  predicate UseFastQueue(o: Opts, now: int, runAt: int) {
    o.priority == 0 && o.delay == 0 && o.runAt.None? && runAt == now
  }

  function FirstRunAt(now: int, o: Opts): int {
    var r := if o.delay > 0 then now + o.delay else now;
    if o.runAt.Some? && o.runAt.value > r then o.runAt.value else r
  }

  predicate NonBlocking(c: Config) {
    c.backpressure == Reject || c.backpressure == DropNewest
  }

  /** A FIFO push may give up: closed, or full under a policy or timeout that does not wait. */
  predicate FifoRefuses(c: Config, q: seq<JobId>, closed: bool) {
    closed || (|q| >= c.queueSize && (NonBlocking(c) || c.submitTimeout > 0))
  }

  predicate HeapFull(c: Config, s: Pool) {
    |s.q.heap| >= c.queueSize
  }

  predicate SpillRefuses(c: Config, s: Pool) {
    !c.spill || (c.spillMax > 0 && |s.q.spill| >= c.spillMax)
  }

  ghost predicate NoneDue(s: Pool) {
    forall it | it in s.q.heap :: it.runAt > s.now
  }

  /** The job's context, a child of the pool's, is done. */
  predicate ContextDone(s: Pool, j: JobId) {
    s.life.ctxDone || (j in s.jobs && s.jobs[j].cancelled)
  }

  function QueueItem(j: JobId, job: Job): Item {
    PQ.Item(j, job.opts.priority, j, job.runAt)
  }

  // ---- Control steps: one thread moves on, nothing else changes ----

  ghost predicate LoopMoves(s: Pool, l: LoopPc, l': LoopPc) {
    match l
    case Top => l' == if s.life.phase == Terminated then Exited else PauseCheck
    case PauseCheck => l' == if s.life.phase == Paused then PauseWait else PopBasic
    case PauseWait => l' == if s.life.ctxDone then Exited else PauseCheck
    case PopBasic => s.q.basic == [] && l' == PopFast
    case PopFast => s.q.fast == [] && l' == PopSpill
    case PopSpill => s.q.spill == [] && l' == TryHeap
    case TryHeap => NoneDue(s) && l' == LenHeap
    case LenHeap => l' == if s.q.heap == multiset{} then TestPhase else TimedHeap
    case TimedHeap => l' == TestPhase
    case TestPhase => l' == if s.life.phase == Stopping then TestBasic else TimedBasic
    case TestBasic => l' == if s.q.basic == [] then TestFast else TimedBasic
    case TestFast => l' == if s.q.fast == [] then TestHeap else TimedBasic
    case TestHeap => l' == if s.q.heap == multiset{} then Exited else TimedBasic
    case TimedBasic => s.q.basic == [] && l' == PopFastAgain
    case PopFastAgain => s.q.fast == [] && l' == TimedHeapAgain
    case TimedHeapAgain => l' == Select
    case Select => l' == Top || (s.life.ctxDone && l' == Exited)
    case Exited => false
  }

  ghost predicate ExecMoves(c: Config, s: Pool, j: JobId, x: ExecPc, x': ExecPc) {
    && j in s.jobs
    && var job := s.jobs[j];
       match x
       case Dequeued(sp) => !ContextDone(s, j) && x' == PauseTest(sp)
       case PauseTest(sp) => (job.opts.queue == NO_KEY || job.opts.queue !in s.sh.pausedQueues) && x' == Rate(sp)
       case Rate(sp) =>
         && x' == Acquire(sp, None)
         && var k := job.opts.rateKey;
            k == NO_KEY || (job.rateReadyAt.None? && (k !in s.sh.limiters || s.sh.limiters[k].mode != QueueMode))
       case RunFailed(err, permanent) =>
         (job.attempt >= job.opts.maxAttempts || permanent || Closing(s.life.phase)) && x' == Burying(err, true)
       case Requeue(held) => (s.life.heapClosed || HeapFull(c, s)) && x' == RequeueCheck(held)
       case RequeueCheck(held) => !Closing(s.life.phase) && x' == Requeue(held)
       case _ => false
  }

  ghost predicate SubmitMoves(c: Config, s: Pool, j: JobId, u: SubmitPc, u': SubmitPc) {
    && j in s.jobs
    && var o := s.jobs[j].opts;
       match u
       case Entered => u' == if Closing(s.life.phase) || o.nilJob then Rejecting(false) else Routing
       case Routing => u' == if UseBasicFastPath(c, o) then BasicPush else Keying
       case BasicPush => FifoRefuses(c, s.q.basic, s.life.basicClosed) && u' == Rejecting(false)
       case Keying =>
         || (o.idempotency == NO_KEY && u' == Admitting)
         || (o.idempotency != NO_KEY && o.idempotency in s.sh.idemp && u' == Rejecting(false))
       case Admitting =>
         && u' == Creating
         && (o.rateKey == NO_KEY || o.rateKey !in s.sh.limiters || s.sh.limiters[o.rateKey].mode == QueueMode)
       case AdmitCheck =>
         || ((c.submitTimeout > 0 || Closing(s.life.phase)) && u' == Rejecting(false))
         || (!Closing(s.life.phase) && u' == Admitting)
       case FastPush => FifoRefuses(c, s.q.fast, s.life.fastClosed) && u' == Spilling
       case HeapPush =>
         if c.backpressure == DropOldest then s.life.heapClosed && u' == Spilling
         else (s.life.heapClosed || HeapFull(c, s)) && u' == if NonBlocking(c) then Spilling else HeapCheck
       case HeapCheck =>
         || ((c.submitTimeout > 0 || Closing(s.life.phase)) && u' == Spilling)
         || (!Closing(s.life.phase) && u' == HeapPush)
       case Spilling => SpillRefuses(c, s) && u' == Rejecting(true)
       case Creating => false
       case Rejecting(_) => false
  }

  /** Calls and returns of ReplayDeadLetters and Shutdown. */
  ghost predicate ClientMoves(s: Pool, pc: Pc, pc': Pc) {
    || (pc == Idle && (pc' == ReplayCheck || pc' == Life(ShutdownLoad)))
    || (pc == ReplayCheck && pc' == if Closing(s.life.phase) then Idle else ReplayTake)
    || (pc == Replay([], ReplayLoop) && pc' == Idle)
    || (pc == Life(ShutdownLoad) && pc' ==
          if s.life.phase == Terminated then Idle
            else Life(if Closing(s.life.phase) then ShutdownWait else ShutdownStore))
    || (pc == Life(ShutdownWait) && pc' == Idle)  // its context ended
  }

  /** A client thread that has not been seen yet is idle. */
  function PcOf(s: Pool, t: Tid): Pc {
    if t in s.threads then s.threads[t] else if t.Client? then Idle else Loop(Exited)
  }

  ghost predicate ControlPc(c: Config, s: Pool, pc: Pc, pc': Pc) {
    || (pc.Loop? && pc'.Loop? && LoopMoves(s, pc.l, pc'.l))
    || (pc.Exec? && pc'.Exec? && pc'.j == pc.j && ExecMoves(c, s, pc.j, pc.x, pc'.x))
    || (pc.Submit? && pc'.Submit? && pc'.j == pc.j && SubmitMoves(c, s, pc.j, pc.u, pc'.u))
    || ClientMoves(s, pc, pc')
  }

  ghost predicate Control(c: Config, s: Pool, s': Pool, t: Tid, pc': Pc) {
    && s' == s.(threads := s.threads[t := pc'])
    && (t.Worker? ==> t in s.threads)
    && ControlPc(c, s, PcOf(s, t), pc')
  }

  // ---- Data steps of workers ----

  function At(job: Job, p: Place): Job {
    job.(track := job.track.(place := p))
  }

  function Keyed(job: Job, held: bool): Job {
    job.(track := job.track.(keyHeld := held))
  }

  function Booked(job: Job, i: Option<nat>): Job {
    job.(track := job.track.(reservation := i))
  }

  /** The thread goes to pc and the record of job j becomes job. */
  function Put(s: Pool, t: Tid, pc: Pc, j: JobId, job: Job): Pool {
    s.(threads := s.threads[t := pc], jobs := s.jobs[j := job])
  }

  datatype TakeStep = TakeBasic | TakeFast | TakeSpill | TakeHeap(it: Item)

  /** The pops of the worker loop. */
  ghost predicate Takes(s: Pool, s': Pool, t: Tid, step: TakeStep) {
    && t in s.threads && s.threads[t].Loop?
    && var l := s.threads[t].l;
       match step
       case TakeBasic =>
         && (l.PopBasic? || l.TimedBasic?) && s.q.basic != [] && s.q.basic[0] in s.jobs
         && var j := s.q.basic[0];
            s' == Put(s, t, Basic(j, BasicStart), j, At(s.jobs[j], Held(t))).(q := s.q.(basic := s.q.basic[1..]))
       case TakeFast =>
         && (l.PopFast? || l.PopFastAgain?) && s.q.fast != [] && s.q.fast[0] in s.jobs
         && var j := s.q.fast[0];
            s' == Put(s, t, Exec(j, Dequeued(false)), j, At(s.jobs[j], Held(t))).(q := s.q.(fast := s.q.fast[1..]))
       case TakeSpill =>
         && l.PopSpill? && s.q.spill != [] && s.q.spill[0] in s.jobs
         && var j := s.q.spill[0];
            s' == Put(s, t, Exec(j, Dequeued(true)), j, At(s.jobs[j], Held(t))).(q := s.q.(spill := s.q.spill[1..]))
       case TakeHeap(it) =>
         && (l.TryHeap? || l.TimedHeap? || l.TimedHeapAgain?)
         && PQ.IsLeast(it, s.q.heap) && it.runAt <= s.now && it.value in s.jobs
         && var j := it.value;
            s' == Put(s, t, Exec(j, Dequeued(false)), j, At(s.jobs[j], Held(t)))
                  .(q := s.q.(heap := s.q.heap - multiset{it}))
  }

  datatype BasicStep = StartBasic | EndBasic(ok: bool) | CountBasic

  /** executeBasic. */
  ghost predicate RunsBasic(s: Pool, s': Pool, t: Tid, step: BasicStep) {
    && t in s.threads && s.threads[t].Basic? && s.threads[t].j in s.jobs
    && var j := s.threads[t].j; var b := s.threads[t].b;
       match step
       case StartBasic =>
         b.BasicStart? && s' == s.(threads := s.threads[t := Basic(j, BasicRun)], n := s.n.(started := s.n.started + 1))
       case EndBasic(ok) =>
         && b.BasicRun?
         && (if ok then
              s' == Put(s, t, Loop(Top), j, At(s.jobs[j], Gone(Succeeded))).(n := s.n.(completed := s.n.completed + 1))
            else s' == s.(threads := s.threads[t := Basic(j, BasicFailed)], n := s.n.(failed := s.n.failed + 1)))
       case CountBasic =>
         && b.BasicFailed?
         && s' == Put(s, t, Loop(Top), j, At(s.jobs[j], Gone(FailedBasic))).(n := s.n.(dlq := s.n.dlq + 1))
  }

  datatype PrepareStep = DropCancelled | DelayPaused | HoldForRate | AcquireKey

  /** Steps of execute before the attempt starts. */
  ghost predicate Prepares(s: Pool, s': Pool, t: Tid, step: PrepareStep) {
    && t in s.threads && s.threads[t].Exec? && s.threads[t].j in s.jobs
    && var (j, x) := (s.threads[t].j, s.threads[t].x);
       var job := s.jobs[j];
       match step
       case DropCancelled =>
         && x.Dequeued? && ContextDone(s, j)
         && s' == Put(s, t, Loop(Top), j, At(job.(indexed := false,
                      future := Completed(job.future, None, Some(Error.Cancelled))), Gone(End.Cancelled)))
       case DelayPaused =>
         && x.PauseTest? && job.opts.queue != NO_KEY && job.opts.queue in s.sh.pausedQueues
         && s' == Put(s, t, Exec(j, Requeue(false)), j, job.(runAt := s.now + 50 * MILLISECOND))
       case HoldForRate =>
         && x.Rate? && job.opts.rateKey != NO_KEY && job.rateReadyAt.Some? && s.now < job.rateReadyAt.value
         && s' == Put(s, t, Exec(j, Requeue(false)), j, job.(runAt := job.rateReadyAt.value))
       case AcquireKey =>
         && x.Acquire? && Admits(s.sh.active, job.opts.concurrency, job.opts.maxConcurrent)
         && s' == s.(threads := s.threads[t := Exec(j, Start(x.spilled, x.r))],
                     sh := s.sh.(active := Acquired(s.sh.active, job.opts.concurrency, job.opts.maxConcurrent)))
  }

  /** The limiters after key k's reservation i changed hands. */
  function Handed(limiters: map<Key, Limiter>, k: Key, i: Option<nat>, owner: Owner): map<Key, Limiter> {
    if k in limiters && i.Some? && i.value < |limiters[k].log| then
      limiters[k := limiters[k].(log := limiters[k].log[i.value := limiters[k].log[i.value].(owner := owner)])]
    else limiters
  }

  datatype ReserveStep = ReserveRate | DelayForRate | UseReservation | DelayForKey | StartAttempt

  /** Steps of execute that make, hand over, use up or drop a rate reservation. */
  ghost predicate Reserves(s: Pool, s': Pool, t: Tid, step: ReserveStep) {
    && t in s.threads && s.threads[t].Exec? && s.threads[t].j in s.jobs
    && var (j, x) := (s.threads[t].j, s.threads[t].x);
       var job := s.jobs[j];
       var k := job.opts.rateKey;
       match step
       case ReserveRate =>
         && x.Rate? && job.rateReadyAt.None? && k != NO_KEY && k in s.sh.limiters && s.sh.limiters[k].mode == QueueMode
         && var l := s.sh.limiters[k];
            var (b, out) := Reserve(l.bucket, s.now, true);
         && out.Granted?
         && var delay := Truncated(out.wait);
            var log := l.log + [Reservation(s.now + delay, OfThread(t))];
            s' == s.(sh := s.sh.(limiters := s.sh.limiters[k := Limiter(QueueMode, b, log)]),
                     threads := s.threads[t := Exec(j, if delay <= 0 then Acquire(x.spilled, Some(|l.log|))
                                                       else Delaying(delay, |l.log|))])
       case DelayForRate =>
         && x.Delaying?
         && s' == Put(s, t, Exec(j, Requeue(false)), j,
                      Booked(job.(runAt := s.now + x.delay, rateReadyAt := Some(s.now + x.delay)), Some(x.k)))
                  .(sh := s.sh.(limiters := Handed(s.sh.limiters, k, Some(x.k), OfJob(j))),
                    n := s.n.(rateDelayed := s.n.rateDelayed + 1))
       case UseReservation =>
         && x.Rate? && k != NO_KEY && job.rateReadyAt.Some? && job.rateReadyAt.value <= s.now
         && s' == Put(s, t, Exec(j, Acquire(x.spilled, job.track.reservation)), j,
                      Booked(job.(rateReadyAt := None), None))
                  .(sh := s.sh.(limiters := Handed(s.sh.limiters, k, job.track.reservation, OfThread(t))))
       case DelayForKey =>
         && x.Acquire? && !Admits(s.sh.active, job.opts.concurrency, job.opts.maxConcurrent)
         && s' == Put(s, t, Exec(j, Requeue(false)), j, job.(runAt := s.now + 5 * MILLISECOND))
                  .(sh := s.sh.(limiters := Handed(s.sh.limiters, k, x.r, Dropped)))
       case StartAttempt =>
         && x.Start?
         && s' == Put(s, t, Exec(j, Run), j, job.(attempt := job.attempt + 1))
                  .(n := s.n.(started := s.n.started + 1),
                    attempts := s.attempts + [Attempt(j, s.now, job.runAt, x.spilled, k, x.r)],
                    sh := s.sh.(limiters := Handed(s.sh.limiters, k, x.r, UsedBy(|s.attempts|))))
  }

  datatype ConcludeStep =
    | SetResult(v: int) | Succeed | FinishSuccess | Fail(err: Error, permanent: bool) | Retry(delay: int)

  /** Steps of execute from the running job to its outcome. */
  ghost predicate Concludes(s: Pool, s': Pool, t: Tid, step: ConcludeStep) {
    && t in s.threads && s.threads[t].Exec? && s.threads[t].j in s.jobs
    && var (j, x) := (s.threads[t].j, s.threads[t].x);
       var job := s.jobs[j];
       match step
       case SetResult(v) =>
         && x.Run? && job.opts.future
         && s' == Put(s, t, Exec(j, Run), j, job.(future := WithValue(job.future, v)))
       case Succeed =>
         x.Run? && s' == s.(threads := s.threads[t := Exec(j, RunSucceeded)], n := s.n.(completed := s.n.completed + 1))
       case FinishSuccess =>
         && x.RunSucceeded?
         && s' == Put(s, t, Unkeying(j), j, At(job.(indexed := false,
                      future := Completed(job.future, None, None)), Gone(Succeeded)))
       case Fail(err, permanent) =>
         && x.Run?
         && s' == s.(threads := s.threads[t := Exec(j, RunFailed(err, permanent))], n := s.n.(failed := s.n.failed + 1))
       case Retry(delay) =>
         && x.RunFailed? && job.attempt < job.opts.maxAttempts && !x.permanent && !Closing(s.life.phase)
         && s' == Put(s, t, Exec(j, Requeue(true)), j, job.(runAt := s.now + delay))
                  .(n := s.n.(retried := s.n.retried + 1))
  }

  datatype PutStep = RequeueOk | Refuse | Bury

  /** Where a worker goes after requeue or deadletter: the deferred release runs only if acquired. */
  function After(j: JobId, held: bool): Pc {
    if held then Releasing(j) else Loop(Top)
  }

  function WithoutKey(idemp: map<Key, JobId>, k: Key): map<Key, JobId> {
    if k == NO_KEY then idemp else idemp - {k}
  }

  /** requeue and deadletter. */
  ghost predicate PutsBack(c: Config, s: Pool, s': Pool, t: Tid, step: PutStep) {
    && t in s.threads && s.threads[t].Exec? && s.threads[t].j in s.jobs
    && var (j, x) := (s.threads[t].j, s.threads[t].x);
       var job := s.jobs[j];
       match step
       case RequeueOk =>
         && x.Requeue? && !s.life.heapClosed && !HeapFull(c, s)
         && s' == Put(s, t, After(j, x.held), j, At(job, InHeap))
                  .(q := s.q.(heap := s.q.heap + multiset{QueueItem(j, job)}))
       case Refuse =>
         && x.RequeueCheck? && (c.submitTimeout > 0 || Closing(s.life.phase))
         && s' == s.(threads := s.threads[t := Exec(j, Burying(QueueFull, x.held))],
                     n := s.n.(refused := s.n.refused + 1))
       case Bury =>
         && x.Burying?
         && s' == Put(s, t, After(j, x.held), j,
                      Keyed(At(job.(indexed := false, future := Completed(job.future, None, Some(x.err))), InDead),
                            false))
                  .(n := s.n.(dlq := s.n.dlq + 1), q := s.q.(dead := s.q.dead + [j]),
                    sh := s.sh.(idemp := WithoutKey(s.sh.idemp, job.opts.idempotency)))
  }

  /** The ends of execute: the idempotency key after a success, then the semaphore. */
  ghost predicate Leaves(s: Pool, s': Pool, t: Tid) {
    && t in s.threads
    && var pc := s.threads[t];
       if pc.Unkeying? then
         && pc.j in s.jobs
         && s' == Put(s, t, Releasing(pc.j), pc.j, Keyed(s.jobs[pc.j], false))
                  .(sh := s.sh.(idemp := WithoutKey(s.sh.idemp, s.jobs[pc.j].opts.idempotency)))
       else
         && pc.Releasing? && pc.j in s.jobs
         && s' == s.(threads := s.threads[t := Loop(Top)],
                     sh := s.sh.(active := Released(s.sh.active, s.jobs[pc.j].opts.concurrency)))
  }

  // ---- Data steps of submitters ----

  function NewJob(o: Opts, t: Tid): Job {
    Job(o, 0, 0, None, false, NewFuture(), false, Track(Held(t), false, None))
  }

  /** A new call of submit; submitted is counted first. */
  ghost predicate Begins(c: Config, s: Pool, s': Pool, t: Tid, j: JobId, o: Opts) {
    && t.Client? && PcOf(s, t) == Idle && j !in s.jobs
    && s' == Put(s, t, Submit(j, Entered), j, NewJob(Normalized(c, o), t)).(n := s.n.(submitted := s.n.submitted + 1))
  }

  datatype SubmitStep =
    | PushBasic | TakeKey | AdmitRate | Create
    | PushFast | PushHeap | PushEvicting(e: Item) | Spill | RejectSubmit

  ghost predicate Submits(c: Config, s: Pool, s': Pool, t: Tid, step: SubmitStep) {
    && t in s.threads && s.threads[t].Submit? && s.threads[t].j in s.jobs
    && var (j, u) := (s.threads[t].j, s.threads[t].u);
       var job := s.jobs[j];
       match step
       case PushBasic =>
         && u.BasicPush? && !s.life.basicClosed && |s.q.basic| < c.queueSize
         && s' == Put(s, t, Accepting(j), j, At(job, InBasic)).(q := s.q.(basic := s.q.basic + [j]))
       case TakeKey =>
         && u.Keying? && job.opts.idempotency != NO_KEY && job.opts.idempotency !in s.sh.idemp
         && s' == Put(s, t, Submit(j, Admitting), j, Keyed(job, true))
                  .(sh := s.sh.(idemp := s.sh.idemp[job.opts.idempotency := j]))
       case AdmitRate =>
         && u.Admitting?
         && var k := job.opts.rateKey;
         && k != NO_KEY && k in s.sh.limiters && s.sh.limiters[k].mode != QueueMode
         && var (b, out) := Reserve(s.sh.limiters[k].bucket, s.now, false);
            s' == s.(sh := s.sh.(limiters := s.sh.limiters[k := s.sh.limiters[k].(bucket := b)]),
                     threads := s.threads[t := Submit(j,
                       if out.Granted? then Creating
                       else if s.sh.limiters[k].mode == BlockMode then AdmitCheck else Rejecting(false))])
       case Create =>
         && u.Creating?
         && var runAt := FirstRunAt(s.now, job.opts);
            s' == Put(s, t, Submit(j, if UseFastQueue(job.opts, s.now, runAt) then FastPush else HeapPush), j,
                      job.(runAt := runAt, indexed := c.tracking))
       case PushFast =>
         && u.FastPush? && !s.life.fastClosed && |s.q.fast| < c.queueSize
         && s' == Put(s, t, Accepting(j), j, At(job, InFast)).(q := s.q.(fast := s.q.fast + [j]))
       case PushHeap =>
         && u.HeapPush? && !s.life.heapClosed && !HeapFull(c, s)
         && s' == Put(s, t, Accepting(j), j, At(job, InHeap))
                  .(q := s.q.(heap := s.q.heap + multiset{QueueItem(j, job)}))
       case PushEvicting(e) =>
         && u.HeapPush? && c.backpressure == DropOldest && !s.life.heapClosed && HeapFull(c, s)
         && PQ.IsLeast(e, s.q.heap) && e.value in s.jobs
         && s' == Put(s, t, Accepting(j), e.value, At(s.jobs[e.value], Gone(Evicted)))
                  .(jobs := s.jobs[e.value := At(s.jobs[e.value], Gone(Evicted))][j := At(job, InHeap)],
                    q := s.q.(heap := s.q.heap - multiset{e} + multiset{QueueItem(j, job)}))
       case Spill =>
         && u.Spilling? && !SpillRefuses(c, s)
         && s' == Put(s, t, Accepting(j), j, At(job, InSpill)).(q := s.q.(spill := s.q.spill + [j]))
       case RejectSubmit =>
         && u.Rejecting?
         && s' == Put(s, t, Idle, j, At(job.(indexed := if u.full then false else job.indexed,
                      future := if u.full then Completed(job.future, None, Some(QueueFull)) else job.future),
                      Gone(Rejected)))
                  .(n := s.n.(rejected := s.n.rejected + 1))
  }

  ghost predicate Accepts(s: Pool, s': Pool, t: Tid) {
    && t in s.threads && s.threads[t].Accepting?
    && s' == s.(threads := s.threads[t := Idle], n := s.n.(accepted := s.n.accepted + 1))
  }

  // ---- Dead letters ----

  /** Every listed job moves to place p. */
  function Moved(jobs: map<JobId, Job>, listed: seq<JobId>, p: Place): map<JobId, Job> {
    map j | j in jobs :: if j in listed then At(jobs[j], p) else jobs[j]
  }

  /** ReplayDeadLetters takes the whole list under the lock. */
  ghost predicate TakesDead(s: Pool, s': Pool, t: Tid) {
    && t in s.threads && s.threads[t] == ReplayTake
    && s' == s.(threads := s.threads[t := Replay(s.q.dead, ReplayLoop)], q := s.q.(dead := []),
                jobs := Moved(s.jobs, s.q.dead, Held(t)))
  }

  ghost predicate Purges(s: Pool, s': Pool) {
    s' == s.(q := s.q.(dead := []), jobs := Moved(s.jobs, s.q.dead, Gone(Purged)))
  }

  datatype ReplayStep = Reset | PushBack | PushFails | Keep | CountReplay

  /** The loop of ReplayDeadLetters over the jobs it took. */
  ghost predicate Replays(c: Config, s: Pool, s': Pool, t: Tid, step: ReplayStep) {
    && t in s.threads && s.threads[t].Replay?
    && var (items, r) := (s.threads[t].items, s.threads[t].r);
       match step
       case Reset =>
         && r.ReplayLoop? && items != [] && items[0] in s.jobs
         && s' == Put(s, t, Replay(items, ReplayPush), items[0], s.jobs[items[0]].(attempt := 0, runAt := s.now))
       case PushBack =>
         && r.ReplayPush? && items != [] && items[0] in s.jobs && !s.life.heapClosed && !HeapFull(c, s)
         && s' == Put(s, t, Replay(items[1..], ReplayAccept), items[0], At(s.jobs[items[0]], InHeap))
                  .(q := s.q.(heap := s.q.heap + multiset{QueueItem(items[0], s.jobs[items[0]])}))
       case PushFails =>
         && r.ReplayPush? && items != [] && (s.life.heapClosed || HeapFull(c, s))
         && s' == s.(threads := s.threads[t := Replay(items, ReplayBack)])
       case Keep =>
         && r.ReplayBack? && items != [] && items[0] in s.jobs
         && s' == Put(s, t, Replay(items[1..], ReplayLoop), items[0], At(s.jobs[items[0]], InDead))
                  .(q := s.q.(dead := s.q.dead + [items[0]]))
       case CountReplay =>
         && r.ReplayAccept?
         && s' == s.(threads := s.threads[t := Replay(items, ReplayLoop)],
                     n := s.n.(accepted := s.n.accepted + 1, replayed := s.n.replayed + 1))
  }

  // ---- Lifecycle ----

  /** `wg.Wait` returns: every worker spawned so far has exited. */
  ghost predicate WaitOver(s: Pool) {
    forall t | t in s.threads && t.Worker? :: s.threads[t] == Loop(Exited)
  }

  datatype CallStep = StartPool | Pause | Resume | Terminate

  /** Calls that act on the pool state at once, by compare-and-swap or swap. */
  ghost predicate Calls(s: Pool, s': Pool, t: Tid, step: CallStep) {
    && t.Client? && PcOf(s, t) == Idle
    && match step
       case StartPool => s.life.phase == New
         && s' == s.(life := s.life.(phase := Running), threads := s.threads[t := Life(Spawning(0))])
       case Pause => s.life.phase == Running && s' == s.(life := s.life.(phase := Paused))
       case Resume => s.life.phase == Paused && s' == s.(life := s.life.(phase := Running))
       case Terminate =>
         s' == s.(life := s.life.(phase := Terminated),
                  threads := s.threads[t := if s.life.phase == Terminated then Idle else Life(TerminateCancel)])
  }

  datatype LifeStep = Spawn | EndStart | StoreStopping | CloseScale | CloseQueue | StoreStopped | CancelContext

  ghost predicate Lives(c: Config, s: Pool, s': Pool, t: Tid, step: LifeStep) {
    && t in s.threads && t.Client? && s.threads[t].Life?
    && var y := s.threads[t].y;
       match step
       case Spawn =>
         && y.Spawning? && y.i < c.workers
         && s' == s.(threads := s.threads[t := Life(Spawning(y.i + 1))][Worker(y.i) := Loop(Top)])
       case EndStart => y.Spawning? && y.i == c.workers
         && s' == s.(life := s.life.(startDone := true), threads := s.threads[t := Idle])
       case StoreStopping => y.ShutdownStore?
         && s' == s.(life := s.life.(phase := Stopping), threads := s.threads[t := Life(ShutdownScale)])
       case CloseScale =>  // closing a closed channel panics
         && y.ShutdownScale?
         && s' == s.(life := s.life.(scaleClosed := true),
                     threads := s.threads[t := Life(if s.life.scaleClosed then Crashed else CloseFirst(true))])
       case CloseQueue =>
         || (y.CloseFirst?
             && s' == s.(life := s.life.(basicClosed := true),
                         threads := s.threads[t := Life(CloseSecond(y.shutdown))]))
         || (y.CloseSecond?
             && s' == s.(life := s.life.(fastClosed := true), threads := s.threads[t := Life(CloseThird(y.shutdown))]))
         || (y.CloseThird? && s' == s.(life := s.life.(heapClosed := true),
               threads := s.threads[t := if y.shutdown then Life(ShutdownWait) else Idle]))
       case StoreStopped =>
         y.ShutdownWait? && WaitOver(s)
           && s' == s.(life := s.life.(phase := Stopped), threads := s.threads[t := Life(ShutdownCancel)])
       case CancelContext =>
         || (y.ShutdownCancel? && s' == s.(life := s.life.(ctxDone := true), threads := s.threads[t := Idle]))
         || (y.TerminateCancel?
             && s' == s.(life := s.life.(ctxDone := true), threads := s.threads[t := Life(CloseFirst(false))]))
  }

  // ---- Everything else that can happen ----

  datatype EnvStep =
    | Tick(to: int) | PauseQueue(k: Key) | ResumeQueue(k: Key) | CancelJob(j: JobId) | CancelFuture(j: JobId)

  ghost predicate Outside(s: Pool, s': Pool, step: EnvStep) {
    match step
    case Tick(to) => s.now <= to && s' == s.(now := to)
    case PauseQueue(k) => s' == s.(sh := s.sh.(pausedQueues := s.sh.pausedQueues + {k}))
    case ResumeQueue(k) => s' == s.(sh := s.sh.(pausedQueues := s.sh.pausedQueues - {k}))
    case CancelJob(j) =>
      && j in s.jobs && s.jobs[j].indexed
      && s' == s.(jobs := s.jobs[j := s.jobs[j].(cancelled := true, indexed := false,
                  future := Completed(s.jobs[j].future, None, Some(Error.Cancelled)))])
    case CancelFuture(j) =>
      && j in s.jobs && s.jobs[j].opts.future
      && s' == s.(jobs := s.jobs[j := s.jobs[j].(cancelled := true,
                  future := Completed(s.jobs[j].future, None, Some(Error.Cancelled)))])
  }

  // ---- Runs ----

  datatype Step =
    | Moves(pc: Pc) | Taking(take: TakeStep) | Basics(basic: BasicStep) | Preparing(prepare: PrepareStep)
    | Reserving(reserve: ReserveStep) | Concluding(conclude: ConcludeStep) | Putting(put: PutStep) | Leaving
    | Beginning(j: JobId, o: Opts) | Submitting(submit: SubmitStep) | Accept
    | TakeDead | Purge | Replaying(replay: ReplayStep)
    | Calling(call: CallStep) | Living(life: LifeStep) | Environment(env: EnvStep)

  ghost predicate Next(c: Config, s: Pool, s': Pool, t: Tid, step: Step) {
    match step
    case Moves(pc) => Control(c, s, s', t, pc)
    case Taking(k) => Takes(s, s', t, k)
    case Basics(k) => RunsBasic(s, s', t, k)
    case Preparing(k) => Prepares(s, s', t, k)
    case Reserving(k) => Reserves(s, s', t, k)
    case Concluding(k) => Concludes(s, s', t, k)
    case Putting(k) => PutsBack(c, s, s', t, k)
    case Leaving => Leaves(s, s', t)
    case Beginning(j, o) => Begins(c, s, s', t, j, o)
    case Submitting(k) => Submits(c, s, s', t, k)
    case Accept => Accepts(s, s', t)
    case TakeDead => TakesDead(s, s', t)
    case Purge => Purges(s, s')
    case Replaying(k) => Replays(c, s, s', t, k)
    case Calling(k) => Calls(s, s', t, k)
    case Living(k) => Lives(c, s, s', t, k)
    case Environment(k) => Outside(s, s', k)
  }

  datatype Event = Event(t: Tid, step: Step)

  ghost predicate IsRun(c: Config, states: seq<Pool>, events: seq<Event>) {
    && |states| == |events| + 1 && Init(c, states[0])
    && forall i | 0 <= i < |events| :: Next(c, states[i], states[i + 1], events[i].t, events[i].step)
  }
}

/** The life of one job: where it can go from where it is, and what has to be so at that moment.

    One table each for the basic way, for the start and the end of an execution, for the two halves
    of a submit, for the queues and for replays. They are written on the fields of the job's options
    and of the pool, as the documentation of the pool would have them, and say nothing of the other
    jobs. The theorem is that the machine keeps to them. */
module PoolLife {
  import opened Options
  import opened Futures
  import opened KeyedSemaphore
  import opened TokenBucket
  import opened PoolProtocol
  import opened PoolThreads
  import opened PoolOwnership
  import opened PoolFuture

  /** The program counter of the thread that holds job j. */
  function HolderPc(s: Pool, j: JobId): Pc {
    if j in s.jobs && s.jobs[j].track.place.Held? && s.jobs[j].track.place.t in s.threads
    then s.threads[s.jobs[j].track.place.t] else Idle
  }

  /** Job j stays where it is, and so does its holder. */
  predicate Rests(s: Pool, s': Pool, j: JobId) {
    && j in s.jobs && j in s'.jobs && Same(s.jobs[j], s'.jobs[j])
    && s'.jobs[j].track.place == s.jobs[j].track.place && HolderPc(s', j) == HolderPc(s, j)
  }

  predicate Same(job: Job, job': Job) {
    job'.opts == job.opts && job'.runAt == job.runAt && job'.attempt == job.attempt
  }

  /** The holder of job j goes to pc' and keeps it. */
  predicate GoesTo(s: Pool, s': Pool, j: JobId, pc': Pc) {
    j in s.jobs && j in s'.jobs && s'.jobs[j].track.place == s.jobs[j].track.place && HolderPc(s', j) == pc'
  }

  /** The holder of job j puts it at place p. */
  predicate Puts(s: Pool, s': Pool, j: JobId, p: Place) {
    j in s'.jobs && s'.jobs[j].track.place == p && !p.Held?
  }

  // ---- The tables ----

  predicate Impatient(c: Config) {
    c.backpressure == Reject || c.backpressure == DropNewest || c.submitTimeout > 0
  }

  /** executeBasic. */
  predicate BasicHop(s: Pool, s': Pool, j: JobId, b: BasicPc) {
    match b
    case BasicStart => GoesTo(s, s', j, Basic(j, BasicRun))
    case BasicRun => GoesTo(s, s', j, Basic(j, BasicFailed)) || Puts(s, s', j, Gone(Succeeded))
    case BasicFailed => Puts(s, s', j, Gone(FailedBasic))
  }

  /** execute up to the attempt. */
  ghost predicate StartHop(s: Pool, s': Pool, step: Step, j: JobId, x: ExecPc)
    requires j in s.jobs && j in s'.jobs
  {
    var (job, job') := (s.jobs[j], s'.jobs[j]);
    var requeued := GoesTo(s, s', j, Exec(j, Requeue(false))) && job'.attempt == job.attempt;
    match x
    case Dequeued(sp) =>
      && Same(job, job')
      && if s.life.ctxDone || job.cancelled then
           step == Preparing(DropCancelled) && Puts(s, s', j, Gone(End.Cancelled))
         else GoesTo(s, s', j, Exec(j, PauseTest(sp)))
    case PauseTest(sp) =>
      if job.opts.queue != NO_KEY && job.opts.queue in s.sh.pausedQueues then
        requeued && job'.runAt == s.now + 50_000_000
      else GoesTo(s, s', j, Exec(j, Rate(sp))) && Same(job, job')
    case Rate(sp) =>
      var k := job.opts.rateKey;
      if k != "" && job.rateReadyAt.Some? then
        if s.now < job.rateReadyAt.value then requeued && job'.runAt == job.rateReadyAt.value
        else (exists r :: GoesTo(s, s', j, Exec(j, Acquire(sp, r)))) && Same(job, job')
      else if k != "" && k in s.sh.limiters && s.sh.limiters[k].mode == QueueMode then
        var delay := Truncated(Reserve(s.sh.limiters[k].bucket, s.now, true).1.wait);
        && Same(job, job')
        && if delay > 0 then exists n :: GoesTo(s, s', j, Exec(j, Delaying(delay, n)))
           else exists r :: GoesTo(s, s', j, Exec(j, Acquire(sp, r)))
      else GoesTo(s, s', j, Exec(j, Acquire(sp, None))) && Same(job, job')
    case Delaying(d, _) => requeued && job'.runAt == s.now + d && job'.rateReadyAt == Some(job'.runAt)
    case Acquire(sp, r) =>
      if job.opts.concurrency != "" && job.opts.maxConcurrent > 0 && job.opts.concurrency in s.sh.active
         && s.sh.active[job.opts.concurrency] >= job.opts.maxConcurrent
      then requeued && job'.runAt == s.now + 5_000_000
      else GoesTo(s, s', j, Exec(j, Start(sp, r))) && Same(job, job')
    case Start(_, _) => GoesTo(s, s', j, Exec(j, Run)) && job'.runAt == job.runAt && job'.attempt == job.attempt + 1
    case _ => false
  }

  /** execute from the attempt on. */
  predicate EndHop(c: Config, s: Pool, s': Pool, step: Step, j: JobId, x: ExecPc)
    requires j in s.jobs && j in s'.jobs
  {
    var (job, job') := (s.jobs[j], s'.jobs[j]);
    var full := s.life.heapClosed || |s.q.heap| >= c.queueSize;
    match x
    case Run =>
      && Same(job, job')
      && ((step == Concluding(Succeed) && GoesTo(s, s', j, Exec(j, RunSucceeded)))
          || (step.Concluding? && step.conclude.Fail?
              && GoesTo(s, s', j, Exec(j, RunFailed(step.conclude.err, step.conclude.permanent)))))
    case RunSucceeded => step == Concluding(FinishSuccess) && Puts(s, s', j, Gone(Succeeded)) && Same(job, job')
    case RunFailed(err, permanent) =>
      || (GoesTo(s, s', j, Exec(j, Burying(err, true))) && Same(job, job')
          && (permanent || job.attempt >= job.opts.maxAttempts || Closing(s.life.phase)))
      || (GoesTo(s, s', j, Exec(j, Requeue(true))) && job'.attempt == job.attempt && job'.opts == job.opts
          && !permanent && job.attempt < job.opts.maxAttempts && !Closing(s.life.phase)
          && step.Concluding? && step.conclude.Retry? && job'.runAt == s.now + step.conclude.delay)
    case Requeue(h) =>
      && Same(job, job')
      && if full then GoesTo(s, s', j, Exec(j, RequeueCheck(h))) else Puts(s, s', j, InHeap)
    case RequeueCheck(h) =>
      && Same(job, job')
      && ((GoesTo(s, s', j, Exec(j, Requeue(h))) && !Closing(s.life.phase))
          || (GoesTo(s, s', j, Exec(j, Burying(QueueFull, h))) && (c.submitTimeout > 0 || Closing(s.life.phase))))
    case Burying(_, _) => step == Putting(Bury) && Puts(s, s', j, InDead) && Same(job, job')
    case _ => false
  }

  /** Who takes the basic way. */
  predicate Plain(c: Config, o: Opts) {
    && c.plain && !c.tracking && !c.spill && !o.future && !o.metadata && !o.ownBackoff
    && o.queue == "" && o.idempotency == "" && o.concurrency == "" && o.rateKey == ""
    && o.priority == 0 && o.delay == 0 && o.runAt == None && o.timeout == 0 && o.maxAttempts == 1
  }

  /** submit up to the creation of the job's record. */
  predicate AdmitHop(c: Config, s: Pool, s': Pool, step: Step, j: JobId, u: SubmitPc)
    requires j in s.jobs
  {
    var o := s.jobs[j].opts;
    match u
    case Entered => GoesTo(s, s', j, Submit(j, if Closing(s.life.phase) || o.nilJob then Rejecting(false) else Routing))
    case Routing => GoesTo(s, s', j, Submit(j, if Plain(c, o) then BasicPush else Keying))
    case BasicPush =>
      || (Puts(s, s', j, InBasic) && !s.life.basicClosed && |s.q.basic| < c.queueSize)
      || (GoesTo(s, s', j, Submit(j, Rejecting(false)))
          && (s.life.basicClosed || (|s.q.basic| >= c.queueSize && Impatient(c))))
    case Keying =>
      GoesTo(s, s', j, Submit(j, if o.idempotency != "" && o.idempotency in s.sh.idemp then Rejecting(false)
                              else Admitting))
    case Admitting =>
      || (GoesTo(s, s', j, Submit(j, Creating))
          && (o.rateKey == "" || o.rateKey !in s.sh.limiters || s.sh.limiters[o.rateKey].mode == QueueMode
              || Reserve(s.sh.limiters[o.rateKey].bucket, s.now, false).1.Granted?))
      || (o.rateKey in s.sh.limiters && Reserve(s.sh.limiters[o.rateKey].bucket, s.now, false).1 == Denied
          && match s.sh.limiters[o.rateKey].mode
             case RejectMode => GoesTo(s, s', j, Submit(j, Rejecting(false)))
             case BlockMode => GoesTo(s, s', j, Submit(j, AdmitCheck))
             case QueueMode => false)
    case AdmitCheck =>
      || (GoesTo(s, s', j, Submit(j, Admitting)) && !Closing(s.life.phase))
      || (GoesTo(s, s', j, Submit(j, Rejecting(false))) && (c.submitTimeout > 0 || Closing(s.life.phase)))
    case Rejecting(_) => step == Submitting(RejectSubmit) && Puts(s, s', j, Gone(Rejected))
    case _ => false
  }

  /** submit from there on. */
  predicate PushHop(c: Config, s: Pool, s': Pool, j: JobId, u: SubmitPc)
    requires j in s.jobs && j in s'.jobs
  {
    var (o, runAt, runAt') := (s.jobs[j].opts, s.jobs[j].runAt, s'.jobs[j].runAt);
    var full := s.life.heapClosed || |s.q.heap| >= c.queueSize;
    match u
    case Creating =>
      && runAt' >= s.now && runAt' >= s.now + o.delay && (o.runAt.Some? ==> runAt' >= o.runAt.value)
      && (runAt' == s.now || runAt' == s.now + o.delay || o.runAt == Some(runAt'))
      && GoesTo(s, s', j, Submit(j, if o.priority == 0 && o.delay == 0 && o.runAt == None then FastPush else HeapPush))
    case FastPush =>
      && runAt' == runAt
      && ((Puts(s, s', j, InFast) && !s.life.fastClosed && |s.q.fast| < c.queueSize)
          || (GoesTo(s, s', j, Submit(j, Spilling))
              && (s.life.fastClosed || (|s.q.fast| >= c.queueSize && Impatient(c)))))
    case HeapPush =>
      && runAt' == runAt
      && ((Puts(s, s', j, InHeap) && !s.life.heapClosed && (|s.q.heap| < c.queueSize || c.backpressure == DropOldest))
          || (GoesTo(s, s', j, Submit(j, HeapCheck)) && full && c.backpressure == Block)
          || (GoesTo(s, s', j, Submit(j, Spilling)) && full && c.backpressure != Block
              && (c.backpressure == DropOldest ==> s.life.heapClosed)))
    case HeapCheck =>
      && runAt' == runAt
      && ((GoesTo(s, s', j, Submit(j, HeapPush)) && !Closing(s.life.phase))
          || (GoesTo(s, s', j, Submit(j, Spilling)) && (c.submitTimeout > 0 || Closing(s.life.phase))))
    case Spilling =>
      && runAt' == runAt
      && if c.spill && (c.spillMax <= 0 || |s.q.spill| < c.spillMax) then Puts(s, s', j, InSpill)
         else GoesTo(s, s', j, Submit(j, Rejecting(true)))
    case _ => false
  }

  /** A queue gives the job to a worker. */
  predicate TakeHop(s: Pool, s': Pool, t: Tid, j: JobId)
    requires j in s.jobs && j in s'.jobs
  {
    && s'.jobs[j].track.place == Held(t) && Same(s.jobs[j], s'.jobs[j])
    && match s.jobs[j].track.place
       case InBasic => HolderPc(s', j) == Basic(j, BasicStart)
       case InFast => HolderPc(s', j) == Exec(j, Dequeued(false))
       case InSpill => HolderPc(s', j) == Exec(j, Dequeued(true))
       case InHeap => HolderPc(s', j) == Exec(j, Dequeued(false)) && s.jobs[j].runAt <= s.now
       case _ => false
  }

  /** A replay takes the job, makes it fresh, and puts it back. */
  predicate ReplayHop(c: Config, s: Pool, s': Pool, t: Tid, j: JobId)
    requires j in s.jobs && j in s'.jobs
  {
    var (job, job') := (s.jobs[j], s'.jobs[j]);
    && job'.opts == job.opts
    && (job.track.place == InDead ==> Same(job, job') && job'.track.place == Held(t))
    && (job.track.place.Held? ==>
          HolderPc(s, j).Replay? && (Same(job, job') || (job'.attempt == 0 && job'.runAt == s.now)))
    && (HolderPc(s', j).Replay? || Puts(s, s', j, InDead)
        || (Puts(s, s', j, InHeap) && Same(job, job') && !s.life.heapClosed && |s.q.heap| < c.queueSize))
  }

  /** One step in the life of job j. */
  ghost predicate Hop(c: Config, s: Pool, s': Pool, t: Tid, step: Step, j: JobId) {
    && j in s.jobs && j in s'.jobs && s'.jobs[j].opts == s.jobs[j].opts
    && (Rests(s, s', j)
        || match s.jobs[j].track.place
           case Held(u) =>
             u == t
             && (match HolderPc(s, j)
                 case Basic(i, b) => i == j && BasicHop(s, s', j, b)
                 case Exec(i, x) => i == j && (StartHop(s, s', step, j, x) || EndHop(c, s, s', step, j, x))
                 case Submit(i, u) => i == j && (AdmitHop(c, s, s', step, j, u) || PushHop(c, s, s', j, u))
                 case _ => ReplayHop(c, s, s', t, j))
           case InDead => Puts(s, s', j, Gone(Purged)) || ReplayHop(c, s, s', t, j)
           case Gone(_) => false
           case _ => TakeHop(s, s', t, j) || (s.jobs[j].track.place == InHeap && Puts(s, s', j, Gone(Evicted))))
  }

  // ---- Every step is one ----

  lemma HeldInHand(s: Pool, j: JobId)
    requires Owned(s) && j in s.jobs && s.jobs[j].track.place.Held?
    ensures s.jobs[j].track.place.t in s.threads && j in Hands(s.threads[s.jobs[j].track.place.t])
  {
    var t := s.jobs[j].track.place.t;
    assert QueueAt(s.jobs, HandsOf(s.threads, t), Held(t));
    assert multiset(HandsOf(s.threads, t))[j] == 1;
  }

  /** A step of t on another job. */
  lemma OthersRest(s: Pool, s': Pool, t: Tid, i: JobId, pc': Pc, job': Job, j: JobId)
    requires Owned(s) && Touches(s, s', t, i, pc', job') && j in s.jobs && j != i && j !in HandsOf(s.threads, t)
    ensures Rests(s, s', j)
  {
    if s.jobs[j].track.place.Held? { HeldInHand(s, j); }
    hide Owned;
  }

  lemma NobodyActs(s: Pool, s': Pool, t: Tid, j: JobId)
    requires Owned(s) && j in s.jobs && s'.jobs == s.jobs && t in s'.threads && j !in HandsOf(s.threads, t)
    requires s'.threads == s.threads[t := s'.threads[t]]
    ensures Rests(s, s', j)
  {
    if s.jobs[j].track.place.Held? { HeldInHand(s, j); }
    hide Owned;
  }

  lemma ControlHops(c: Config, s: Pool, s': Pool, t: Tid, pc': Pc, j: JobId)
    requires Owned(s) && Control(c, s, s', t, pc') && j in s.jobs
    ensures Hop(c, s, s', t, Moves(pc'), j)
  {
    if j !in HandsOf(s.threads, t) {
      NobodyActs(s, s', t, j);
    } else {
      HandsApart(s, t, j);
      hide Owned, LoopMoves;
    }
  }

  lemma TakesHops(c: Config, s: Pool, s': Pool, t: Tid, k: TakeStep, j: JobId)
    requires Owned(s) && Takes(s, s', t, k) && j in s.jobs
    ensures Hop(c, s, s', t, Taking(k), j)
  {
    var i := s'.threads[t].j;
    if i == j {
      TakesHop(s, s', t, k);
      hide Owned, Takes, TakeHop, AdmitHop, PushHop, StartHop, EndHop, ReplayHop, BasicHop, Rests;
    } else {
      OthersRest(s, s', t, i, s'.threads[t], s'.jobs[i], j);
      RestIsHop(c, s, s', t, Taking(k), j);
    }
  }

  lemma TakesHop(s: Pool, s': Pool, t: Tid, k: TakeStep)
    requires Owned(s) && Takes(s, s', t, k)
    ensures var j := s'.threads[t].j;
            && j in s.jobs && j in s'.jobs && TakeHop(s, s', t, j) && s'.jobs[j].opts == s.jobs[j].opts
            && (s.jobs[j].track.place == InBasic || s.jobs[j].track.place == InFast || s.jobs[j].track.place == InSpill
                || s.jobs[j].track.place == InHeap)
  {
    TakenFrom(s, s', t, k);
    hide Owned, PQ.IsLeast;
  }

  lemma RunsBasicHops(c: Config, s: Pool, s': Pool, t: Tid, k: BasicStep, j: JobId)
    requires Owned(s) && RunsBasic(s, s', t, k) && j in s.jobs
    ensures Hop(c, s, s', t, Basics(k), j)
  {
    var i := s.threads[t].j;
    JobInHand(s, t);
    if i != j { OthersRest(s, s', t, i, s'.threads[t], s'.jobs[i], j); }
    hide Owned;
  }

  lemma PreparesHops(c: Config, s: Pool, s': Pool, t: Tid, k: PrepareStep, j: JobId)
    requires Owned(s) && Prepares(s, s', t, k) && j in s.jobs
    ensures Hop(c, s, s', t, Preparing(k), j)
  {
    var i := s.threads[t].j;
    JobInHand(s, t);
    if i != j { OthersRest(s, s', t, i, s'.threads[t], s'.jobs[i], j); }
    hide Owned;
  }

  lemma ReservesHops(c: Config, s: Pool, s': Pool, t: Tid, k: ReserveStep, j: JobId)
    requires Owned(s) && Reserves(s, s', t, k) && j in s.jobs
    ensures Hop(c, s, s', t, Reserving(k), j)
  {
    var i := s.threads[t].j;
    JobInHand(s, t);
    if i != j { OthersRest(s, s', t, i, s'.threads[t], s'.jobs[i], j); }
    hide Owned, Handed, Reserve, Truncated;
  }

  lemma ConcludesHops(c: Config, s: Pool, s': Pool, t: Tid, k: ConcludeStep, j: JobId)
    requires Owned(s) && Concludes(s, s', t, k) && j in s.jobs
    ensures Hop(c, s, s', t, Concluding(k), j)
  {
    var i := s.threads[t].j;
    JobInHand(s, t);
    if i != j { OthersRest(s, s', t, i, s'.threads[t], s'.jobs[i], j); }
    hide Owned;
  }

  lemma PutsBackHops(c: Config, s: Pool, s': Pool, t: Tid, k: PutStep, j: JobId)
    requires Owned(s) && PutsBack(c, s, s', t, k) && j in s.jobs
    ensures Hop(c, s, s', t, Putting(k), j)
  {
    var i := s.threads[t].j;
    JobInHand(s, t);
    if i != j { OthersRest(s, s', t, i, s'.threads[t], s'.jobs[i], j); }
    hide Owned;
  }

  lemma LeavesHops(c: Config, s: Pool, s': Pool, t: Tid, j: JobId)
    requires Owned(s) && Leaves(s, s', t) && j in s.jobs
    ensures Hop(c, s, s', t, Step.Leaving, j)
  {
    if s.jobs[j].track.place.Held? { HeldInHand(s, j); }
    hide Owned;
  }

  lemma BeginsHops(c: Config, s: Pool, s': Pool, t: Tid, i: JobId, o: Opts, j: JobId)
    requires Owned(s) && Begins(c, s, s', t, i, o) && j in s.jobs
    ensures Hop(c, s, s', t, Beginning(i, o), j)
  {
    OthersRest(s, s', t, i, s'.threads[t], s'.jobs[i], j);
    hide Owned;
  }

  lemma EvictsHops(c: Config, s: Pool, s': Pool, t: Tid, e: Item, j: JobId)
    requires Owned(s) && Submits(c, s, s', t, PushEvicting(e)) && j in s.jobs
    ensures Hop(c, s, s', t, Submitting(PushEvicting(e)), j)
  {
    hide Owned;
    MidwayOwned(c, s, s', t, e);
    hide EvictsFrom, HeapFull;
    var i := s.threads[t].j;
    if j == e.value {
      hide PushHop, AdmitHop, ReplayHop, TakeHop;
    } else if j == i {
      hide AdmitHop, ReplayHop, TakeHop, StartHop, EndHop;
    } else {
      if s.jobs[j].track.place.Held? { HeldInHand(s, j); }
      RestIsHop(c, s, s', t, Submitting(PushEvicting(e)), j);
    }
  }

  lemma AdmitsHop(c: Config, s: Pool, s': Pool, t: Tid, k: SubmitStep)
    requires Submits(c, s, s', t, k) && s.jobs[s.threads[t].j].track.place == Held(t)
    requires k.AdmitRate? || k.TakeKey? || k.RejectSubmit? || k.PushBasic?
    ensures AdmitHop(c, s, s', Submitting(k), s.threads[t].j, s.threads[t].u)
  {
    hide Reserve;
  }

  lemma PushesHop(c: Config, s: Pool, s': Pool, t: Tid, k: SubmitStep)
    requires Submits(c, s, s', t, k) && s.jobs[s.threads[t].j].track.place == Held(t)
    requires k.Create? || k.PushFast? || k.PushHeap? || k.Spill?
    ensures s.threads[t].j in s'.jobs && s'.jobs[s.threads[t].j].opts == s.jobs[s.threads[t].j].opts
    ensures PushHop(c, s, s', s.threads[t].j, s.threads[t].u)
  {
  }

  lemma SubmitsHops(c: Config, s: Pool, s': Pool, t: Tid, k: SubmitStep, j: JobId)
    requires Owned(s) && Submits(c, s, s', t, k) && j in s.jobs && !k.PushEvicting?
    ensures Hop(c, s, s', t, Submitting(k), j)
  {
    var i := s.threads[t].j;
    JobInHand(s, t);
    if i != j {
      OthersRest(s, s', t, i, s'.threads[t], s'.jobs[i], j);
      RestIsHop(c, s, s', t, Submitting(k), j);
    } else if k.AdmitRate? || k.TakeKey? || k.RejectSubmit? || k.PushBasic? {
      AdmitsHop(c, s, s', t, k);
      hide Owned, Reserve, AdmitHop, PushHop, ReplayHop, TakeHop, StartHop, EndHop, BasicHop, Rests;
    } else {
      PushesHop(c, s, s', t, k);
      hide Owned, Submits, AdmitHop, PushHop, ReplayHop, TakeHop, StartHop, EndHop, BasicHop, Rests;
    }
  }

  lemma ReplaysHops(c: Config, s: Pool, s': Pool, t: Tid, k: ReplayStep, j: JobId)
    requires Owned(s) && Replays(c, s, s', t, k) && j in s.jobs
    ensures Hop(c, s, s', t, Replaying(k), j)
  {
    var items := s.threads[t].items;
    ReplayInHand(s, t);
    if j !in items {
      if s.jobs[j].track.place.Held? { HeldInHand(s, j); }
      hide Owned;
      RestIsHop(c, s, s', t, Replaying(k), j);
    } else {
      HandsApart(s, t, j);
      hide Owned, QueueAt;
      ReplaysHop(c, s, s', t, k, j);
      hide Replays, ReplayHop, TakeHop, AdmitHop, PushHop, StartHop, EndHop, BasicHop, Rests;
    }
  }

  lemma ReplaysHop(c: Config, s: Pool, s': Pool, t: Tid, k: ReplayStep, j: JobId)
    requires Replays(c, s, s', t, k) && IsAt(s.jobs, j, Held(t)) && j in s.threads[t].items
    ensures j in s'.jobs && ReplayHop(c, s, s', t, j)
  {
  }

  lemma DeadHops(c: Config, s: Pool, s': Pool, t: Tid, step: Step, j: JobId)
    requires Owned(s) && Next(c, s, s', t, step) && (step == TakeDead || step == Purge) && j in s.jobs
    ensures Hop(c, s, s', t, step, j)
  {
    DeadIsDead(s, j);
    if s.jobs[j].track.place.Held? { HeldInHand(s, j); }
    hide Owned;
  }

  lemma LivesHops(c: Config, s: Pool, s': Pool, t: Tid, step: Step, j: JobId)
    requires Owned(s) && Staffed(c, s) && Next(c, s, s', t, step) && j in s.jobs
    requires step.Calling? || step.Living? || step.Environment? || step == Accept
    ensures Rests(s, s', j)
  {
    if s.jobs[j].track.place.Held? { HeldInHand(s, j); }
    hide Owned;
    if step.Living? {
      LivesFrame(c, s, s', t, step.life);
      hide Next, Staffed;
    } else if step.Calling? {
      assert Calls(s, s', t, step.call);
      hide Next, Staffed;
    } else if step.Environment? {
      assert Outside(s, s', step.env);
      hide Next, Staffed;
    }
  }

  lemma StepHops(c: Config, s: Pool, s': Pool, t: Tid, step: Step, j: JobId)
    requires Owned(s) && Staffed(c, s) && Next(c, s, s', t, step) && j in s.jobs
    ensures Hop(c, s, s', t, step, j)
  {
    hide Owned, Staffed, Takes, RunsBasic, Prepares, Reserves, Concludes, PutsBack, Leaves, Begins, Submits, Replays;
    hide Control, Calls, Lives, Outside, Accepts, TakesDead, Purges, Hop;
    match step
    case Moves(pc) => ControlHops(c, s, s', t, pc, j);
    case Taking(k) => TakesHops(c, s, s', t, k, j);
    case Basics(k) => RunsBasicHops(c, s, s', t, k, j);
    case Preparing(k) => PreparesHops(c, s, s', t, k, j);
    case Reserving(k) => ReservesHops(c, s, s', t, k, j);
    case Concluding(k) => ConcludesHops(c, s, s', t, k, j);
    case Putting(k) => PutsBackHops(c, s, s', t, k, j);
    case Leaving => LeavesHops(c, s, s', t, j);
    case Beginning(i, o) => BeginsHops(c, s, s', t, i, o, j);
    case Submitting(k) =>
      if k.PushEvicting? { EvictsHops(c, s, s', t, k.e, j); } else { SubmitsHops(c, s, s', t, k, j); }
    case Replaying(k) => ReplaysHops(c, s, s', t, k, j);
    case TakeDead => DeadHops(c, s, s', t, step, j);
    case Purge => DeadHops(c, s, s', t, step, j);
    case _ =>
      LivesHops(c, s, s', t, step, j);
      RestIsHop(c, s, s', t, step, j);
  }

  lemma RestIsHop(c: Config, s: Pool, s': Pool, t: Tid, step: Step, j: JobId)
    requires Rests(s, s', j)
    ensures Hop(c, s, s', t, step, j)
  {
  }

  // ---- Main result ----

  /** In every run, every step either leaves a job where it is or moves it along its life cycle:
      the tables above say where to, on the fields of its options and of the state alone. */
  lemma JobsLiveByTheTables(c: Config, states: seq<Pool>, events: seq<Event>, i: nat, j: JobId)
    requires IsRun(c, states, events) && i < |events| && j in states[i].jobs
    ensures Hop(c, states[i], states[i + 1], events[i].t, events[i].step, j)
  {
    hide Next, Init, Owned, Staffed, Hop;
    RunOwned(c, states, events, i);
    RunStaffed(c, states, events, i);
    StepHops(c, states[i], states[i + 1], events[i].t, events[i].step, j);
  }

  /** A job that is new in a state has just been submitted with the options the caller gave, except
      that a missing attempt bound is the configured one. */
  lemma JobsEnterBySubmit(c: Config, states: seq<Pool>, events: seq<Event>, i: nat, j: JobId)
    requires IsRun(c, states, events) && i < |events| && j in states[i + 1].jobs && j !in states[i].jobs
    ensures HolderPc(states[i + 1], j) == Submit(j, Entered) && states[i + 1].jobs[j].attempt == 0
    ensures events[i].step.Beginning? && events[i].step.j == j
    ensures var (o, o') := (events[i].step.o, states[i + 1].jobs[j].opts);
            o' == o.(maxAttempts := if o.maxAttempts >= 1 then o.maxAttempts else c.defaultMaxAttempts)
  {
    assert Next(c, states[i], states[i + 1], events[i].t, events[i].step);
    hide Init, FateOf, Ages;
    RunAges(c, states, events, i, j);
    assert Begins(c, states[i], states[i + 1], events[i].t, j, events[i].step.o);
    hide Next;
  }
}

/** When attempts start and how many a job gets. */
module PoolTiming {
  import opened KeyedSemaphore
  import opened TokenBucket
  import opened PoolProtocol
  import opened PoolThreads
  import opened PoolOwnership

  /** A job waiting in a queue has an attempt left; one on the fast path is due. */
  predicate JobTimely(c: Config, job: Job, now: int) {
    && (job.track.place == InSpill ==> c.spill)
    && 0 <= job.attempt <= job.opts.maxAttempts && 1 <= job.opts.maxAttempts
    && (job.track.place == InFast ==> job.runAt <= now)
    && (job.track.place == InFast || job.track.place == InSpill || job.track.place == InHeap ==>
          job.attempt < job.opts.maxAttempts)
  }

  predicate ExecTimely(c: Config, job: Job, now: int, x: ExecPc) {
    match x
    case Dequeued(sp) => job.attempt < job.opts.maxAttempts && if sp then c.spill else job.runAt <= now
    case PauseTest(sp) => job.attempt < job.opts.maxAttempts && if sp then c.spill else job.runAt <= now
    case Rate(sp) => job.attempt < job.opts.maxAttempts && if sp then c.spill else job.runAt <= now
    case Acquire(sp, _) => job.attempt < job.opts.maxAttempts && if sp then c.spill else job.runAt <= now
    case Start(sp, _) => job.attempt < job.opts.maxAttempts && if sp then c.spill else job.runAt <= now
    case Delaying(_, _) => job.attempt < job.opts.maxAttempts
    case Requeue(_) => job.attempt < job.opts.maxAttempts
    case RequeueCheck(_) => job.attempt < job.opts.maxAttempts
    case Run => true
    case RunSucceeded => true
    case RunFailed(_, _) => true
    case Burying(_, _) => true
  }

  predicate ThreadTimely(c: Config, jobs: Jobs, now: int, pc: Pc) {
    && (pc.Exec? && pc.j in jobs ==> ExecTimely(c, jobs[pc.j], now, pc.x))
    && (pc.Submit? && pc.j in jobs ==> jobs[pc.j].attempt == 0 && (pc.u == FastPush ==> jobs[pc.j].runAt <= now))
    && (pc.Replay? && pc.r == ReplayPush && pc.items != [] && pc.items[0] in jobs ==> jobs[pc.items[0]].attempt == 0)
  }

  /** No attempt began before its job's runAt, unless its job came from the spill. */
  predicate AttemptTimely(c: Config, a: Attempt, now: int) {
    a.at <= now && if a.spilled then c.spill else a.runAt <= a.at
  }

  ghost predicate Timely(c: Config, s: Pool) {
    && (forall j | j in s.jobs :: JobTimely(c, s.jobs[j], s.now))
    && (forall t | t in s.threads :: ThreadTimely(c, s.jobs, s.now, s.threads[t]))
    && (forall i | 0 <= i < |s.attempts| :: AttemptTimely(c, s.attempts[i], s.now))
  }

  /** A step of t on a job nobody else holds. */
  lemma JobStepTimely(c: Config, s: Pool, s': Pool, t: Tid, j: JobId, pc': Pc, job': Job)
    requires Owned(s) && Timely(c, s) && Touches(s, s', t, j, pc', job') && s'.now == s.now
    requires forall u | u != t :: !IsAt(s.jobs, j, Held(u))
    requires JobTimely(c, job', s.now) && ThreadTimely(c, s'.jobs, s.now, pc')
    requires s'.attempts == s.attempts
             || (|s'.attempts| == |s.attempts| + 1 && s'.attempts[..|s.attempts|] == s.attempts
                                           && AttemptTimely(c, s'.attempts[|s.attempts|], s.now))
    ensures Timely(c, s')
  {
    hide Owned, JobTimely, ExecTimely;
    forall u | u in s'.threads ensures ThreadTimely(c, s'.jobs, s'.now, s'.threads[u]) {
      if u != t {
        var pc := s.threads[u];
        if pc.Exec? || pc.Submit? {
          HandsApart(s, u, pc.j);
        } else if pc.Replay? && pc.items != [] {
          HandsApart(s, u, pc.items[0]);
        }
      }
    }
    forall i | 0 <= i < |s'.attempts| ensures AttemptTimely(c, s'.attempts[i], s'.now) {
      if i < |s.attempts| { assert s'.attempts[i] == s.attempts[i]; }
    }
  }

  /** A step of t that changes no job. */
  lemma ThreadStepTimely(c: Config, s: Pool, s': Pool, t: Tid, pc': Pc)
    requires Timely(c, s) && s'.jobs == s.jobs && s'.threads == s.threads[t := pc'] && s'.now == s.now
             && s'.attempts == s.attempts
    requires ThreadTimely(c, s.jobs, s.now, pc')
    ensures Timely(c, s')
  {
  }

  lemma ControlTimely(c: Config, s: Pool, s': Pool, t: Tid, pc': Pc)
    requires Timely(c, s) && Control(c, s, s', t, pc')
    ensures Timely(c, s')
  {
    hide LoopMoves, Timely, HeapFull, SpillRefuses, FifoRefuses, UseBasicFastPath;
    if t in s.threads { ThreadIs(c, s, t); }
    ThreadStepTimely(c, s, s', t, pc');
  }

  lemma ThreadIs(c: Config, s: Pool, t: Tid)
    requires Timely(c, s) && t in s.threads
    ensures ThreadTimely(c, s.jobs, s.now, s.threads[t])
    ensures (s.threads[t].Exec? || s.threads[t].Submit?) && s.threads[t].j in s.jobs ==>
              JobTimely(c, s.jobs[s.threads[t].j], s.now)
  {
  }

  lemma TakesTimely(c: Config, s: Pool, s': Pool, t: Tid, k: TakeStep)
    requires Owned(s) && Timely(c, s) && Takes(s, s', t, k)
    ensures Timely(c, s')
  {
    hide QueueAt, HeapAt;
    var j := s'.threads[t].j;
    assert JobTimely(c, s.jobs[j], s.now);
    assert IsAt(s.jobs, j, match k
                           case TakeBasic => InBasic
                           case TakeFast => InFast
                           case TakeSpill => InSpill
                           case TakeHeap(_) => InHeap)
      && (k.TakeHeap? ==> k.it == QueueItem(j, s.jobs[j])) by {
      match k {
        case TakeBasic => QueueLoses(s.jobs, s'.jobs[j], s.q.basic, InBasic);
        case TakeFast => QueueLoses(s.jobs, s'.jobs[j], s.q.fast, InFast);
        case TakeSpill => QueueLoses(s.jobs, s'.jobs[j], s.q.spill, InSpill);
        case TakeHeap(it) => HeapLoses(s.jobs, s'.jobs[j], s.q.heap, it);
      }
    }
    JobStepTimely(c, s, s', t, j, s'.threads[t], s'.jobs[j]);
  }

  lemma RunsBasicTimely(c: Config, s: Pool, s': Pool, t: Tid, k: BasicStep)
    requires Owned(s) && Timely(c, s) && RunsBasic(s, s', t, k)
    ensures Timely(c, s')
  {
    var j := s.threads[t].j;
    JobInHand(s, t);
    hide Owned;
    assert JobTimely(c, s.jobs[j], s.now);
    if k.StartBasic? || k == EndBasic(false) { ThreadStepTimely(c, s, s', t, s'.threads[t]); }
    else { JobStepTimely(c, s, s', t, j, s'.threads[t], s'.jobs[j]); }
  }

  lemma PreparesTimely(c: Config, s: Pool, s': Pool, t: Tid, k: PrepareStep)
    requires Owned(s) && Timely(c, s) && Prepares(s, s', t, k)
    ensures Timely(c, s')
  {
    hide Owned, Timely;
    var j := s.threads[t].j;
    JobInHand(s, t);
    ThreadIs(c, s, t);
    if k == AcquireKey { ThreadStepTimely(c, s, s', t, s'.threads[t]); }
    else { JobStepTimely(c, s, s', t, j, s'.threads[t], s'.jobs[j]); }
  }

  lemma ReservesTimely(c: Config, s: Pool, s': Pool, t: Tid, k: ReserveStep)
    requires Owned(s) && Timely(c, s) && Reserves(s, s', t, k)
    ensures Timely(c, s')
  {
    hide Owned, Timely, Handed, Reserve, Truncated;
    var j := s.threads[t].j;
    JobInHand(s, t);
    ThreadIs(c, s, t);
    if k == ReserveRate { ThreadStepTimely(c, s, s', t, s'.threads[t]); }
    else { JobStepTimely(c, s, s', t, j, s'.threads[t], s'.jobs[j]); }
  }

  lemma ConcludesTimely(c: Config, s: Pool, s': Pool, t: Tid, k: ConcludeStep)
    requires Owned(s) && Timely(c, s) && Concludes(s, s', t, k)
    ensures Timely(c, s')
  {
    hide Owned, Timely;
    var j := s.threads[t].j;
    JobInHand(s, t);
    ThreadIs(c, s, t);
    if k.Succeed? || k.Fail? { ThreadStepTimely(c, s, s', t, s'.threads[t]); }
    else { JobStepTimely(c, s, s', t, j, s'.threads[t], s'.jobs[j]); }
  }

  lemma PutsBackTimely(c: Config, s: Pool, s': Pool, t: Tid, k: PutStep)
    requires Owned(s) && Timely(c, s) && PutsBack(c, s, s', t, k)
    ensures Timely(c, s')
  {
    hide Owned, Timely, HeapFull;
    var j := s.threads[t].j;
    JobInHand(s, t);
    ThreadIs(c, s, t);
    if k == Refuse { ThreadStepTimely(c, s, s', t, s'.threads[t]); }
    else { JobStepTimely(c, s, s', t, j, s'.threads[t], s'.jobs[j]); }
  }

  /** Steps that leave runAt, attempt and place of every job alone. */
  lemma QuietTimely(c: Config, s: Pool, s': Pool)
    requires Timely(c, s) && s'.attempts == s.attempts && s.now <= s'.now
    requires forall j | j in s'.jobs ::
               j in s.jobs && s'.jobs[j].runAt == s.jobs[j].runAt && s'.jobs[j].attempt == s.jobs[j].attempt
               && s'.jobs[j].opts == s.jobs[j].opts
                 && (s'.jobs[j].track.place == s.jobs[j].track.place || s'.jobs[j].track.place.Gone?
                                                        || s'.jobs[j].track.place.Held?)
    requires forall t | t in s'.threads ::
               || (t in s.threads && s'.threads[t] == s.threads[t])
               || (!s'.threads[t].Exec? && !s'.threads[t].Submit?
                   && !(s'.threads[t].Replay? && s'.threads[t].r == ReplayPush))
    ensures Timely(c, s')
  {
    forall t | t in s'.threads ensures ThreadTimely(c, s'.jobs, s'.now, s'.threads[t]) {
      if t in s.threads && s'.threads[t] == s.threads[t] { assert ThreadTimely(c, s.jobs, s.now, s.threads[t]); }
    }
    forall i | 0 <= i < |s'.attempts| ensures AttemptTimely(c, s'.attempts[i], s'.now) {
      assert AttemptTimely(c, s.attempts[i], s.now);
    }
  }

  lemma BeginsTimely(c: Config, s: Pool, s': Pool, t: Tid, j: JobId, o: Opts)
    requires Normal(c) && Owned(s) && Timely(c, s) && Begins(c, s, s', t, j, o)
    ensures Timely(c, s')
  {
    hide Owned, Timely;
    JobStepTimely(c, s, s', t, j, s'.threads[t], s'.jobs[j]);
  }

  lemma EvictsTimely(c: Config, s: Pool, s': Pool, t: Tid, e: Item)
    requires Owned(s) && Timely(c, s) && Submits(c, s, s', t, PushEvicting(e))
    ensures Timely(c, s')
  {
    hide Owned;
    MidwayOwned(c, s, s', t, e);
    hide Submits;
    var (j, mid) := (s.threads[t].j, Midway(s, t, e));
    assert JobTimely(c, s.jobs[e.value], s.now) && JobTimely(c, s.jobs[j], s.now)
      && ThreadTimely(c, s.jobs, s.now, s.threads[t]);
    hide Timely;
    JobStepTimely(c, s, mid, t, e.value, s.threads[t], mid.jobs[e.value]);
    JobStepTimely(c, mid, s', t, j, Accepting(j), s'.jobs[j]);
  }

  lemma SubmitsTimely(c: Config, s: Pool, s': Pool, t: Tid, k: SubmitStep)
    requires Owned(s) && Timely(c, s) && Submits(c, s, s', t, k)
    ensures Timely(c, s')
  {
    hide Owned, Timely, Reserve, FirstRunAt, HeapFull;
    var j := s.threads[t].j;
    JobInHand(s, t);
    ThreadIs(c, s, t);
    if k.PushEvicting? { EvictsTimely(c, s, s', t, k.e); }
    else if k.AdmitRate? { ThreadStepTimely(c, s, s', t, s'.threads[t]); }
    else { JobStepTimely(c, s, s', t, j, s'.threads[t], s'.jobs[j]); }
  }

  lemma ReplaysTimely(c: Config, s: Pool, s': Pool, t: Tid, k: ReplayStep)
    requires Owned(s) && Timely(c, s) && Replays(c, s, s', t, k)
    ensures Timely(c, s')
  {
    var items := s.threads[t].items;
    ReplayInHand(s, t);
    hide Owned, HeapFull;
    if k.PushFails? || k.CountReplay? { ThreadStepTimely(c, s, s', t, s'.threads[t]); }
    else {
      assert JobTimely(c, s.jobs[items[0]], s.now) && ThreadTimely(c, s.jobs, s.now, s.threads[t]);
      JobStepTimely(c, s, s', t, items[0], s'.threads[t], s'.jobs[items[0]]);
    }
  }

  lemma TakesDeadTimely(c: Config, s: Pool, s': Pool, t: Tid)
    requires Timely(c, s) && TakesDead(s, s', t)
    ensures Timely(c, s')
  {
    hide Timely, JobTimely;
    QuietTimely(c, s, s');
  }

  lemma PurgesTimely(c: Config, s: Pool, s': Pool)
    requires Timely(c, s) && Purges(s, s')
    ensures Timely(c, s')
  {
    hide Timely, JobTimely;
    QuietTimely(c, s, s');
  }

  lemma LeavesTimely(c: Config, s: Pool, s': Pool, t: Tid)
    requires Timely(c, s) && (Leaves(s, s', t) || Accepts(s, s', t))
    ensures Timely(c, s')
  {
    hide Timely, JobTimely;
    QuietTimely(c, s, s');
  }

  lemma CallsTimely(c: Config, s: Pool, s': Pool, t: Tid, k: CallStep)
    requires Timely(c, s) && Calls(s, s', t, k)
    ensures Timely(c, s')
  {
    hide Timely, JobTimely;
    QuietTimely(c, s, s');
  }

  lemma LivesTimely(c: Config, s: Pool, s': Pool, t: Tid, k: LifeStep)
    requires Timely(c, s) && Lives(c, s, s', t, k)
    ensures Timely(c, s')
  {
    hide Timely, JobTimely, WaitOver;
    QuietTimely(c, s, s');
  }

  lemma OutsideTimely(c: Config, s: Pool, s': Pool, k: EnvStep)
    requires Timely(c, s) && Outside(s, s', k)
    ensures Timely(c, s')
  {
    hide Timely, JobTimely;
    QuietTimely(c, s, s');
  }

  lemma StepTimely(c: Config, s: Pool, s': Pool, t: Tid, step: Step)
    requires Normal(c) && Owned(s) && Timely(c, s) && Next(c, s, s', t, step)
    ensures Timely(c, s')
  {
    hide Owned, Timely, Takes, RunsBasic, Prepares, Reserves, Concludes, PutsBack, Submits, Replays, Lives, Calls;
    hide Leaves, Begins, TakesDead, Control, Purges, Outside, Accepts;
    match step
    case Moves(pc) => ControlTimely(c, s, s', t, pc);
    case Taking(k) => TakesTimely(c, s, s', t, k);
    case Basics(k) => RunsBasicTimely(c, s, s', t, k);
    case Preparing(k) => PreparesTimely(c, s, s', t, k);
    case Reserving(k) => ReservesTimely(c, s, s', t, k);
    case Concluding(k) => ConcludesTimely(c, s, s', t, k);
    case Putting(k) => PutsBackTimely(c, s, s', t, k);
    case Leaving => LeavesTimely(c, s, s', t);
    case Beginning(j, o) => BeginsTimely(c, s, s', t, j, o);
    case Submitting(k) => SubmitsTimely(c, s, s', t, k);
    case Accept => LeavesTimely(c, s, s', t);
    case TakeDead => TakesDeadTimely(c, s, s', t);
    case Purge => PurgesTimely(c, s, s');
    case Replaying(k) => ReplaysTimely(c, s, s', t, k);
    case Calling(k) => CallsTimely(c, s, s', t, k);
    case Living(k) => LivesTimely(c, s, s', t, k);
    case Environment(k) => OutsideTimely(c, s, s', k);
  }

  lemma InitTimely(c: Config, s: Pool)
    requires Init(c, s)
    ensures Normal(c) && Timely(c, s)
  {
  }

  lemma {:induction false} RunTimely(c: Config, states: seq<Pool>, events: seq<Event>, i: nat)
    requires IsRun(c, states, events) && i < |states|
    ensures Timely(c, states[i])
  {
    hide Next, Init, Owned, Timely;
    InitTimely(c, states[0]);
    if i > 0 {
      var s, s', t, step := states[i - 1], states[i], events[i - 1].t, events[i - 1].step;
      assert Next(c, s, s', t, step);
      RunTimely(c, states, events, i - 1);
      RunOwned(c, states, events, i - 1);
      StepTimely(c, s, s', t, step);
    }
  }

  // ---- Main results ----

  /** Whatever delayed it (its first delay, a retry's backoff, a paused queue, a rate or a
      concurrency limit), no attempt starts before its job's runAt, except on a job that was last
      taken from the spill, which popSpill does without looking at runAt. */
  lemma NoEarlyStart(c: Config, states: seq<Pool>, events: seq<Event>, i: nat, a: nat)
    requires IsRun(c, states, events) && i < |states| && a < |states[i].attempts|
    ensures !states[i].attempts[a].spilled ==> states[i].attempts[a].runAt <= states[i].attempts[a].at
    ensures states[i].attempts[a].spilled ==> c.spill
  {
    RunTimely(c, states, events, i);
    assert AttemptTimely(c, states[i].attempts[a], states[i].now);
  }

  /** Every job waiting in a queue has an attempt left, and no job gets more than MaxAttempts
      between two replays. */
  lemma AttemptsBounded(c: Config, states: seq<Pool>, events: seq<Event>, i: nat, j: JobId)
    requires IsRun(c, states, events) && i < |states| && j in states[i].jobs
    ensures var job := states[i].jobs[j];
            && 0 <= job.attempt <= job.opts.maxAttempts
            && (job.track.place == InFast || job.track.place == InSpill || job.track.place == InHeap ==>
                  job.attempt < job.opts.maxAttempts)
  {
    RunTimely(c, states, events, i);
    assert JobTimely(c, states[i].jobs[j], states[i].now);
  }
}

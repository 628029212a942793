/** What does not start: cancelled jobs, jobs of a paused queue, and anything in a paused pool. */
module PoolRests {
  import opened Futures
  import opened KeyedSemaphore
  import opened TokenBucket
  import opened PoolProtocol
  import opened PoolThreads
  import opened PoolOwnership
  import opened PoolFuture
  import opened PoolLife

  // ---- Attempts ----

  /** Only an attempt's start is put on record, as what it is. */
  ghost predicate Records(s: Pool, s': Pool, t: Tid, step: Step) {
    || s'.attempts == s.attempts
    || (step == Reserving(StartAttempt) && t in s.threads && s.threads[t].Exec? && s.threads[t].x.Start?
        && s.threads[t].j in s.jobs
        && var (j, x) := (s.threads[t].j, s.threads[t].x);
           s'.attempts == s.attempts
                          + [Attempt(j, s.now, s.jobs[j].runAt, x.spilled, s.jobs[j].opts.rateKey, x.r)])
  }

  lemma StepRecords(c: Config, s: Pool, s': Pool, t: Tid, step: Step)
    requires Next(c, s, s', t, step)
    ensures Records(s, s', t, step)
  {
    hide Takes, RunsBasic, Prepares, Reserves, Concludes, PutsBack, Submits, Replays, Lives, Calls, Control, Begins;
    hide Moved, Leaves, Accepts, Outside, TakesDead, Purges;
    match step
    case Reserving(k) => ReservesRecords(s, s', t, k);
    case Living(k) => LivesRecords(c, s, s', t, k);
    case _ => OthersRecord(c, s, s', t, step);
  }

  lemma ReservesRecords(s: Pool, s': Pool, t: Tid, k: ReserveStep)
    requires Reserves(s, s', t, k)
    ensures Records(s, s', t, Reserving(k))
  {
    hide Handed, Reserve, Truncated;
  }

  lemma LivesRecords(c: Config, s: Pool, s': Pool, t: Tid, k: LifeStep)
    requires Lives(c, s, s', t, k)
    ensures s'.attempts == s.attempts
  {
    hide WaitOver;
  }

  lemma OthersRecord(c: Config, s: Pool, s': Pool, t: Tid, step: Step)
    requires Next(c, s, s', t, step) && !step.Reserving? && !step.Living?
    ensures s'.attempts == s.attempts
  {
    hide Moved, Reserve, HeapFull, FirstRunAt, UseFastQueue, SpillRefuses, LoopMoves, ExecMoves, SubmitMoves;
    hide Reserves, Lives, Completed, QueueItem, Normalized, Released, Acquired, WithoutKey;
  }

  lemma RunRecords(c: Config, states: seq<Pool>, events: seq<Event>, i: nat)
    requires IsRun(c, states, events) && i < |events|
    ensures Records(states[i], states[i + 1], events[i].t, events[i].step)
  {
    hide Next, Init, Records;
    StepRecords(c, states[i], states[i + 1], events[i].t, events[i].step);
  }

  /** Since state i no attempt of job j has started. */
  predicate NoneSince(states: seq<Pool>, i: nat, k: nat, j: JobId) {
    && i <= k < |states| && |states[i].attempts| <= |states[k].attempts|
    && forall a | |states[i].attempts| <= a < |states[k].attempts| :: states[k].attempts[a].job != j
  }

  lemma NoneMore(c: Config, states: seq<Pool>, events: seq<Event>, i: nat, k: nat, j: JobId)
    requires IsRun(c, states, events) && i < k < |states| && NoneSince(states, i, k - 1, j)
    requires HolderPc(states[k - 1], j).Exec? ==> !HolderPc(states[k - 1], j).x.Start?
    ensures NoneSince(states, i, k, j)
  {
    hide Next, Init;
    RunRecords(c, states, events, k - 1);
    RunOwned(c, states, events, k - 1);
    var (s, t) := (states[k - 1], events[k - 1].t);
    if states[k].attempts != s.attempts { JobInHand(s, t); }
    hide Owned;
  }

  // ---- Cancelled jobs ----

  /** The holder of job j is past the test for cancellation and on its way to an attempt. */
  predicate PastCancel(s: Pool, j: JobId) {
    && HolderPc(s, j).Exec?
    && var x := HolderPc(s, j).x; x.PauseTest? || x.Rate? || x.Acquire? || x.Start?
  }

  /** A submit never turns into an execution at once. */
  lemma SubmitsNeverRun(c: Config, s: Pool, s': Pool, step: Step, j: JobId, u: SubmitPc)
    requires j in s.jobs && j in s'.jobs && (AdmitHop(c, s, s', step, j, u) || PushHop(c, s, s', j, u))
    ensures !HolderPc(s', j).Exec?
  {
    hide Closing, Plain, Impatient;
  }

  lemma CancelledHop(c: Config, s: Pool, s': Pool, t: Tid, step: Step, j: JobId)
    requires Hop(c, s, s', t, step, j) && s.jobs[j].cancelled && !PastCancel(s, j)
    ensures !PastCancel(s', j)
  {
    if HolderPc(s, j).Submit? && !Rests(s, s', j) && s.jobs[j].track.place.Held? {
      SubmitsNeverRun(c, s, s', step, j, HolderPc(s, j).u);
    }
    hide AdmitHop, PushHop;
  }

  /** A job that is cancelled while it waits, in a queue, among the dead, or between two attempts, is
      never started again. */
  lemma {:induction false} CancelledNeverStarts(c: Config, states: seq<Pool>, events: seq<Event>, i: nat, k: nat,
                                                j: JobId)
    requires IsRun(c, states, events) && i <= k < |states| && j in states[i].jobs
    requires states[i].jobs[j].cancelled && !PastCancel(states[i], j)
    ensures j in states[k].jobs && states[k].jobs[j].cancelled && !PastCancel(states[k], j)
    ensures NoneSince(states, i, k, j)
  {
    hide Next, Init, Hop, FateOf;
    if i < k {
      CancelledNeverStarts(c, states, events, i, k - 1, j);
      RunAges(c, states, events, k - 1, j);
      JobsLiveByTheTables(c, states, events, k - 1, j);
      CancelledHop(c, states[k - 1], states[k], events[k - 1].t, events[k - 1].step, j);
      NoneMore(c, states, events, i, k, j);
    }
  }

  // ---- Paused queues ----

  /** The holder of job j is past the test for a paused queue. */
  predicate PastPause(s: Pool, j: JobId) {
    HolderPc(s, j).Exec? && var x := HolderPc(s, j).x; x.Rate? || x.Acquire? || x.Start?
  }

  lemma PausedHop(c: Config, s: Pool, s': Pool, t: Tid, step: Step, j: JobId)
    requires Hop(c, s, s', t, step, j) && s.jobs[j].opts.queue != "" && s.jobs[j].opts.queue in s.sh.pausedQueues
    requires !PastPause(s, j)
    ensures !PastPause(s', j) && s'.jobs[j].opts == s.jobs[j].opts
  {
    if HolderPc(s, j).Submit? && !Rests(s, s', j) && s.jobs[j].track.place.Held? {
      SubmitsNeverRun(c, s, s', step, j, HolderPc(s, j).u);
    }
    hide AdmitHop, PushHop;
  }

  /** While a queue stays paused, no attempt of its jobs starts, except of those that were past the
      test when it was paused. */
  lemma {:induction false} PausedQueueRests(c: Config, states: seq<Pool>, events: seq<Event>, i: nat, k: nat, j: JobId)
    requires IsRun(c, states, events) && i <= k < |states| && j in states[i].jobs && !PastPause(states[i], j)
    requires states[i].jobs[j].opts.queue != ""
    requires forall m | i <= m < k :: states[i].jobs[j].opts.queue in states[m].sh.pausedQueues
    ensures j in states[k].jobs && states[k].jobs[j].opts == states[i].jobs[j].opts && !PastPause(states[k], j)
    ensures NoneSince(states, i, k, j)
  {
    hide Next, Init, Hop;
    if i < k {
      PausedQueueRests(c, states, events, i, k - 1, j);
      JobsLiveByTheTables(c, states, events, k - 1, j);
      assert Hop(c, states[k - 1], states[k], events[k - 1].t, events[k - 1].step, j);
      PausedHop(c, states[k - 1], states[k], events[k - 1].t, events[k - 1].step, j);
      HopIn(c, states[k - 1], states[k], events[k - 1].t, events[k - 1].step, j);
      NoneMore(c, states, events, i, k, j);
    }
  }

  lemma HopIn(c: Config, s: Pool, s': Pool, t: Tid, step: Step, j: JobId)
    requires Hop(c, s, s', t, step, j)
    ensures j in s'.jobs
  {
  }

  // ---- Paused pools ----

  /** Every worker has come to rest at the pause, or has left. */
  ghost predicate AtRest(s: Pool) {
    forall w: nat | Worker(w) in s.threads :: Resting(s.threads[Worker(w)])
  }

  predicate Resting(pc: Pc) {
    pc.Loop? && (pc.l.Top? || pc.l.PauseCheck? || pc.l.PauseWait? || pc.l.Exited?)
  }

  /** A worker at rest can only wait, look again, or leave. */
  lemma RestingMoves(c: Config, s: Pool, s': Pool, t: Tid, step: Step)
    requires t.Worker? && t in s.threads && Resting(s.threads[t]) && Next(c, s, s', t, step)
    requires !step.Environment? && !step.Purge? && !step.Calling? && !step.Living?
    ensures step.Moves? && s' == s.(threads := s.threads[t := step.pc])
    ensures step.pc.Loop? && LoopMoves(s, s.threads[t].l, step.pc.l)
    ensures s.life.phase == Paused ==>
              step.pc.Loop? && (step.pc.l.PauseCheck? || step.pc.l.PauseWait? || step.pc.l.Exited?)
  {
    hide ExecMoves, SubmitMoves, Moved, Reserve, FirstRunAt, UseFastQueue, HeapFull, SpillRefuses, Completed;
  }

  lemma RestStays(c: Config, s: Pool, s': Pool, t: Tid, step: Step)
    requires Staffed(c, s) && AtRest(s) && s.life.phase == Paused && s.life.startDone && Next(c, s, s', t, step)
    ensures AtRest(s') && s'.life.startDone
  {
    if step.Environment? || step.Purge? {
      assert s'.threads == s.threads && s'.life == s.life;
      hide Next, Staffed;
    } else if step.Calling? {
      assert Calls(s, s', t, step.call);
      hide Next, Staffed;
    } else if step.Living? {
      assert Lives(c, s, s', t, step.life);
      hide Next;
      LivesRest(c, s, s', t, step.life);
    } else {
      assert t.Worker? && t in s.threads ==> Resting(s.threads[t]) by { assert t.Worker? ==> t == Worker(t.w); }
      hide AtRest, Next;
      StepFrame(c, s, s', t, step);
      if t.Worker? { RestingMoves(c, s, s', t, step); }
      OneMoves(s, s', t);
    }
  }

  lemma LivesRest(c: Config, s: Pool, s': Pool, t: Tid, k: LifeStep)
    requires Staffed(c, s) && AtRest(s) && s.life.startDone && Lives(c, s, s', t, k)
    ensures AtRest(s') && s'.life.startDone
  {
    assert s'.life.startDone by { hide WaitOver, Staffed; }
    LivesFrame(c, s, s', t, k);
    hide Lives;
    assert !IsSpawning(s.threads[t]);
    hide Staffed;
  }

  lemma OneMoves(s: Pool, s': Pool, t: Tid)
    requires AtRest(s) && t in s'.threads && s'.threads == s.threads[t := s'.threads[t]]
    requires t.Worker? ==> Resting(s'.threads[t])
    ensures AtRest(s')
  {
  }

  /** In a paused pool whose workers have come to rest they stay there, and nothing starts. */
  lemma {:induction false} PausedPoolRests(c: Config, states: seq<Pool>, events: seq<Event>, i: nat, k: nat)
    requires IsRun(c, states, events) && i <= k < |states| && AtRest(states[i]) && states[i].life.startDone
    requires forall m | i <= m < k :: states[m].life.phase == Paused
    ensures AtRest(states[k]) && states[k].life.startDone && states[k].attempts == states[i].attempts
  {
    hide Next, Init, AtRest, Staffed, Records;
    if i < k {
      PausedPoolRests(c, states, events, i, k - 1);
      RunStaffed(c, states, events, k - 1);
      RestStays(c, states[k - 1], states[k], events[k - 1].t, events[k - 1].step);
      RunRecords(c, states, events, k - 1);
      RestingRecords(c, states[k - 1], states[k], events[k - 1].t, events[k - 1].step);
    }
  }

  lemma RestingRecords(c: Config, s: Pool, s': Pool, t: Tid, step: Step)
    requires AtRest(s) && Staffed(c, s) && Records(s, s', t, step)
    ensures s'.attempts == s.attempts
  {
    if t.Worker? && t in s.threads { assert s.threads[Worker(t.w)].Loop?; }
  }

  // ---- Terminated pools ----

  predicate Leaving(s: Pool, w: Tid) {
    w in s.threads && (s.threads[w] == Loop(Top) || s.threads[w] == Loop(Exited))
  }

  lemma LeavingStep(c: Config, s: Pool, s': Pool, t: Tid, step: Step, w: Tid)
    requires Staffed(c, s) && Next(c, s, s', t, step) && w.Worker? && Leaving(s, w) && s.life.phase == Terminated
    ensures Leaving(s', w)
  {
    hide Next, Staffed;
    WorkersMoveThemselves(c, s, s', t, step, w);
    if s'.threads[w] != s.threads[w] { RestingMoves(c, s, s', t, step); }
  }

  /** In a terminated pool a worker that is at the top of its loop takes no more work: it can only
      leave. */
  lemma {:induction false} TerminatedTakesNoMore(c: Config, states: seq<Pool>, events: seq<Event>, i: nat, k: nat,
                                                 w: Tid)
    requires IsRun(c, states, events) && i <= k < |states| && w.Worker? && Leaving(states[i], w)
    requires forall m | i <= m < k :: states[m].life.phase == Terminated
    ensures Leaving(states[k], w)
  {
    hide Next, Init, Staffed;
    if i < k {
      TerminatedTakesNoMore(c, states, events, i, k - 1, w);
      RunStaffed(c, states, events, k - 1);
      LeavingStep(c, states[k - 1], states[k], events[k - 1].t, events[k - 1].step, w);
    }
  }
}

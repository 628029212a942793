/** Which threads exist and which code they run, and the pool state's one-way door.

    Start runs once and spawns the workers under their numbers; workers run worker code and clients
    client code; every step outside the lifecycle moves one thread, and a worker moves by its own
    steps only. Once the pool is closing it stays so. */
module PoolThreads {
  import opened KeyedSemaphore
  import opened TokenBucket
  import opened PoolProtocol

  function One(b: bool): nat {
    if b then 1 else 0
  }

  predicate WorkerPc(pc: Pc) {
    pc.Loop? || pc.Basic? || pc.Exec? || pc.Unkeying? || pc.Releasing?
  }

  predicate IsSpawning(pc: Pc) {
    pc.Life? && pc.y.Spawning?
  }

  /** Workers run worker code and clients do not; Start runs once and numbers the workers. */
  ghost predicate Staffed(c: Config, s: Pool) {
    && (forall t | t in s.threads :: t.Worker? <==> WorkerPc(s.threads[t]))
    && (forall w: nat | Worker(w) in s.threads :: w < c.workers)
    && (s.life.phase == New ==> forall t | t in s.threads :: t.Client? && !IsSpawning(s.threads[t]))
    && (forall t | t in s.threads && IsSpawning(s.threads[t]) ::
          s.threads[t].y.i <= c.workers && (forall w: nat :: Worker(w) in s.threads <==> w < s.threads[t].y.i))
    && (forall t, u | t in s.threads && u in s.threads && IsSpawning(s.threads[t]) && IsSpawning(s.threads[u]) ::
          t == u)
    && (s.life.startDone ==> s.life.phase != New && (forall w: nat :: Worker(w) in s.threads <==> w < c.workers))
    && (s.life.startDone ==> forall t | t in s.threads :: !IsSpawning(s.threads[t]))
  }

  lemma MoveStaffed(c: Config, s: Pool, s': Pool, t: Tid, pc': Pc)
    requires Staffed(c, s) && s'.threads == s.threads[t := pc'] && s'.life.startDone == s.life.startDone
    requires s'.life.phase == s.life.phase || s'.life.phase != New
    requires !IsSpawning(pc') && !IsSpawning(PcOf(s, t))
    requires (t.Worker? <==> WorkerPc(pc')) && (t in s.threads || t.Client?)
    ensures Staffed(c, s')
  {
  }

  lemma SpawnStaffed(c: Config, s: Pool, s': Pool, t: Tid, k: LifeStep)
    requires Staffed(c, s) && Lives(c, s, s', t, k) && (k == Spawn || k == EndStart)
    ensures Staffed(c, s')
  {
  }

  lemma NextWorker(c: Config, s: Pool, t: Tid)
    requires Staffed(c, s) && t in s.threads && IsSpawning(s.threads[t])
    ensures Worker(s.threads[t].y.i) !in s.threads
  {
  }

  lemma LivesStaffed(c: Config, s: Pool, s': Pool, t: Tid, k: LifeStep)
    requires Staffed(c, s) && Lives(c, s, s', t, k)
    ensures Staffed(c, s')
  {
    hide Staffed, WaitOver;
    if k == Spawn || k == EndStart { SpawnStaffed(c, s, s', t, k); } else { MoveStaffed(c, s, s', t, s'.threads[t]); }
  }

  /** A lifecycle step moves its own thread, and may spawn one that has not been there before. */
  ghost predicate LifeFrame(s: Pool, s': Pool, t: Tid) {
    && t in s.threads && s.threads[t].Life? && t in s'.threads && (s'.threads[t].Life? || s'.threads[t] == Idle)
    && s'.jobs == s.jobs && s'.sh == s.sh && s'.q == s.q && s'.attempts == s.attempts
    && (s'.threads == s.threads[t := s'.threads[t]]
        || (s.threads[t].y.Spawning? && Worker(s.threads[t].y.i) !in s.threads
            && s'.threads == s.threads[t := s'.threads[t]][Worker(s.threads[t].y.i) := Loop(Top)]))
  }

  lemma LivesFrame(c: Config, s: Pool, s': Pool, t: Tid, k: LifeStep)
    requires Staffed(c, s) && Lives(c, s, s', t, k)
    ensures LifeFrame(s, s', t)
  {
    hide WaitOver, Staffed;
    if k == Spawn { NextWorker(c, s, t); }
  }

  lemma CallsStaffed(c: Config, s: Pool, s': Pool, t: Tid, k: CallStep)
    requires Staffed(c, s) && Calls(s, s', t, k)
    ensures Staffed(c, s')
  {
    if k == Terminate {
      MoveStaffed(c, s, s', t, s'.threads[t]);
    } else if k == StartPool {
      assert forall w: nat :: Worker(w) in s'.threads ==> Worker(w).Client?;
    }
  }

  /** t goes to pc' and stays a worker, or stays a client, while the lifecycle stands still. */
  ghost predicate OneThread(s: Pool, s': Pool, t: Tid) {
    && s'.life == s.life && s'.now == s.now
    && (t in s.threads || t.Client?) && t in s'.threads && s'.threads == s.threads[t := s'.threads[t]]
    && (WorkerPc(PcOf(s, t)) <==> WorkerPc(s'.threads[t])) && !IsSpawning(PcOf(s, t)) && !IsSpawning(s'.threads[t])
  }

  lemma TakesFrame(s: Pool, s': Pool, t: Tid, k: TakeStep)
    requires Takes(s, s', t, k)
    ensures OneThread(s, s', t)
  {
  }

  lemma RunsBasicFrame(s: Pool, s': Pool, t: Tid, k: BasicStep)
    requires RunsBasic(s, s', t, k)
    ensures OneThread(s, s', t)
  {
  }

  lemma PreparesFrame(s: Pool, s': Pool, t: Tid, k: PrepareStep)
    requires Prepares(s, s', t, k)
    ensures OneThread(s, s', t)
  {
  }

  lemma ReservesFrame(s: Pool, s': Pool, t: Tid, k: ReserveStep)
    requires Reserves(s, s', t, k)
    ensures OneThread(s, s', t)
  {
    hide Reserve, Truncated, Handed, Acquired;
  }

  lemma ConcludesFrame(s: Pool, s': Pool, t: Tid, k: ConcludeStep)
    requires Concludes(s, s', t, k)
    ensures OneThread(s, s', t)
  {
  }

  lemma PutsBackFrame(c: Config, s: Pool, s': Pool, t: Tid, k: PutStep)
    requires PutsBack(c, s, s', t, k)
    ensures OneThread(s, s', t)
  {
    hide HeapFull;
  }

  lemma SubmitsFrame(c: Config, s: Pool, s': Pool, t: Tid, k: SubmitStep)
    requires Submits(c, s, s', t, k)
    ensures OneThread(s, s', t)
  {
    hide Reserve, HeapFull, SpillRefuses, FirstRunAt, UseFastQueue;
  }

  lemma ReplaysFrame(c: Config, s: Pool, s': Pool, t: Tid, k: ReplayStep)
    requires Replays(c, s, s', t, k)
    ensures OneThread(s, s', t)
  {
    hide HeapFull;
  }

  /** Every step except those of the lifecycle and the environment moves one thread. */
  lemma ControlFrame(c: Config, s: Pool, s': Pool, t: Tid, pc: Pc)
    requires Control(c, s, s', t, pc)
    ensures OneThread(s, s', t)
  {
    hide LoopMoves, ExecMoves, SubmitMoves;
  }

  lemma LeavesFrame(s: Pool, s': Pool, t: Tid)
    requires Leaves(s, s', t)
    ensures OneThread(s, s', t)
  {
    hide WithoutKey, Released, Keyed;
  }

  lemma BeginsFrame(c: Config, s: Pool, s': Pool, t: Tid, j: JobId, o: Opts)
    requires Begins(c, s, s', t, j, o)
    ensures OneThread(s, s', t)
  {
    hide Normalized;
  }

  lemma StepFrame(c: Config, s: Pool, s': Pool, t: Tid, step: Step)
    requires Next(c, s, s', t, step) && !step.Calling? && !step.Living? && !step.Environment? && !step.Purge?
    ensures OneThread(s, s', t)
  {
    hide Takes, RunsBasic, Prepares, Reserves, Concludes, PutsBack, Submits, Replays;
    hide Control, Moved, Leaves, Begins;
    match step
    case Moves(pc) => ControlFrame(c, s, s', t, pc);
    case Leaving => LeavesFrame(s, s', t);
    case Beginning(j, o) => BeginsFrame(c, s, s', t, j, o);
    case Taking(k) => TakesFrame(s, s', t, k);
    case Basics(k) => RunsBasicFrame(s, s', t, k);
    case Preparing(k) => PreparesFrame(s, s', t, k);
    case Reserving(k) => ReservesFrame(s, s', t, k);
    case Concluding(k) => ConcludesFrame(s, s', t, k);
    case Putting(k) => PutsBackFrame(c, s, s', t, k);
    case Submitting(k) => SubmitsFrame(c, s, s', t, k);
    case Replaying(k) => ReplaysFrame(c, s, s', t, k);
    case _ =>
  }

  lemma StepStaffed(c: Config, s: Pool, s': Pool, t: Tid, step: Step)
    requires Staffed(c, s) && Next(c, s, s', t, step)
    ensures Staffed(c, s')
  {
    hide Takes, RunsBasic, Prepares, Reserves, Concludes, PutsBack, Submits, Replays, Lives, Calls, Leaves, Begins,
      Accepts, TakesDead;
    hide Control, Moved, Staffed;
    match step
    case Calling(k) => CallsStaffed(c, s, s', t, k);
    case Living(k) => LivesStaffed(c, s, s', t, k);
    case Environment(k) => SameStaffed(c, s, s');
    case Purge => SameStaffed(c, s, s');
    case _ => StepFrame(c, s, s', t, step); FrameStaffed(c, s, s', t);
  }

  lemma FrameStaffed(c: Config, s: Pool, s': Pool, t: Tid)
    requires Staffed(c, s) && OneThread(s, s', t)
    ensures Staffed(c, s')
  {
    assert t.Worker? <==> WorkerPc(PcOf(s, t));
    MoveStaffed(c, s, s', t, s'.threads[t]);
  }

  lemma SameStaffed(c: Config, s: Pool, s': Pool)
    requires Staffed(c, s) && s'.threads == s.threads && s'.life == s.life
    ensures Staffed(c, s')
  {
  }

  lemma InitStaffed(c: Config, s: Pool)
    requires Init(c, s)
    ensures Staffed(c, s)
  {
  }

  lemma {:induction false} RunStaffed(c: Config, states: seq<Pool>, events: seq<Event>, i: nat)
    requires IsRun(c, states, events) && i < |states|
    ensures Staffed(c, states[i])
  {
    hide Next, Init, Staffed;
    if i == 0 {
      InitStaffed(c, states[0]);
    } else {
      var s, s', t, step := states[i - 1], states[i], events[i - 1].t, events[i - 1].step;
      assert Next(c, s, s', t, step);
      RunStaffed(c, states, events, i - 1);
      StepStaffed(c, s, s', t, step);
    }
  }

  // ---- Main result ----

  /** A worker moves by its own steps only. */
  lemma WorkersMoveThemselves(c: Config, s: Pool, s': Pool, t: Tid, step: Step, w: Tid)
    requires Staffed(c, s) && Next(c, s, s', t, step) && w.Worker? && w in s.threads
    ensures w in s'.threads
    ensures s'.threads[w] != s.threads[w] ==>
              t == w && !step.Environment? && !step.Purge? && !step.Calling? && !step.Living?
  {
    hide Calls, Lives, Outside, Purges;
    if step.Environment? {
      OutsideThreads(s, s', step.env);
    } else if step.Purge? {
      PurgesThreads(s, s');
    } else if step.Calling? {
      CallsThreads(s, s', t, step.call);
    } else if step.Living? {
      assert Lives(c, s, s', t, step.life);
      LivesFrame(c, s, s', t, step.life);
    } else {
      hide Next;
      StepFrame(c, s, s', t, step);
    }
    hide Staffed;
  }

  lemma OutsideThreads(s: Pool, s': Pool, k: EnvStep)
    requires Outside(s, s', k)
    ensures s'.threads == s.threads
  {
  }

  lemma PurgesThreads(s: Pool, s': Pool)
    requires Purges(s, s')
    ensures s'.threads == s.threads
  {
    hide Moved;
  }

  lemma CallsThreads(s: Pool, s': Pool, t: Tid, k: CallStep)
    requires Calls(s, s', t, k)
    ensures t.Client? && forall w | w in s.threads && w != t :: w in s'.threads && s'.threads[w] == s.threads[w]
  {
  }

  /** Once the pool is stopping, stopped or terminated it never runs again, whatever Start, Pause,
      Resume, Shutdown and Terminate do. */
  lemma {:induction false} ClosingIsFinal(c: Config, states: seq<Pool>, events: seq<Event>, i: nat, j: nat)
    requires IsRun(c, states, events) && i <= j < |states| && Closing(states[i].life.phase)
    ensures Closing(states[j].life.phase)
  {
    hide Next;
    if i < j {
      ClosingIsFinal(c, states, events, i, j - 1);
      var s, s', t, step := states[j - 1], states[j], events[j - 1].t, events[j - 1].step;
      assert Next(c, s, s', t, step);
      PhaseStep(c, s, s', t, step);
    }
  }

  lemma LivesPhase(c: Config, s: Pool, s': Pool, t: Tid, k: LifeStep)
    requires Lives(c, s, s', t, k) && Closing(s.life.phase)
    ensures Closing(s'.life.phase)
  {
    hide WaitOver;
    match k
    case StoreStopping =>
    case StoreStopped =>
    case CloseQueue => assert s'.life.phase == s.life.phase;
    case CancelContext => assert s'.life.phase == s.life.phase;
    case _ => assert s'.life.phase == s.life.phase;
  }

  lemma PhaseStep(c: Config, s: Pool, s': Pool, t: Tid, step: Step)
    requires Next(c, s, s', t, step) && Closing(s.life.phase)
    ensures Closing(s'.life.phase)
  {
    hide Takes, RunsBasic, Prepares, Reserves, Concludes, PutsBack, Submits, Replays, Leaves, Begins, Accepts,
      TakesDead;
    hide Control, Moved, Lives;
    match step
    case Calling(_) =>
    case Living(k) => LivesPhase(c, s, s', t, k);
    case Environment(_) =>
    case Purge =>
    case _ =>
      hide Next;
      StepFrame(c, s, s', t, step);
  }
}

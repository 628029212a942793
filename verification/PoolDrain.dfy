/** Graceful shutdown: when every worker has left, the queues are empty. */
module PoolDrain {
  import opened KeyedSemaphore
  import opened TokenBucket
  import opened PoolProtocol
  import opened PoolThreads

  /** Configurations in which a submit that is not overtaken by a shutdown never spills. */
  predicate NeverSpills(c: Config) {
    !c.spill || (!NonBlocking(c) && c.submitTimeout <= 0)
  }

  /** Inside a submit past its state check, or a replay past its own. */
  predicate Producing(pc: Pc) {
    (pc.Submit? && pc.u != Entered && !pc.u.Rejecting?) || pc.ReplayTake? || pc.Replay?
  }

  predicate Testing(l: LoopPc) {
    l == TestBasic || l == TestFast || l == TestHeap || l == Exited
  }

  // ---- What workers and clients do to the queues ----

  /** A step of a worker on its job: afterwards it is busy, or back at the top of its loop. */
  ghost predicate Works(s: Pool, s': Pool, t: Tid) {
    && s'.life == s.life && t in s.threads && t in s'.threads && s'.threads == s.threads[t := s'.threads[t]]
    && WorkerPc(s.threads[t]) && s.threads[t] != Loop(Exited)
    && WorkerPc(s'.threads[t]) && (s'.threads[t].Loop? ==> s'.threads[t].l == Top)
    && (s.q.basic == [] ==> s'.q.basic == []) && (s.q.fast == [] ==> s'.q.fast == [])
      && (s.q.spill == [] ==> s'.q.spill == [])
  }

  lemma TakesWork(s: Pool, s': Pool, t: Tid, k: TakeStep)
    requires Takes(s, s', t, k)
    ensures Works(s, s', t)
  {
  }

  lemma RunsBasicWork(s: Pool, s': Pool, t: Tid, k: BasicStep)
    requires RunsBasic(s, s', t, k)
    ensures Works(s, s', t)
  {
  }

  lemma PreparesWork(s: Pool, s': Pool, t: Tid, k: PrepareStep)
    requires Prepares(s, s', t, k)
    ensures Works(s, s', t)
  {
  }

  lemma ReservesWork(s: Pool, s': Pool, t: Tid, k: ReserveStep)
    requires Reserves(s, s', t, k)
    ensures Works(s, s', t)
  {
    hide Reserve, Truncated, Handed, Admits;
  }

  lemma ConcludesWork(s: Pool, s': Pool, t: Tid, k: ConcludeStep)
    requires Concludes(s, s', t, k)
    ensures Works(s, s', t)
  {
  }

  lemma PutsBackWork(c: Config, s: Pool, s': Pool, t: Tid, k: PutStep)
    requires PutsBack(c, s, s', t, k)
    ensures Works(s, s', t)
  {
    hide HeapFull;
  }

  /** A step of a client that has nothing to do with the lifecycle. */
  ghost predicate Serves(c: Config, s: Pool, s': Pool, t: Tid) {
    && s'.life == s.life && (t in s.threads || t.Client?) && t in s'.threads
      && s'.threads == s.threads[t := s'.threads[t]]
    && !WorkerPc(PcOf(s, t)) && !WorkerPc(s'.threads[t]) && !s'.threads[t].Life? && !PcOf(s, t).Life?
    && !(s'.threads[t].Submit? && s'.threads[t].u == Spilling)
    && (s'.q.spill == s.q.spill || (c.spill && PcOf(s, t).Submit? && PcOf(s, t).u == Spilling))
    && (!Producing(PcOf(s, t)) ==>
          !Producing(s'.threads[t]) && s'.q.basic == s.q.basic && s'.q.fast == s.q.fast && s'.q.heap == s.q.heap)
  }

  lemma PushesServe(c: Config, s: Pool, s': Pool, t: Tid, k: SubmitStep)
    requires Submits(c, s, s', t, k) && (k.PushEvicting? || k.PushHeap? || k.PushFast? || k.PushBasic?)
    ensures Serves(c, s, s', t)
  {
    hide HeapFull, QueueItem, At, UseBasicFastPath;
  }

  lemma SubmitsServe(c: Config, s: Pool, s': Pool, t: Tid, k: SubmitStep)
    requires Submits(c, s, s', t, k)
    ensures Serves(c, s, s', t)
  {
    if k.PushEvicting? || k.PushHeap? || k.PushFast? || k.PushBasic? {
      PushesServe(c, s, s', t, k);
    } else {
      hide Reserve, HeapFull, FirstRunAt, UseFastQueue, QueueItem, At, Keyed;
    }
  }

  lemma ReplaysServe(c: Config, s: Pool, s': Pool, t: Tid, k: ReplayStep)
    requires Replays(c, s, s', t, k)
    ensures Serves(c, s, s', t)
  {
    hide HeapFull;
  }

  lemma OthersServe(c: Config, s: Pool, s': Pool, t: Tid, step: Step)
    requires Next(c, s, s', t, step) && (step.Beginning? || step.Accept? || step.TakeDead?)
    ensures Serves(c, s, s', t)
  {
    hide Normalized, Moved;
  }

  // ---- Before the shutdown ----

  predicate OpenPc(c: Config, pc: Pc) {
    && (pc.Loop? ==> !Testing(pc.l))
    && (pc.Life? ==> pc.y.Spawning? || pc.y.ShutdownLoad? || pc.y.ShutdownStore?)
    && (c.spill && NeverSpills(c) && pc.Submit? ==> pc.u != Spilling)
  }

  ghost predicate Open(c: Config, s: Pool) {
    && !Closing(s.life.phase) && !s.life.ctxDone && !s.life.basicClosed && !s.life.fastClosed && !s.life.heapClosed
    && (forall t | t in s.threads :: OpenPc(c, s.threads[t]))
    && (NeverSpills(c) ==> s.q.spill == [])
  }

  lemma WorksOpen(c: Config, s: Pool, s': Pool, t: Tid)
    requires Open(c, s) && Works(s, s', t)
    ensures Open(c, s')
  {
  }

  lemma ServesOpen(c: Config, s: Pool, s': Pool, t: Tid)
    requires Open(c, s) && Serves(c, s, s', t)
    ensures Open(c, s')
  {
    assert t in s.threads ==> OpenPc(c, s.threads[t]);
  }

  lemma ControlOpen(c: Config, s: Pool, s': Pool, t: Tid, pc': Pc)
    requires Open(c, s) && Control(c, s, s', t, pc')
    ensures Open(c, s')
  {
    hide HeapFull, SpillRefuses, UseBasicFastPath;
    assert t in s.threads ==> OpenPc(c, s.threads[t]);
    assert OpenPc(c, pc');
  }

  lemma LivesOpen(c: Config, s: Pool, s': Pool, t: Tid, k: LifeStep)
    requires Open(c, s) && Lives(c, s, s', t, k) && k != StoreStopping
    ensures Open(c, s')
  {
    hide WaitOver;
    assert OpenPc(c, s.threads[t]);
  }

  lemma StepOpen(c: Config, s: Pool, s': Pool, t: Tid, step: Step)
    requires Open(c, s) && Next(c, s, s', t, step) && step != Living(StoreStopping) && step != Calling(Terminate)
    ensures Open(c, s')
  {
    hide Takes, RunsBasic, Prepares, Reserves, Concludes, PutsBack, Leaves, Begins, Submits, Replays, Lives, Control,
      TakesDead;
    hide Works, Serves, Moved, Open;
    match step
    case Moves(pc) => ControlOpen(c, s, s', t, pc);
    case Taking(k) => TakesWork(s, s', t, k); WorksOpen(c, s, s', t);
    case Basics(k) => RunsBasicWork(s, s', t, k); WorksOpen(c, s, s', t);
    case Preparing(k) => PreparesWork(s, s', t, k); WorksOpen(c, s, s', t);
    case Reserving(k) => ReservesWork(s, s', t, k); WorksOpen(c, s, s', t);
    case Concluding(k) => ConcludesWork(s, s', t, k); WorksOpen(c, s, s', t);
    case Putting(k) => PutsBackWork(c, s, s', t, k); WorksOpen(c, s, s', t);
    case Leaving => LeavesWork(s, s', t); WorksOpen(c, s, s', t);
    case Submitting(k) => SubmitsServe(c, s, s', t, k); ServesOpen(c, s, s', t);
    case Replaying(k) => ReplaysServe(c, s, s', t, k); ServesOpen(c, s, s', t);
    case Living(k) => LivesOpen(c, s, s', t, k);
    case Beginning(_, _) => OthersServe(c, s, s', t, step); ServesOpen(c, s, s', t);
    case Accept => OthersServe(c, s, s', t, step); ServesOpen(c, s, s', t);
    case TakeDead => OthersServe(c, s, s', t, step); ServesOpen(c, s, s', t);
    case Purge => QueuesOpen(c, s, s');
    case Calling(k) => CallsOpen(c, s, s', t, k);
    case Environment(_) => QueuesOpen(c, s, s');
  }

  lemma QueuesOpen(c: Config, s: Pool, s': Pool)
    requires Open(c, s) && s'.threads == s.threads && s'.life == s.life && s'.q.spill == s.q.spill
    ensures Open(c, s')
  {
  }

  lemma CallsOpen(c: Config, s: Pool, s': Pool, t: Tid, k: CallStep)
    requires Open(c, s) && Calls(s, s', t, k) && k != Terminate
    ensures Open(c, s')
  {
  }

  lemma LeavesWork(s: Pool, s': Pool, t: Tid)
    requires Leaves(s, s', t)
    ensures Works(s, s', t)
  {
  }

  // ---- After the shutdown has begun ----

  predicate DrainPc(q: Queues, pc: Pc) {
    && !Producing(pc) && !IsSpawning(pc)
    && (pc.Life? ==> !pc.y.TerminateCancel?)
    && (pc == Loop(TestFast) ==> q.basic == [])
    && (pc == Loop(TestHeap) ==> q.basic == [] && q.fast == [])
  }

  /** Everything a shutdown does after waiting comes after every worker has left, and then the
      queues are empty. */
  ghost predicate Draining(c: Config, s: Pool) {
    && c.workers >= 1 && s.life.startDone
    && (s.life.phase == Stopping || (s.life.phase == Stopped && WaitOver(s)))
    && (s.life.ctxDone ==> WaitOver(s))
    && (forall t | t in s.threads ::
          DrainPc(s.q, s.threads[t]) && (s.threads[t] == Life(ShutdownCancel) ==> WaitOver(s)))
    && (WaitOver(s) ==> s.q.basic == [] && s.q.fast == [] && s.q.heap == multiset{})
    && (NeverSpills(c) ==> s.q.spill == [])
  }

  /** The shutdown begins while no submit and no replay is under way, and after Start returned. */
  lemma StopsDraining(c: Config, s: Pool, s': Pool, t: Tid)
    requires Normal(c) && Staffed(c, s) && Open(c, s) && Lives(c, s, s', t, StoreStopping)
    requires s.life.startDone && forall u | u in s.threads :: !Producing(s.threads[u])
    ensures Draining(c, s')
  {
    assert Worker(0) in s.threads;
    assert OpenPc(c, s.threads[Worker(0)]);
    assert s'.threads[Worker(0)] != Loop(Exited);
    assert !WaitOver(s');
    hide WaitOver;
    forall u | u in s'.threads ensures DrainPc(s'.q, s'.threads[u]) && s'.threads[u] != Life(ShutdownCancel) {
      assert u in s.threads && OpenPc(c, s.threads[u]);
    }
  }

  lemma WorksDraining(c: Config, s: Pool, s': Pool, t: Tid)
    requires Staffed(c, s) && Draining(c, s) && Works(s, s', t)
    ensures Draining(c, s')
  {
    assert t.Worker?;
    assert !WaitOver(s) && !WaitOver(s');
    hide WaitOver, Staffed;
    forall u | u in s'.threads ensures DrainPc(s'.q, s'.threads[u]) && s'.threads[u] != Life(ShutdownCancel) {
      if u != t { assert DrainPc(s.q, s.threads[u]); }
    }
  }

  lemma ServesDraining(c: Config, s: Pool, s': Pool, t: Tid)
    requires Staffed(c, s) && Draining(c, s) && Serves(c, s, s', t)
    ensures Draining(c, s')
  {
    assert t.Client? && !Producing(PcOf(s, t)) && (WaitOver(s) <==> WaitOver(s'));
    hide WaitOver, Staffed;
    forall u | u in s'.threads
      ensures DrainPc(s'.q, s'.threads[u]) && (s'.threads[u] == Life(ShutdownCancel) ==> WaitOver(s')) {
      if u != t { assert DrainPc(s.q, s.threads[u]); }
    }
  }

  /** A worker's loop: the only way out is past the three tests. */
  lemma LoopLeaves(s: Pool, l: LoopPc, l': LoopPc)
    requires LoopMoves(s, l, l') && DrainPc(s.q, Loop(l))
    ensures l != Exited
    ensures s.life.phase != Terminated && !s.life.ctxDone ==>
              && DrainPc(s.q, Loop(l'))
              && (l' == Exited ==> s.q.basic == [] && s.q.fast == [] && s.q.heap == multiset{})
  {
    hide NoneDue;
  }

  lemma WorkerMoves(c: Config, s: Pool, s': Pool, t: Tid, pc': Pc)
    requires Control(c, s, s', t, pc') && t.Worker? && WorkerPc(s.threads[t]) && DrainPc(s.q, s.threads[t])
    ensures s.threads[t] != Loop(Exited) && s'.q == s.q && s'.life == s.life && s'.threads == s.threads[t := pc']
    ensures s.life.phase != Terminated && !s.life.ctxDone ==>
              && DrainPc(s.q, pc') && !pc'.Life?
              && (pc' == Loop(Exited) ==> s.q.basic == [] && s.q.fast == [] && s.q.heap == multiset{})
  {
    hide ExecMoves, SubmitMoves, LoopMoves;
    var pc := s.threads[t];
    if pc.Loop? && pc'.Loop? && LoopMoves(s, pc.l, pc'.l) {
      LoopLeaves(s, pc.l, pc'.l);
    }
  }

  lemma LoopDraining(c: Config, s: Pool, s': Pool, t: Tid, pc': Pc)
    requires Staffed(c, s) && Draining(c, s) && Control(c, s, s', t, pc') && t.Worker?
    ensures Draining(c, s')
  {
    assert DrainPc(s.q, s.threads[t]) && WorkerPc(s.threads[t]);
    WorkerMoves(c, s, s', t, pc');
    assert !WaitOver(s);
    assert WaitOver(s') ==> pc' == Loop(Exited);
    hide WaitOver, Staffed, Control;
    forall u | u in s'.threads ensures DrainPc(s'.q, s'.threads[u]) && s'.threads[u] != Life(ShutdownCancel) {
      if u != t { assert DrainPc(s.q, s.threads[u]); }
    }
  }

  lemma ClientDraining(c: Config, s: Pool, s': Pool, t: Tid, pc': Pc)
    requires Staffed(c, s) && Draining(c, s) && Control(c, s, s', t, pc') && t.Client?
    ensures Draining(c, s')
  {
    hide LoopMoves, ExecMoves;
    assert WaitOver(s) <==> WaitOver(s');
    assert t in s.threads ==> DrainPc(s.q, s.threads[t]);
    assert DrainPc(s'.q, pc') && pc' != Life(ShutdownCancel);
    hide WaitOver, Staffed, Control;
    forall u | u in s'.threads
      ensures DrainPc(s'.q, s'.threads[u]) && (s'.threads[u] == Life(ShutdownCancel) ==> WaitOver(s')) {
      if u != t { assert DrainPc(s.q, s.threads[u]); }
    }
  }

  lemma LivesDraining(c: Config, s: Pool, s': Pool, t: Tid, k: LifeStep)
    requires Staffed(c, s) && Draining(c, s) && Lives(c, s, s', t, k)
    ensures Draining(c, s')
  {
    assert DrainPc(s.q, s.threads[t]);
    LivesMoves(c, s, s', t, k);
    assert WaitOver(s) <==> WaitOver(s');
    hide WaitOver, Staffed, Lives;
    forall u | u in s'.threads
      ensures DrainPc(s'.q, s'.threads[u]) && (s'.threads[u] == Life(ShutdownCancel) ==> WaitOver(s')) {
      if u != t { assert DrainPc(s.q, s.threads[u]); }
    }
  }

  /** What a shutdown in progress may still do. */
  lemma LivesMoves(c: Config, s: Pool, s': Pool, t: Tid, k: LifeStep)
    requires Lives(c, s, s', t, k) && DrainPc(s.q, s.threads[t])
    ensures t.Client? && s'.q == s.q && t in s'.threads && s'.threads == s.threads[t := s'.threads[t]]
            && DrainPc(s'.q, s'.threads[t])
    ensures s'.life.startDone == s.life.startDone
    ensures s'.life.phase == s.life.phase || s'.life.phase == Stopping || (s'.life.phase == Stopped && WaitOver(s))
    ensures s'.life.ctxDone == s.life.ctxDone || s.threads[t] == Life(ShutdownCancel)
    ensures s'.threads[t] == Life(ShutdownCancel) ==> WaitOver(s)
  {
    hide WaitOver;
  }

  lemma StepDraining(c: Config, s: Pool, s': Pool, t: Tid, step: Step)
    requires Staffed(c, s) && Draining(c, s) && Next(c, s, s', t, step) && step != Calling(Terminate)
    ensures Draining(c, s')
  {
    hide Takes, RunsBasic, Prepares, Reserves, Concludes, PutsBack, Leaves, Begins, Submits, Replays, Lives, Control,
      TakesDead;
    hide Works, Serves, Moved, Staffed, Draining, Calls;
    match step
    case Moves(pc) => if t.Worker? { LoopDraining(c, s, s', t, pc); } else { ClientDraining(c, s, s', t, pc); }
    case Taking(k) => TakesWork(s, s', t, k); WorksDraining(c, s, s', t);
    case Basics(k) => RunsBasicWork(s, s', t, k); WorksDraining(c, s, s', t);
    case Preparing(k) => PreparesWork(s, s', t, k); WorksDraining(c, s, s', t);
    case Reserving(k) => ReservesWork(s, s', t, k); WorksDraining(c, s, s', t);
    case Concluding(k) => ConcludesWork(s, s', t, k); WorksDraining(c, s, s', t);
    case Putting(k) => PutsBackWork(c, s, s', t, k); WorksDraining(c, s, s', t);
    case Leaving => LeavesWork(s, s', t); WorksDraining(c, s, s', t);
    case Submitting(k) => SubmitsServe(c, s, s', t, k); ServesDraining(c, s, s', t);
    case Replaying(k) => ReplaysServe(c, s, s', t, k); ServesDraining(c, s, s', t);
    case Living(k) => LivesDraining(c, s, s', t, k);
    case Beginning(_, _) => OthersServe(c, s, s', t, step); ServesDraining(c, s, s', t);
    case Accept => OthersServe(c, s, s', t, step); ServesDraining(c, s, s', t);
    case TakeDead => OthersServe(c, s, s', t, step); ServesDraining(c, s, s', t);
    case Purge => QueuesDraining(c, s, s');
    case Calling(k) => NoCalls(c, s, s', t, k);
    case Environment(_) => QueuesDraining(c, s, s');
  }

  lemma QueuesDraining(c: Config, s: Pool, s': Pool)
    requires Draining(c, s) && s'.threads == s.threads && s'.life == s.life && s'.q == s.q.(dead := s'.q.dead)
    ensures Draining(c, s')
  {
  }

  lemma NoCalls(c: Config, s: Pool, s': Pool, t: Tid, k: CallStep)
    requires Draining(c, s) && k != Terminate
    ensures !Calls(s, s', t, k)
  {
  }

  // ---- Main results ----

  /** Event b is the first store of stateStopping, made after Start returned and while no submit
      and no replay was past its state check; nobody terminates the pool. */
  ghost predicate Graceful(states: seq<Pool>, events: seq<Event>, b: nat) {
    && |states| == |events| + 1 && b < |events| && events[b].step == Living(StoreStopping)
    && (forall i | 0 <= i < b :: events[i].step != Living(StoreStopping))
    && (forall i | 0 <= i < |events| :: events[i].step != Calling(Terminate))
    && states[b].life.startDone && (forall t | t in states[b].threads :: !Producing(states[b].threads[t]))
  }

  lemma {:induction false} RunOpen(c: Config, states: seq<Pool>, events: seq<Event>, b: nat, i: nat)
    requires IsRun(c, states, events) && Graceful(states, events, b) && i <= b
    ensures Open(c, states[i])
  {
    hide Next;
    if i > 0 {
      hide Open;
      var s, s', t, step := states[i - 1], states[i], events[i - 1].t, events[i - 1].step;
      assert Next(c, s, s', t, step);
      RunOpen(c, states, events, b, i - 1);
      StepOpen(c, s, s', t, step);
    }
  }

  lemma {:induction false} RunDraining(c: Config, states: seq<Pool>, events: seq<Event>, b: nat, i: nat)
    requires IsRun(c, states, events) && Graceful(states, events, b) && b < i < |states|
    ensures Draining(c, states[i])
  {
    hide Next, Open, Draining, Staffed;
    var s, s', t, step := states[i - 1], states[i], events[i - 1].t, events[i - 1].step;
    assert Next(c, s, s', t, step);
    RunStaffed(c, states, events, i - 1);
    if i - 1 == b {
      RunOpen(c, states, events, b, b);
      StopStep(c, s, s', t);
    } else {
      RunDraining(c, states, events, b, i - 1);
      StepDraining(c, s, s', t, step);
    }
  }

  lemma StopStep(c: Config, s: Pool, s': Pool, t: Tid)
    requires Normal(c) && Staffed(c, s) && Open(c, s) && Next(c, s, s', t, Living(StoreStopping))
    requires s.life.startDone && forall u | u in s.threads :: !Producing(s.threads[u])
    ensures Draining(c, s')
  {
    StopsDraining(c, s, s', t);
  }

  /** Graceful drain: once every worker has left, the two fast queues and the heap are empty, for
      all interleavings of workers that look at one queue at a time while running jobs requeue.
      The spill is empty too if the configuration never spills; otherwise it need not be, see
      module PoolSpill. */
  lemma Drained(c: Config, states: seq<Pool>, events: seq<Event>, b: nat, i: nat)
    requires IsRun(c, states, events) && Graceful(states, events, b) && b < i < |states| && WaitOver(states[i])
    ensures states[i].q.basic == [] && states[i].q.fast == [] && states[i].q.heap == multiset{}
    ensures NeverSpills(c) ==> states[i].q.spill == []
  {
    hide Next, WaitOver;
    RunDraining(c, states, events, b, i);
  }
}

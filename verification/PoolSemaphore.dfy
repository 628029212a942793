/** The per-key concurrency limit across all workers. */
module PoolSemaphore {
  import opened Futures
  import opened KeyedSemaphore
  import opened TokenBucket
  import opened PoolProtocol
  import opened PoolThreads
  import opened PoolOwnership
  import opened PoolFuture
  import opened PoolCounters

  /** Between a successful acquire and its release. */
  predicate Acquiring(pc: Pc) {
    || pc.Unkeying? || pc.Releasing?
    || (pc.Exec? && (pc.x.Start? || pc.x.Run? || pc.x.RunSucceeded? || pc.x.RunFailed?
                     || ((pc.x.Requeue? || pc.x.RequeueCheck? || pc.x.Burying?) && pc.x.held)))
  }

  predicate Holds(jobs: Jobs, pc: Pc, k: Key) {
    Acquiring(pc) && pc.j in jobs && jobs[pc.j].opts.concurrency == k
  }

  /** The threads between acquire and release for key k. */
  function Holders(s: Pool, k: Key): set<Tid> {
    set t | t in s.threads && Holds(s.jobs, s.threads[t], k)
  }

  /** Every job that uses key k has a limit, between 1 and m. */
  predicate Limited(jobs: Jobs, k: Key, m: int) {
    forall j | j in jobs && jobs[j].opts.concurrency == k :: 0 < jobs[j].opts.maxConcurrent <= m
  }

  ghost predicate Tallied(s: Pool, k: Key, m: int) {
    Limited(s.jobs, k, m) ==>
      && Active(s.sh.active, k) == |Holders(s, k)| <= m
      && (k in s.sh.active ==> s.sh.active[k] > 0)
  }

  /** The jobs a thread is executing exist. */
  ghost predicate Known(s: Pool) {
    forall t | t in s.threads && Acquiring(s.threads[t]) :: s.threads[t].j in s.jobs
  }

  /** The step leaves the counts alone, and t on the same side of acquire and release. */
  ghost predicate SameSide(s: Pool, s': Pool, t: Tid) {
    && t in s'.threads && s'.sh.active == s.sh.active
    && (Acquiring(PcOf(s, t)) <==> Acquiring(s'.threads[t]))
    && (Acquiring(PcOf(s, t)) ==> s'.threads[t].j == PcOf(s, t).j)
  }

  lemma ControlSide(c: Config, s: Pool, s': Pool, t: Tid, pc': Pc)
    requires Control(c, s, s', t, pc')
    ensures SameSide(s, s', t)
  {
    hide LoopMoves, SubmitMoves;
  }

  lemma TakesSide(s: Pool, s': Pool, t: Tid, k: TakeStep)
    requires Takes(s, s', t, k)
    ensures SameSide(s, s', t)
  {
  }

  lemma RunsBasicSide(s: Pool, s': Pool, t: Tid, k: BasicStep)
    requires RunsBasic(s, s', t, k)
    ensures SameSide(s, s', t)
  {
  }

  lemma PreparesSide(s: Pool, s': Pool, t: Tid, k: PrepareStep)
    requires Prepares(s, s', t, k) && k != AcquireKey
    ensures SameSide(s, s', t)
  {
  }

  lemma ReservesSide(s: Pool, s': Pool, t: Tid, k: ReserveStep)
    requires Reserves(s, s', t, k)
    ensures SameSide(s, s', t)
  {
    hide Reserve, Truncated, Handed, Admits;
  }

  lemma ConcludesSide(s: Pool, s': Pool, t: Tid, k: ConcludeStep)
    requires Concludes(s, s', t, k)
    ensures SameSide(s, s', t)
  {
  }

  lemma PutsBackSide(c: Config, s: Pool, s': Pool, t: Tid, k: PutStep)
    requires PutsBack(c, s, s', t, k)
    ensures SameSide(s, s', t)
  {
    hide HeapFull;
  }

  lemma SubmitsSide(c: Config, s: Pool, s': Pool, t: Tid, k: SubmitStep)
    requires Submits(c, s, s', t, k)
    ensures SameSide(s, s', t)
  {
    hide Reserve, HeapFull, SpillRefuses, FirstRunAt, UseFastQueue;
  }

  lemma ReplaysSide(c: Config, s: Pool, s': Pool, t: Tid, k: ReplayStep)
    requires Replays(c, s, s', t, k)
    ensures SameSide(s, s', t)
  {
    hide HeapFull;
  }

  /** The two steps that cross the line. */
  predicate Crosses(s: Pool, t: Tid, step: Step) {
    step == Preparing(AcquireKey) || (step == Leaving && t in s.threads && s.threads[t].Releasing?)
  }

  lemma StepSide(c: Config, s: Pool, s': Pool, t: Tid, step: Step)
    requires Next(c, s, s', t, step) && !Crosses(s, t, step)
    requires !step.Calling? && !step.Living? && !step.Environment? && !step.Purge?
    ensures SameSide(s, s', t)
  {
    hide Takes, RunsBasic, Prepares, Reserves, Concludes, PutsBack, Submits, Replays, Control, Moved;
    match step
    case Moves(pc) => ControlSide(c, s, s', t, pc);
    case Taking(k) => TakesSide(s, s', t, k);
    case Basics(k) => RunsBasicSide(s, s', t, k);
    case Preparing(k) => PreparesSide(s, s', t, k);
    case Reserving(k) => ReservesSide(s, s', t, k);
    case Concluding(k) => ConcludesSide(s, s', t, k);
    case Putting(k) => PutsBackSide(c, s, s', t, k);
    case Submitting(k) => SubmitsSide(c, s, s', t, k);
    case Replaying(k) => ReplaysSide(c, s, s', t, k);
    case _ =>
  }

  /** Every job keeps its options. */
  ghost predicate SameOpts(s: Pool, s': Pool) {
    forall j | j in s.jobs :: j in s'.jobs && s'.jobs[j].opts == s.jobs[j].opts
  }

  /** Where only t moves, only t can come to hold k or cease to. */
  lemma HoldersMove(s: Pool, s': Pool, t: Tid, k: Key)
    requires Known(s) && SameOpts(s, s') && t in s'.threads && s'.threads == s.threads[t := s'.threads[t]]
    ensures |Holders(s', k)| == |Holders(s, k)| - One(t in Holders(s, k)) + One(t in Holders(s', k))
    ensures Holders(s', k) - {t} == Holders(s, k) - {t}
  {
    var before, after := Holders(s, k), Holders(s', k);
    forall u | u != t ensures u in before <==> u in after {}
    hide Holders;
    SetMoves(before, after, t);
  }

  lemma SideTallied(s: Pool, s': Pool, t: Tid, k: Key, m: int)
    requires Tallied(s, k, m) && Known(s) && SameOpts(s, s') && OneThread(s, s', t) && SameSide(s, s', t)
    ensures Tallied(s', k, m) && Known(s')
  {
    assert t in Holders(s, k) <==> t in Holders(s', k);
    HoldersMove(s, s', t, k);
    LimitedBefore(s, s', k, m);
    hide Holders, Limited;
  }

  lemma AcquireTallied(s: Pool, s': Pool, t: Tid, k: Key, m: int)
    requires k != NO_KEY && Tallied(s, k, m) && Known(s) && SameOpts(s, s') && Prepares(s, s', t, AcquireKey)
    ensures Tallied(s', k, m) && Known(s')
    ensures Limited(s.jobs, k, m) && s.jobs[s.threads[t].j].opts.concurrency == k ==>
              |Holders(s, k)| < s.jobs[s.threads[t].j].opts.maxConcurrent && t !in Holders(s, k)
  {
    var job := s.jobs[s.threads[t].j];
    assert t !in Holders(s, k) && (t in Holders(s', k) <==> job.opts.concurrency == k);
    HoldersMove(s, s', t, k);
    LimitedBefore(s, s', k, m);
    hide Holders, SameOpts;
  }

  lemma ReleaseTallied(s: Pool, s': Pool, t: Tid, k: Key, m: int)
    requires k != NO_KEY && Tallied(s, k, m) && Known(s) && SameOpts(s, s') && Leaves(s, s', t)
             && s.threads[t].Releasing?
    ensures Tallied(s', k, m) && Known(s')
  {
    var job := s.jobs[s.threads[t].j];
    assert t !in Holders(s', k) && (t in Holders(s, k) <==> job.opts.concurrency == k);
    HoldersMove(s, s', t, k);
    LimitedBefore(s, s', k, m);
    hide Holders, SameOpts;
  }

  /** No thread between acquire and release moves. */
  ghost predicate HoldersStay(s: Pool, s': Pool) {
    && s'.sh.active == s.sh.active
    && (forall u | u in s'.threads && Acquiring(s'.threads[u]) :: u in s.threads && s'.threads[u] == s.threads[u])
    && (forall u | u in s.threads && Acquiring(s.threads[u]) :: u in s'.threads && s'.threads[u] == s.threads[u])
  }

  lemma StayTallied(s: Pool, s': Pool, k: Key, m: int)
    requires Tallied(s, k, m) && Known(s) && SameOpts(s, s') && HoldersStay(s, s')
    ensures Tallied(s', k, m) && Known(s')
  {
    assert Holders(s', k) == Holders(s, k);
    LimitedBefore(s, s', k, m);
    hide Limited, Holders;
  }

  lemma CallsStay(s: Pool, s': Pool, t: Tid, k: CallStep)
    requires Calls(s, s', t, k)
    ensures HoldersStay(s, s')
  {
  }

  lemma LivesStay(c: Config, s: Pool, s': Pool, t: Tid, k: LifeStep)
    requires Staffed(c, s) && Lives(c, s, s', t, k)
    ensures HoldersStay(s, s')
  {
    LivesFrame(c, s, s', t, k);
    hide Lives, Staffed;
  }

  /** Lifecycle and environment steps touch no worker that holds a key. */
  lemma OtherStay(c: Config, s: Pool, s': Pool, t: Tid, step: Step)
    requires Staffed(c, s) && Next(c, s, s', t, step)
    requires step.Calling? || step.Living? || step.Environment? || step.Purge?
    ensures HoldersStay(s, s')
  {
    hide Moved, Calls, Lives, Staffed;
    if step.Calling? { CallsStay(s, s', t, step.call); }
    if step.Living? { LivesStay(c, s, s', t, step.life); }
  }

  lemma LimitedBefore(s: Pool, s': Pool, k: Key, m: int)
    requires SameOpts(s, s')
    ensures Limited(s'.jobs, k, m) ==> Limited(s.jobs, k, m)
  {
  }

  lemma StepTallied(c: Config, s: Pool, s': Pool, t: Tid, step: Step, k: Key, m: int)
    requires k != NO_KEY && Staffed(c, s) && Tallied(s, k, m) && Known(s) && SameOpts(s, s') && Next(c, s, s', t, step)
    ensures Tallied(s', k, m) && Known(s')
  {
    hide Staffed, Tallied, Known, SameOpts, OneThread, SameSide, HoldersStay, Prepares, Leaves;
    if step.Calling? || step.Living? || step.Environment? || step.Purge? {
      hide Next;
      OtherStay(c, s, s', t, step);
      StayTallied(s, s', k, m);
    } else if step == Preparing(AcquireKey) {
      AcquireTallied(s, s', t, k, m);
    } else if Crosses(s, t, step) {
      ReleaseTallied(s, s', t, k, m);
    } else {
      hide Next;
      StepFrame(c, s, s', t, step);
      StepSide(c, s, s', t, step);
      SideTallied(s, s', t, k, m);
    }
  }

  lemma OptsStay(c: Config, states: seq<Pool>, events: seq<Event>, i: nat)
    requires IsRun(c, states, events) && i < |events|
    ensures SameOpts(states[i], states[i + 1])
  {
    hide Next, FateOf;
    forall j | j in states[i].jobs
      ensures j in states[i + 1].jobs && states[i + 1].jobs[j].opts == states[i].jobs[j].opts {
      RunAges(c, states, events, i, j);
    }
  }

  lemma {:induction false} RunTallied(c: Config, states: seq<Pool>, events: seq<Event>, i: nat, k: Key, m: nat)
    requires IsRun(c, states, events) && i < |states| && k != NO_KEY
    ensures Tallied(states[i], k, m) && Known(states[i])
  {
    hide Next;
    if i > 0 {
      hide Tallied, Known;
      var s, s', t, step := states[i - 1], states[i], events[i - 1].t, events[i - 1].step;
      assert Next(c, s, s', t, step);
      RunTallied(c, states, events, i - 1, k, m);
      RunStaffed(c, states, events, i - 1);
      OptsStay(c, states, events, i - 1);
      StepTallied(c, s, s', t, step, k, m);
    }
  }

  // ---- Main results ----

  /** The threads running an attempt for key k. */
  function Running(s: Pool, k: Key): set<Tid> {
    set t | t in s.threads && s.threads[t].Exec? && s.threads[t].x.Run? && s.threads[t].j in s.jobs
            && s.jobs[s.threads[t].j].opts.concurrency == k
  }

  lemma SubsetCount(a: set<Tid>, b: set<Tid>)
    requires a <= b
    ensures |a| <= |b|
  {
    assert b == a + (b - a);
  }

  lemma FewerRun(s: Pool, k: Key)
    ensures |Running(s, k)| <= |Holders(s, k)|
  {
    SubsetCount(Running(s, k), Holders(s, k));
  }

  /** If every job that ever used key k carries a positive limit of at most m, then the semaphore
      counts exactly the threads between acquire and release, keeps no zero entry, and at most m
      attempts for k run at once. */
  lemma AtMostLimit(c: Config, states: seq<Pool>, events: seq<Event>, i: nat, k: Key, m: nat)
    requires IsRun(c, states, events) && i < |states| && k != NO_KEY && Limited(states[i].jobs, k, m)
    ensures Active(states[i].sh.active, k) == |Holders(states[i], k)| <= m
    ensures k in states[i].sh.active <==> Holders(states[i], k) != {}
    ensures |Running(states[i], k)| <= m
  {
    hide Next;
    RunTallied(c, states, events, i, k, m);
    FewerRun(states[i], k);
  }

  /** Each acquire for such a key sees fewer holders than its own job's limit. */
  lemma AcquireSeesRoom(c: Config, states: seq<Pool>, events: seq<Event>, i: nat, k: Key, m: nat)
    requires IsRun(c, states, events) && i < |events| && k != NO_KEY && Limited(states[i].jobs, k, m)
    requires events[i].step == Preparing(AcquireKey)
    ensures var (s, t) := (states[i], events[i].t);
            t in s.threads && s.threads[t].Exec? && s.threads[t].j in s.jobs
            && (s.jobs[s.threads[t].j].opts.concurrency == k ==>
                  |Holders(s, k)| < s.jobs[s.threads[t].j].opts.maxConcurrent && t !in Holders(s, k))
  {
    var s, s', t := states[i], states[i + 1], events[i].t;
    assert Next(c, s, s', t, events[i].step);
    hide Next;
    RunTallied(c, states, events, i, k, m);
    OptsStay(c, states, events, i);
    AcquireTallied(s, s', t, k, m);
  }
}

/** What happens to a job record over time: futures complete once and answer the same for ever,
    and a job that is gone stays gone. */
module PoolFuture {
  import opened Options
  import opened Futures
  import opened TokenBucket
  import opened PoolProtocol
  import opened PoolOwnership

  /** Only a finished job's future is done without an error. */
  predicate Sound(job: Job) {
    job.future.done && job.future.err.None? ==> job.track.place == Gone(Succeeded)
  }

  /** Ends at which a job that took its idempotency key keeps it. */
  predicate KeepsKey(p: Place) {
    p == Gone(End.Cancelled) || p == Gone(Evicted) || p == Gone(Rejected)
  }

  /** What a step means to a job beyond the ordinary: its result is set, it succeeds
      (on the basic way: is served), it is dead-lettered, loses its key after a success, is taken
      off the dead list, or comes to an end without giving its key back, which its future is told
      or not. */
  datatype Fate =
    | Ordinary | Written(v: int) | Finished | Served | Buried(err: Error) | Unkeyed | Dug | Dropped(tells: bool)

  function FateOf(s: Pool, t: Tid, step: Step, j: JobId): Fate {
    if t !in s.threads then Ordinary
    else
      var pc := s.threads[t];
      if step == Putting(Bury) && pc.Exec? && pc.j == j && pc.x.Burying? then Buried(pc.x.err)
      else if step.Concluding? && step.conclude.SetResult? && pc.Exec? && pc.j == j then Written(step.conclude.v)
      else if step == Basics(EndBasic(true)) && pc.Basic? && pc.j == j then Served
      else if step == Concluding(FinishSuccess) && pc.Exec? && pc.j == j then Finished
      else if step == Leaving && pc == Unkeying(j) then Unkeyed
      else if step == TakeDead && j in s.q.dead then Dug
      else if step == Preparing(DropCancelled) && pc.Exec? && pc.j == j then Fate.Dropped(true)
      else if step == Submitting(RejectSubmit) && pc.Submit? && pc.j == j then Fate.Dropped(pc.u == Rejecting(true))
      else if step.Submitting? && step.submit.PushEvicting? && step.submit.e.value == j then Fate.Dropped(false)
      else Ordinary
  }

  predicate Tells(fate: Fate) {
    fate == Finished || fate.Buried? || (fate.Dropped? && fate.tells)
  }

  /** The error with which a future completes in such a step: the dead letter's, none after a
      success, the queue's if the submit has been refused, and otherwise the cancellation. */
  function Verdict(job': Job, fate: Fate): Option<Error> {
    match fate
    case Buried(err) => Some(err)
    case Finished => None
    case Dropped(_) => if job'.track.place == Gone(Rejected) then Some(QueueFull) else Some(Error.Cancelled)
    case _ => Some(Error.Cancelled)
  }

  /** One step in the life of a job. */
  predicate Ages(job: Job, job': Job, fate: Fate) {
    && job'.opts == job.opts && Sound(job')
    && (job.cancelled ==> job'.cancelled)
    && (job.track.place.Gone? ==> job'.track.place == job.track.place)
    && (job.future.done ==> job'.future.done && Answer(job'.future) == Answer(job.future))
    && (job'.future.done ==> job.future.done || job'.cancelled || job'.track.place.Gone? || fate.Buried?)
    && job'.future.value == (if fate.Written? then Some(fate.v) else job.future.value)
    && (job'.future.done && !job.future.done ==> job'.future.err == Verdict(job', fate))
    && (job'.future.done && !job.future.done ==>
          Tells(fate) || (job'.cancelled && job'.track.place == job.track.place))
    && (Tells(fate) ==> job'.future.done && job'.track.place != Gone(Evicted))
      && (Tells(fate) || fate.Dropped? ==> !job.track.place.Gone?)
    && (job'.track.place == Gone(Succeeded) ==>
          job.track.place == Gone(Succeeded) || fate == Finished || fate == Served)
    && (job.track.keyHeld && !job'.track.keyHeld ==> fate.Buried? || fate == Unkeyed)
    && (job'.track.keyHeld && !job.track.keyHeld ==> job.track.place.Held?)
    && (fate.Buried? ==> job'.track.place == InDead) && (fate == Finished ==> job'.track.place == Gone(Succeeded))
    && (!job.track.place.Gone? ==> (KeepsKey(job'.track.place) <==> fate.Dropped?))
    && (job.track.place == InDead ==> job'.track.place == InDead || job'.track.place == Gone(Purged) || fate == Dug)
  }

  ghost predicate AllSound(s: Pool) {
    forall j | j in s.jobs :: Sound(s.jobs[j])
  }

  predicate Newcomer(s': Pool, t: Tid, step: Step, j: JobId) {
    && j in s'.jobs && s'.jobs[j].future == NewFuture() && s'.jobs[j].track.place == Held(t)
    && step.Beginning? && step.j == j
  }

  ghost predicate AllAge(s: Pool, s': Pool, t: Tid, step: Step) {
    && (forall j | j in s.jobs :: j in s'.jobs && Ages(s.jobs[j], s'.jobs[j], FateOf(s, t, step, j)))
    && (forall j | j in s'.jobs && j !in s.jobs :: Newcomer(s', t, step, j))
  }

  lemma OneAges(s: Pool, s': Pool, t: Tid, step: Step, j: JobId)
    requires AllSound(s) && j in s.jobs && j in s'.jobs && s'.jobs == s.jobs[j := s'.jobs[j]] && !step.TakeDead?
    requires Ages(s.jobs[j], s'.jobs[j], FateOf(s, t, step, j))
    requires forall i | i != j :: FateOf(s, t, step, i) == Ordinary
    ensures AllAge(s, s', t, step)
  {
  }

  lemma NoneAges(s: Pool, s': Pool, t: Tid, step: Step)
    requires AllSound(s) && s'.jobs == s.jobs && forall j :: FateOf(s, t, step, j) == Ordinary
    ensures AllAge(s, s', t, step)
  {
  }

  lemma SoundIs(s: Pool, j: JobId)
    requires AllSound(s) && j in s.jobs
    ensures Sound(s.jobs[j])
  {
  }

  /** Most steps mean nothing special to anybody. */
  lemma OrdinaryFate(s: Pool, t: Tid, step: Step)
    requires step.Taking? || step.Replaying? || step.Environment? || step.Reserving?
    ensures forall j :: FateOf(s, t, step, j) == Ordinary
  {
  }

  lemma TakesAge(s: Pool, s': Pool, t: Tid, k: TakeStep)
    requires Owned(s) && AllSound(s) && Takes(s, s', t, k)
    ensures AllAge(s, s', t, Taking(k))
  {
    TakenFrom(s, s', t, k);
    OrdinaryFate(s, t, Taking(k));
    hide Owned, AllSound, AllAge, FateOf;
    var j := s'.threads[t].j;
    SoundIs(s, j);
    OneAges(s, s', t, Taking(k), j);
  }

  lemma RunsBasicAge(s: Pool, s': Pool, t: Tid, k: BasicStep)
    requires Owned(s) && AllSound(s) && RunsBasic(s, s', t, k)
    ensures AllAge(s, s', t, Basics(k))
  {
    var j := s.threads[t].j;
    JobInHand(s, t);
    SoundIs(s, j);
    hide Owned, AllSound, AllAge;
    if k.StartBasic? || k == EndBasic(false) {
      NoneAges(s, s', t, Basics(k));
    } else {
      OneAges(s, s', t, Basics(k), j);
    }
  }

  lemma PreparesAge(s: Pool, s': Pool, t: Tid, k: PrepareStep)
    requires Owned(s) && AllSound(s) && Prepares(s, s', t, k)
    ensures AllAge(s, s', t, Preparing(k))
  {
    hide Owned, AllSound, AllAge;
    var j := s.threads[t].j;
    JobInHand(s, t);
    SoundIs(s, j);
    if k == AcquireKey { NoneAges(s, s', t, Preparing(k)); } else { OneAges(s, s', t, Preparing(k), j); }
  }

  lemma ReservesAge(s: Pool, s': Pool, t: Tid, k: ReserveStep)
    requires Owned(s) && AllSound(s) && Reserves(s, s', t, k)
    ensures AllAge(s, s', t, Reserving(k))
  {
    hide Owned, AllSound, AllAge, Handed, Reserve, Truncated;
    var j := s.threads[t].j;
    JobInHand(s, t);
    SoundIs(s, j);
    if k == ReserveRate { NoneAges(s, s', t, Reserving(k)); } else { OneAges(s, s', t, Reserving(k), j); }
  }

  lemma ConcludesAge(s: Pool, s': Pool, t: Tid, k: ConcludeStep)
    requires Owned(s) && AllSound(s) && Concludes(s, s', t, k)
    ensures AllAge(s, s', t, Concluding(k))
  {
    hide Owned, AllSound, AllAge;
    var j := s.threads[t].j;
    JobInHand(s, t);
    SoundIs(s, j);
    if k.Succeed? || k.Fail? { NoneAges(s, s', t, Concluding(k)); } else { OneAges(s, s', t, Concluding(k), j); }
  }

  lemma PutsBackAge(c: Config, s: Pool, s': Pool, t: Tid, k: PutStep)
    requires Owned(s) && AllSound(s) && PutsBack(c, s, s', t, k)
    ensures AllAge(s, s', t, Putting(k))
  {
    hide Owned, AllSound, AllAge, HeapFull;
    var j := s.threads[t].j;
    JobInHand(s, t);
    SoundIs(s, j);
    if k == Refuse { NoneAges(s, s', t, Putting(k)); } else { OneAges(s, s', t, Putting(k), j); }
  }

  lemma LeavesAge(s: Pool, s': Pool, t: Tid)
    requires AllSound(s) && Leaves(s, s', t)
    ensures AllAge(s, s', t, Step.Leaving)
  {
    hide AllSound, AllAge;
    var j := s.threads[t].j;
    SoundIs(s, j);
    OneAges(s, s', t, Step.Leaving, j);
  }

  lemma SubmitsAge(c: Config, s: Pool, s': Pool, t: Tid, k: SubmitStep)
    requires Owned(s) && AllSound(s) && Submits(c, s, s', t, k)
    ensures AllAge(s, s', t, Submitting(k))
  {
    hide Owned, AllSound, AllAge, Reserve, FirstRunAt, UseFastQueue, HeapFull, SpillRefuses;
    var j := s.threads[t].j;
    JobInHand(s, t);
    SoundIs(s, j);
    if k.PushEvicting? { EvictsAge(c, s, s', t, k.e); }
    else if k.AdmitRate? { NoneAges(s, s', t, Submitting(k)); }
    else { OneAges(s, s', t, Submitting(k), j); }
  }

  lemma EvictsAge(c: Config, s: Pool, s': Pool, t: Tid, e: Item)
    requires Owned(s) && AllSound(s) && Submits(c, s, s', t, PushEvicting(e))
    ensures AllAge(s, s', t, Submitting(PushEvicting(e)))
  {
    hide Owned, HeapFull;
    MidwayOwned(c, s, s', t, e);
    hide EvictsFrom;
    forall j | j in s.jobs
      ensures j in s'.jobs && Ages(s.jobs[j], s'.jobs[j], FateOf(s, t, Submitting(PushEvicting(e)), j))
    {
      SoundIs(s, j);
      EvictsOneAges(c, s, s', t, e, j);
    }
  }

  lemma EvictsOneAges(c: Config, s: Pool, s': Pool, t: Tid, e: Item, j: JobId)
    requires Submits(c, s, s', t, PushEvicting(e)) && j in s.jobs && Sound(s.jobs[j])
    requires IsAt(s.jobs, e.value, InHeap) && IsAt(s.jobs, s.threads[t].j, Held(t))
    ensures j in s'.jobs && Ages(s.jobs[j], s'.jobs[j], FateOf(s, t, Submitting(PushEvicting(e)), j))
  {
    hide HeapFull;
  }

  lemma ReplaysAge(c: Config, s: Pool, s': Pool, t: Tid, k: ReplayStep)
    requires Owned(s) && AllSound(s) && Replays(c, s, s', t, k)
    ensures AllAge(s, s', t, Replaying(k))
  {
    var items := s.threads[t].items;
    ReplayInHand(s, t);
    OrdinaryFate(s, t, Replaying(k));
    hide Owned, AllSound, AllAge, HeapFull, FateOf;
    if k.PushFails? || k.CountReplay? { NoneAges(s, s', t, Replaying(k)); }
    else { SoundIs(s, items[0]); OneAges(s, s', t, Replaying(k), items[0]); }
  }

  lemma MovedAge(s: Pool, s': Pool, t: Tid, step: Step, p: Place)
    requires Owned(s) && AllSound(s) && s'.jobs == Moved(s.jobs, s.q.dead, p)
    requires (step == TakeDead && p.Held? && t in s.threads) || (step == Purge && p == Gone(Purged))
    ensures AllAge(s, s', t, step)
  {
    hide Owned;
    forall j | j in s.jobs ensures j in s'.jobs && Ages(s.jobs[j], s'.jobs[j], FateOf(s, t, step, j)) {
      DeadIsDead(s, j);
      MovedOneAges(s, s', t, step, p, j);
    }
  }

  lemma MovedOneAges(s: Pool, s': Pool, t: Tid, step: Step, p: Place, j: JobId)
    requires AllSound(s) && s'.jobs == Moved(s.jobs, s.q.dead, p) && j in s.jobs
             && (j in s.q.dead <==> IsAt(s.jobs, j, InDead))
    requires (step == TakeDead && p.Held? && t in s.threads) || (step == Purge && p == Gone(Purged))
    ensures j in s'.jobs && Ages(s.jobs[j], s'.jobs[j], FateOf(s, t, step, j))
  {
    SoundIs(s, j);
    hide AllSound;
  }

  lemma OutsideAge(s: Pool, s': Pool, t: Tid, k: EnvStep)
    requires AllSound(s) && Outside(s, s', k)
    ensures AllAge(s, s', t, Environment(k))
  {
    hide AllSound, AllAge;
    if k.CancelJob? || k.CancelFuture? {
      SoundIs(s, k.j); OneAges(s, s', t, Environment(k), k.j);
    } else {
      NoneAges(s, s', t, Environment(k));
    }
  }

  lemma StepAges(c: Config, s: Pool, s': Pool, t: Tid, step: Step)
    requires Owned(s) && AllSound(s) && Next(c, s, s', t, step)
    ensures AllAge(s, s', t, step)
  {
    hide Owned, AllSound, AllAge, Takes, RunsBasic, Prepares, Reserves, Concludes, Submits, Replays;
    hide Leaves, Outside, Moved, WaitOver, LoopMoves, ExecMoves, SubmitMoves, Normalized;
    match step
    case Taking(k) => TakesAge(s, s', t, k);
    case Basics(k) => RunsBasicAge(s, s', t, k);
    case Preparing(k) => PreparesAge(s, s', t, k);
    case Reserving(k) => ReservesAge(s, s', t, k);
    case Concluding(k) => ConcludesAge(s, s', t, k);
    case Putting(k) => PutsBackAge(c, s, s', t, k);
    case Leaving => LeavesAge(s, s', t);
    case Beginning(j, o) => BeginsAge(c, s, s', t, j, o);
    case Submitting(k) => SubmitsAge(c, s, s', t, k);
    case TakeDead => MovedAge(s, s', t, step, Held(t));
    case Purge => MovedAge(s, s', t, step, Gone(Purged));
    case Replaying(k) => ReplaysAge(c, s, s', t, k);
    case Environment(k) => OutsideAge(s, s', t, k);
    case _ => NoneAges(s, s', t, step);
  }

  lemma BeginsAge(c: Config, s: Pool, s': Pool, t: Tid, j: JobId, o: Opts)
    requires AllSound(s) && Begins(c, s, s', t, j, o)
    ensures AllAge(s, s', t, Beginning(j, o))
  {
  }

  lemma StaysSound(s: Pool, s': Pool, t: Tid, step: Step)
    requires AllSound(s) && AllAge(s, s', t, step)
    ensures AllSound(s')
  {
  }

  lemma {:induction false} RunSound(c: Config, states: seq<Pool>, events: seq<Event>, i: nat)
    requires IsRun(c, states, events) && i < |states|
    ensures AllSound(states[i])
  {
    hide Next, AllAge;
    if i > 0 {
      var s, s', t, step := states[i - 1], states[i], events[i - 1].t, events[i - 1].step;
      assert Next(c, s, s', t, step);
      RunSound(c, states, events, i - 1);
      RunOwned(c, states, events, i - 1);
      StepAges(c, s, s', t, step);
      StaysSound(s, s', t, step);
    }
  }

  /** What step i does to job j. */
  lemma RunAges(c: Config, states: seq<Pool>, events: seq<Event>, i: nat, j: JobId)
    requires IsRun(c, states, events) && i < |events|
    ensures j in states[i].jobs ==>
              j in states[i + 1].jobs
                && Ages(states[i].jobs[j], states[i + 1].jobs[j], FateOf(states[i], events[i].t, events[i].step, j))
    ensures j in states[i + 1].jobs && j !in states[i].jobs ==>
              Newcomer(states[i + 1], events[i].t, events[i].step, j)
  {
    hide Next, Ages;
    RunSound(c, states, events, i);
    RunOwned(c, states, events, i);
    StepAges(c, states[i], states[i + 1], events[i].t, events[i].step);
  }

  // ---- Main results ----

  /** A future completes at most once and answers the same for ever after, even when a worker is
      still running the cancelled job, and even after its dead letter is replayed. */
  lemma {:induction false} AnswersStay(c: Config, states: seq<Pool>, events: seq<Event>, i: nat, k: nat, j: JobId)
    requires IsRun(c, states, events) && i <= k < |states| && j in states[i].jobs && states[i].jobs[j].future.done
    ensures j in states[k].jobs && states[k].jobs[j].future.done
    ensures Answer(states[k].jobs[j].future) == Answer(states[i].jobs[j].future)
  {
    hide Next, FateOf;
    if i < k {
      AnswersStay(c, states, events, i, k - 1, j);
      RunAges(c, states, events, k - 1, j);
    }
  }

  /** Jobs are never forgotten, and one that succeeded, was cancelled, evicted, purged or
      rejected never comes back. */
  lemma {:induction false} GoneStays(c: Config, states: seq<Pool>, events: seq<Event>, i: nat, k: nat, j: JobId)
    requires IsRun(c, states, events) && i <= k < |states| && j in states[i].jobs
    ensures j in states[k].jobs && states[k].jobs[j].opts == states[i].jobs[j].opts
    ensures states[i].jobs[j].track.place.Gone? ==> states[k].jobs[j].track.place == states[i].jobs[j].track.place
  {
    hide Next, FateOf;
    if i < k {
      GoneStays(c, states, events, i, k - 1, j);
      RunAges(c, states, events, k - 1, j);
    }
  }

  /** While a job is still to run again, its future is pending unless the job was cancelled or
      has been dead-lettered before: in particular between a failed attempt and its retry. */
  lemma {:induction false} PendingUntilTheEnd(c: Config, states: seq<Pool>, events: seq<Event>, k: nat, j: JobId)
    requires IsRun(c, states, events) && k < |states| && j in states[k].jobs && states[k].jobs[j].future.done
    ensures states[k].jobs[j].cancelled || states[k].jobs[j].track.place.Gone?
            || exists m: nat | m < k :: FateOf(states[m], events[m].t, events[m].step, j).Buried?
  {
    hide Next, FateOf;
    if k > 0 {
      RunAges(c, states, events, k - 1, j);
      if j in states[k - 1].jobs && states[k - 1].jobs[j].future.done {
        PendingUntilTheEnd(c, states, events, k - 1, j);
      }
    }
  }
}

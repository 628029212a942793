/** Which jobs give their idempotency key back when they end, and which keep it for ever. */
module PoolLostKeys {
  import opened KeyedSemaphore
  import opened TokenBucket
  import opened PoolProtocol
  import opened PoolOwnership
  import opened PoolFuture
  import opened PoolIdempotency
  import opened PoolDrain

  /** Job j has passed the duplicate test by state i, and so took its key. */
  ghost predicate Took(states: seq<Pool>, events: seq<Event>, i: nat, j: JobId) {
    exists m: nat | m < i :: m < |events| && m < |states| && TakesKeyAt(states[m], events[m], j)
  }

  predicate TakesKeyAt(s: Pool, e: Event, j: JobId) {
    e.step == Submitting(TakeKey) && e.t in s.threads && s.threads[e.t] == Submit(j, Keying)
  }

  /** Job j has come to an end: it is gone, or a dead letter, and no worker still has to delete its key. */
  predicate Ended(s: Pool, j: JobId) {
    j in s.jobs && (s.jobs[j].track.place.Gone? || s.jobs[j].track.place == InDead) && !AboutToUnkey(s.threads, j)
  }

  /** The table maps j's key to j. */
  predicate HasKey(s: Pool, j: JobId) {
    j in s.jobs && s.jobs[j].opts.idempotency in s.sh.idemp && s.sh.idemp[s.jobs[j].opts.idempotency] == j
  }

  lemma TakingHolds(c: Config, s: Pool, s': Pool, e: Event, j: JobId)
    requires Next(c, s, s', e.t, e.step) && TakesKeyAt(s, e, j)
    ensures j in s'.jobs && s'.jobs[j].track.keyHeld && s'.jobs[j].opts.idempotency != NO_KEY
  {
  }

  predicate Released(p: Place) {
    p == InDead || p == Gone(Purged) || p == Gone(Succeeded)
  }

  /** What one step does to a job that took its key. */
  lemma StepHolds(s: Pool, s': Pool, t: Tid, step: Step, j: JobId)
    requires Keys(s) && Owned(s) && j in s.jobs && j in s'.jobs && Ages(s.jobs[j], s'.jobs[j], FateOf(s, t, step, j))
    requires (step == TakeDead ==> DeadKeyless(s)) && s.jobs[j].opts.idempotency != NO_KEY
    requires s.jobs[j].track.keyHeld || Released(s.jobs[j].track.place)
    ensures s'.jobs[j].track.keyHeld || Released(s'.jobs[j].track.place)
    ensures s.jobs[j].track.place == InDead ==>
              s'.jobs[j].track.place == InDead || s'.jobs[j].track.place == Gone(Purged)
    ensures s.jobs[j].track.keyHeld && KeepsKey(s.jobs[j].track.place) ==> s'.jobs[j].track.keyHeld
  {
    hide Owned, JobKey;
    if FateOf(s, t, step, j) == Unkeyed {
      assert ThreadKey(s.jobs, s.threads[t]);
    }
  }

  lemma {:induction false} TookHolds(c: Config, states: seq<Pool>, events: seq<Event>, i: nat, j: JobId)
    requires IsRun(c, states, events) && KeylessReplays(states, events) && i < |states| && Took(states, events, i, j)
    ensures j in states[i].jobs && states[i].jobs[j].opts.idempotency != NO_KEY
    ensures states[i].jobs[j].track.keyHeld || Released(states[i].jobs[j].track.place)
  {
    hide Next, Init, Owned, Keys, DeadKeyless, FateOf, Ages, TakesKeyAt;
    var m: nat :| m < i && m < |events| && m < |states| && TakesKeyAt(states[m], events[m], j);
    if m == i - 1 {
      TakingHolds(c, states[m], states[i], events[m], j);
    } else {
      assert Took(states, events, i - 1, j);
      TookHolds(c, states, events, i - 1, j);
      RunKeys(c, states, events, i - 1);
      RunOwned(c, states, events, i - 1);
      RunAges(c, states, events, i - 1, j);
      StepHolds(states[i - 1], states[i], events[i - 1].t, events[i - 1].step, j);
      OptsAge(states[i - 1].jobs[j], states[i].jobs[j], FateOf(states[i - 1], events[i - 1].t, events[i - 1].step, j));
    }
  }

  lemma OptsAge(job: Job, job': Job, fate: Fate)
    requires Ages(job, job', fate)
    ensures job'.opts == job.opts
    ensures job.track.place.Gone? ==> job'.track.place == job.track.place
    ensures job.track.place.Gone? || job.track.place == InDead ==> job'.track.keyHeld ==> job.track.keyHeld
  {
  }

  lemma HoldersHave(s: Pool, j: JobId)
    requires Keys(s) && j in s.jobs && s.jobs[j].opts.idempotency != NO_KEY
    ensures HasKey(s, j) <==> s.jobs[j].track.keyHeld
  {
  }

  lemma EndedKey(s: Pool, j: JobId)
    requires Keys(s) && Ended(s, j) && s.jobs[j].opts.idempotency != NO_KEY
    requires s.jobs[j].track.keyHeld || Released(s.jobs[j].track.place)
    ensures var p := s.jobs[j].track.place; (KeepsKey(p) || Released(p)) && (s.jobs[j].track.keyHeld <==> KeepsKey(p))
  {
    assert JobKey(s.jobs[j]);
    hide Table, ThreadKey;
    match s.jobs[j].track.place
    case Gone(end) =>
      match end {
        case Succeeded =>
        case _ =>
      }
    case _ =>
  }

  /** An ended job stays where it is, and keeps or stays without its key. */
  lemma {:induction false} EndedStays(c: Config, states: seq<Pool>, events: seq<Event>, i: nat, k: nat, j: JobId)
    requires IsRun(c, states, events) && KeylessReplays(states, events) && i <= k < |states|
    requires Took(states, events, i, j) && Ended(states[i], j)
    ensures j in states[k].jobs && states[k].jobs[j].opts == states[i].jobs[j].opts
            && states[k].jobs[j].opts.idempotency != NO_KEY
    ensures var (p, p') := (states[i].jobs[j].track.place, states[k].jobs[j].track.place);
            && (KeepsKey(p) || Released(p)) && (p' == p || (p == InDead && p' == Gone(Purged)))
            && (states[k].jobs[j].track.keyHeld <==> KeepsKey(p))
  {
    hide Next, Init, Owned, Keys, DeadKeyless, FateOf, Ages, TakesKeyAt;
    if i == k {
      TookHolds(c, states, events, i, j);
      RunKeys(c, states, events, i);
      EndedKey(states[i], j);
    } else {
      EndedStays(c, states, events, i, k - 1, j);
      RunKeys(c, states, events, k - 1);
      RunOwned(c, states, events, k - 1);
      RunAges(c, states, events, k - 1, j);
      StepHolds(states[k - 1], states[k], events[k - 1].t, events[k - 1].step, j);
      OptsAge(states[k - 1].jobs[j], states[k].jobs[j], FateOf(states[k - 1], events[k - 1].t, events[k - 1].step, j));
    }
  }

  // ---- Main results ----

  /** When a job that took its idempotency key has come to an end, it has the key for ever after
      if it was cancelled, evicted or rejected, and never again otherwise. So the keys of
      cancelled, evicted and rejected jobs, and only those, are lost. */
  lemma KeyLostExactly(c: Config, states: seq<Pool>, events: seq<Event>, i: nat, j: JobId)
    requires IsRun(c, states, events) && KeylessReplays(states, events) && i < |states|
    requires Took(states, events, i, j) && Ended(states[i], j)
    ensures KeepsKey(states[i].jobs[j].track.place) <==> forall k | i <= k < |states| :: HasKey(states[k], j)
    ensures !KeepsKey(states[i].jobs[j].track.place) <==> forall k | i <= k < |states| :: !HasKey(states[k], j)
  {
    hide Next, Init, Keys, KeepsKey, Took;
    forall k | i <= k < |states| ensures HasKey(states[k], j) <==> KeepsKey(states[i].jobs[j].track.place) {
      EndedStays(c, states, events, i, k, j);
      RunKeys(c, states, events, k);
      HoldersHave(states[k], j);
    }
    assert HasKey(states[i], j) <==> KeepsKey(states[i].jobs[j].track.place);
  }

  lemma LosingGuards(c: Config, s: Pool, s': Pool, t: Tid, step: Step, j: JobId)
    requires Owned(s) && AllSound(s) && Next(c, s, s', t, step) && j in s.jobs && !s.jobs[j].track.place.Gone?
    ensures j in s'.jobs && (KeepsKey(s'.jobs[j].track.place) <==> LosingGuard(c, s, t, step, j))
  {
    hide Owned, AllSound, Ages, Next, KeepsKey, FateOf, LosingGuard;
    StepAges(c, s, s', t, step);
    DropIsFate(s.jobs[j], s'.jobs[j], FateOf(s, t, step, j));
    if FateOf(s, t, step, j).Dropped? {
      FateIsGuarded(c, s, s', t, step, j);
    } else if LosingGuard(c, s, t, step, j) {
      GuardIsFate(c, s, t, step, j);
    }
  }

  lemma DropIsFate(job: Job, job': Job, fate: Fate)
    requires Ages(job, job', fate) && !job.track.place.Gone?
    ensures KeepsKey(job'.track.place) <==> fate.Dropped?
  {
  }

  ghost predicate LosingGuard(c: Config, s: Pool, t: Tid, step: Step, j: JobId) {
    && t in s.threads
    && var pc := s.threads[t];
       || (step == Preparing(DropCancelled) && pc.Exec? && pc.j == j && ContextDone(s, j))
       || (step.Submitting? && step.submit.PushEvicting? && c.backpressure == DropOldest && HeapFull(c, s)
           && step.submit.e.value == j && PQ.IsLeast(step.submit.e, s.q.heap))
       || (step == Submitting(RejectSubmit) && pc.Submit? && pc.u.Rejecting? && pc.j == j)
  }

  lemma GuardIsFate(c: Config, s: Pool, t: Tid, step: Step, j: JobId)
    requires LosingGuard(c, s, t, step, j)
    ensures FateOf(s, t, step, j).Dropped?
  {
  }

  lemma FateIsGuarded(c: Config, s: Pool, s': Pool, t: Tid, step: Step, j: JobId)
    requires Next(c, s, s', t, step) && FateOf(s, t, step, j).Dropped?
    ensures LosingGuard(c, s, t, step, j)
  {
    hide Next;
    if step.Preparing? { CancelGuard(c, s, s', t, step, j); } else { SubmitGuard(c, s, s', t, step, j); }
  }

  lemma CancelGuard(c: Config, s: Pool, s': Pool, t: Tid, step: Step, j: JobId)
    requires Next(c, s, s', t, step) && step.Preparing? && FateOf(s, t, step, j).Dropped?
    ensures step == Preparing(DropCancelled) && ContextDone(s, j)
    ensures t in s.threads && s.threads[t].Exec? && s.threads[t].j == j
  {
    assert Prepares(s, s', t, DropCancelled);
    hide Next;
  }

  lemma SubmitGuard(c: Config, s: Pool, s': Pool, t: Tid, step: Step, j: JobId)
    requires Next(c, s, s', t, step) && step.Submitting? && FateOf(s, t, step, j).Dropped?
    ensures t in s.threads && s.threads[t].Submit?
    ensures || (step.submit.PushEvicting? && c.backpressure == DropOldest && HeapFull(c, s)
                && step.submit.e.value == j && PQ.IsLeast(step.submit.e, s.q.heap))
            || (step == Submitting(RejectSubmit) && s.threads[t].u.Rejecting? && s.threads[t].j == j)
  {
    assert Submits(c, s, s', t, step.submit);
    hide Next, Reserve, FirstRunAt, UseFastQueue, SpillRefuses;
  }

  /** The steps that lose a key, and what a caller could check before them: a worker drops a job
      whose context is done; or the heap is full, the policy is DropOldest, and the job's item is a
      least one; or the job's own submit has been refused. */
  lemma LosingSteps(c: Config, states: seq<Pool>, events: seq<Event>, i: nat, j: JobId)
    requires IsRun(c, states, events) && i < |events| && j in states[i].jobs && !states[i].jobs[j].track.place.Gone?
    ensures j in states[i + 1].jobs
    ensures KeepsKey(states[i + 1].jobs[j].track.place) <==> LosingGuard(c, states[i], events[i].t, events[i].step, j)
  {
    hide Next, Init, Owned, AllSound, KeepsKey, LosingGuard;
    RunOwned(c, states, events, i);
    RunSound(c, states, events, i);
    LosingGuards(c, states[i], states[i + 1], events[i].t, events[i].step, j);
  }

  /** Only a submit's own steps bring a thread into it. */
  lemma SubmitPcStep(c: Config, s: Pool, s': Pool, t: Tid, step: Step)
    requires Next(c, s, s', t, step) && t in s'.threads && s'.threads[t].Submit? && PcOf(s, t) != s'.threads[t]
    ensures step.Moves? || step.Submitting? || step.Beginning?
  {
    hide Control, Takes, RunsBasic, Prepares, Reserves, Concludes, PutsBack, Begins, Submits, Moved, HeapFull, WaitOver;
    match step
    case Taking(k) => TakesWork(s, s', t, k);
    case Basics(k) => RunsBasicWork(s, s', t, k);
    case Preparing(k) => PreparesWork(s, s', t, k);
    case Reserving(k) => ReservesWork(s, s', t, k);
    case Concluding(k) => ConcludesWork(s, s', t, k);
    case Putting(k) => PutsBackWork(c, s, s', t, k);
    case _ =>
  }

  /** A submit that is refused after it took the key was refused by its rate limiter, at once or
      after waiting, or by the spill after its push had failed. */
  lemma RefusedAfterTaking(c: Config, states: seq<Pool>, events: seq<Event>, i: nat, j: JobId, full: bool)
    requires IsRun(c, states, events) && KeylessReplays(states, events) && i < |events|
    requires var (pc, pc') := (PcOf(states[i], events[i].t), PcOf(states[i + 1], events[i].t));
             pc.Submit? && pc != pc' && pc' == Submit(j, Rejecting(full))
             && j in states[i].jobs && states[i].jobs[j].track.keyHeld
    ensures RefusalGuard(c, states[i], events[i].t, j, full)
  {
    hide Next, Init, Keys, RefusalGuard;
    RunKeys(c, states, events, i);
    RefusalStep(c, states[i], states[i + 1], events[i].t, events[i].step, j, full);
  }

  lemma RefusalStep(c: Config, s: Pool, s': Pool, t: Tid, step: Step, j: JobId, full: bool)
    requires Keys(s) && Next(c, s, s', t, step) && t in s'.threads && s'.threads[t] == Submit(j, Rejecting(full))
    requires t in s.threads && s.threads[t] != s'.threads[t] && j in s.jobs && s.jobs[j].track.keyHeld
    ensures RefusalGuard(c, s, t, j, full)
  {
    hide Next, Keys, RefusalGuard, Begins;
    SubmitPcStep(c, s, s', t, step);
    KeyIs(s, t);
    if step.Moves? { MovesGuard(c, s, s', t, step, j, full); }
    else if step.Submitting? { AdmissionGuard(c, s, s', t, step, j, full); }
    else { BeginsNoRefusal(c, s, s', t, step); }
  }

  predicate RefusalGuard(c: Config, s: Pool, t: Tid, j: JobId, full: bool) {
    && t in s.threads && s.threads[t].Submit? && s.threads[t].j == j && j in s.jobs
    && match s.threads[t].u
       case Admitting =>
         && !full && var k := s.jobs[j].opts.rateKey;
         && k in s.sh.limiters && s.sh.limiters[k].mode == RejectMode
           && Reserve(s.sh.limiters[k].bucket, s.now, false).1 == Denied
       case AdmitCheck => !full && (c.submitTimeout > 0 || Closing(s.life.phase))
       case Spilling => full && SpillRefuses(c, s)
       case _ => false
  }

  lemma MovesGuard(c: Config, s: Pool, s': Pool, t: Tid, step: Step, j: JobId, full: bool)
    requires Next(c, s, s', t, step) && step.Moves? && t in s'.threads && s'.threads[t] == Submit(j, Rejecting(full))
    requires t in s.threads && j in s.jobs && s.jobs[j].track.keyHeld && ThreadKey(s.jobs, s.threads[t])
    requires JobKeyHere(s, t)
    ensures RefusalGuard(c, s, t, j, full)
  {
    assert Control(c, s, s', t, step.pc);
    hide Next, LoopMoves, ExecMoves, UseBasicFastPath, HeapFull, Reserve;
  }

  predicate JobKeyHere(s: Pool, t: Tid) {
    t in s.threads && s.threads[t].Submit? && s.threads[t].j in s.jobs ==> JobKey(s.jobs[s.threads[t].j])
  }

  lemma AdmissionGuard(c: Config, s: Pool, s': Pool, t: Tid, step: Step, j: JobId, full: bool)
    requires Next(c, s, s', t, step) && step.Submitting? && t in s'.threads
             && s'.threads[t] == Submit(j, Rejecting(full))
    requires t in s.threads && s.threads[t] != s'.threads[t]
    ensures RefusalGuard(c, s, t, j, full)
  {
    assert Submits(c, s, s', t, step.submit);
    hide Next, FirstRunAt, UseFastQueue, SpillRefuses, HeapFull;
  }

  lemma BeginsNoRefusal(c: Config, s: Pool, s': Pool, t: Tid, step: Step)
    requires Next(c, s, s', t, step) && step.Beginning?
    ensures t in s'.threads && s'.threads[t].Submit? && s'.threads[t].u == Entered
  {
    assert Begins(c, s, s', t, step.j, step.o);
    hide Next;
  }
}

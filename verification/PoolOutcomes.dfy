/** How a job ends: what its future answers, and why it was refused or buried. */
module PoolOutcomes {
  import opened Options
  import opened Futures
  import opened TokenBucket
  import opened PoolProtocol
  import opened PoolOwnership
  import opened PoolFuture
  import opened PoolLife
  import opened PoolSchedule

  // ---- Results ----

  /** Event e in state s is job j setting its result. */
  predicate Sets(s: Pool, e: Event, j: JobId) {
    e.step.Concluding? && e.step.conclude.SetResult? && e.t in s.threads && s.threads[e.t].Exec?
      && s.threads[e.t].j == j
  }

  /** The last result that job j set before state i. */
  function LastResult(states: seq<Pool>, events: seq<Event>, i: nat, j: JobId): Option<int>
    requires i <= |events| < |states|
  {
    if i == 0 then None
    else if Sets(states[i - 1], events[i - 1], j) then Some(events[i - 1].step.conclude.v)
    else LastResult(states, events, i - 1, j)
  }

  /** A future holds the last result its job set, whatever else has happened to it. */
  lemma {:induction false} ResultsKept(c: Config, states: seq<Pool>, events: seq<Event>, i: nat, j: JobId)
    requires IsRun(c, states, events) && i < |states| && j in states[i].jobs
    ensures states[i].jobs[j].future.value == LastResult(states, events, i, j)
  {
    hide Next, Init;
    if i == 0 {
      InitNoJobs(c, states[0]);
      assert false;
    } else {
      RunAges(c, states, events, i - 1, j);
      if j in states[i - 1].jobs {
        ResultsKept(c, states, events, i - 1, j);
      } else {
        NothingSetBefore(c, states, events, i - 1, j);
        NewSetsNothing(states[i - 1], states[i], events[i - 1], j);
      }
    }
  }

  lemma InitNoJobs(c: Config, s: Pool)
    requires Init(c, s)
    ensures s.jobs == map[]
  {
  }

  lemma NewSetsNothing(s: Pool, s': Pool, e: Event, j: JobId)
    requires Newcomer(s', e.t, e.step, j)
    ensures !Sets(s, e, j) && s'.jobs[j].future.value == None
  {
  }

  lemma {:induction false} NothingSetBefore(c: Config, states: seq<Pool>, events: seq<Event>, i: nat, j: JobId)
    requires IsRun(c, states, events) && i < |states| && j !in states[i].jobs
    ensures LastResult(states, events, i, j) == None
  {
    hide Next, Init, Ages, FateOf;
    if i > 0 {
      RunAges(c, states, events, i - 1, j);
      NothingSetBefore(c, states, events, i - 1, j);
      RunOwned(c, states, events, i - 1);
      SettersAreKnown(states[i - 1], events[i - 1], j);
    }
  }

  lemma SettersAreKnown(s: Pool, e: Event, j: JobId)
    requires Owned(s) && j !in s.jobs
    ensures !Sets(s, e, j)
  {
    if Sets(s, e, j) { JobInHand(s, e.t); }
  }

  /** Job j was never a dead letter up to state k. */
  ghost predicate NeverBuried(states: seq<Pool>, k: nat, j: JobId) {
    forall m | 0 <= m <= k && m < |states| :: !IsAt(states[m].jobs, j, InDead)
  }

  lemma BuriedIsDead(c: Config, states: seq<Pool>, events: seq<Event>, m: nat, j: JobId)
    requires IsRun(c, states, events) && m < |events| && !IsAt(states[m + 1].jobs, j, InDead)
    ensures !FateOf(states[m], events[m].t, events[m].step, j).Buried?
  {
    hide Next, Init;
    RunAges(c, states, events, m, j);
    RunOwned(c, states, events, m);
    if FateOf(states[m], events[m].t, events[m].step, j).Buried? { JobInHand(states[m], events[m].t); }
  }

  lemma StillPending(c: Config, states: seq<Pool>, events: seq<Event>, k: nat, j: JobId)
    requires IsRun(c, states, events) && k < |states| && j in states[k].jobs && NeverBuried(states, k, j)
    requires !states[k].jobs[j].cancelled && !states[k].jobs[j].track.place.Gone?
    ensures !states[k].jobs[j].future.done
  {
    hide Next, Init, FateOf;
    if states[k].jobs[j].future.done {
      PendingUntilTheEnd(c, states, events, k, j);
      var m: nat :| m < k && FateOf(states[m], events[m].t, events[m].step, j).Buried?;
      BuriedIsDead(c, states, events, m, j);
    }
  }

  /** The step with which a job that has a future succeeds. */
  lemma SucceedsPlainly(c: Config, states: seq<Pool>, events: seq<Event>, i: nat, j: JobId)
    requires IsRun(c, states, events) && i < |events| && j in states[i].jobs && states[i].jobs[j].opts.future
    requires IsAt(states[i + 1].jobs, j, Gone(Succeeded)) && !IsAt(states[i].jobs, j, Gone(Succeeded))
    ensures FateOf(states[i], events[i].t, events[i].step, j) == Finished
  {
    hide Next, Init;
    RunAges(c, states, events, i, j);
    RunWay(c, states, events, i, j);
    RunOwned(c, states, events, i);
    if FateOf(states[i], events[i].t, events[i].step, j) == Served {
      BasicInHand(states[i], events[i].t);
    }
    hide Owned;
  }

  lemma BasicInHand(s: Pool, t: Tid)
    requires Owned(s) && t in s.threads && s.threads[t].Basic?
    ensures s.threads[t].j in s.jobs && s.jobs[s.threads[t].j].track.place == Held(t)
  {
    JobInHand(s, t);
  }

  // ---- Causes ----

  predicate HeapRefuses(c: Config, s: Pool) {
    s.life.heapClosed || |s.q.heap| >= c.queueSize
  }

  /** Event m is job j's attempt failing. */
  ghost predicate FailsAt(states: seq<Pool>, events: seq<Event>, m: nat, j: JobId, err: Error, permanent: bool) {
    && m < |events| && m < |states| && j in states[m].jobs
    && HolderPc(states[m], j) == Exec(j, Run) && events[m].step == Concluding(Fail(err, permanent))
  }

  lemma EndedHow(c: Config, s: Pool, s': Pool, t: Tid, step: Step, j: JobId)
    requires Hop(c, s, s', t, step, j) && !Rests(s, s', j) && HolderPc(s', j).Exec?
    requires HolderPc(s', j).x.RunFailed? || HolderPc(s', j).x.RequeueCheck? || HolderPc(s', j).x.Burying?
    ensures HolderPc(s, j).Exec? && HolderPc(s, j).j == j && EndHop(c, s, s', step, j, HolderPc(s, j).x)
    ensures s'.jobs[j].track.place.Held?
  {
    hide EndHop, Plain, Closing;
  }

  /** The step before state i of a job that has not just been submitted. */
  lemma StepBefore(c: Config, states: seq<Pool>, events: seq<Event>, i: nat, j: JobId)
    requires IsRun(c, states, events) && i < |states| && j in states[i].jobs
             && HolderPc(states[i], j) != Submit(j, Entered)
    ensures i > 0 && j in states[i - 1].jobs
    ensures Hop(c, states[i - 1], states[i], events[i - 1].t, events[i - 1].step, j)
  {
    hide Next, Hop;
    if j !in states[i - 1].jobs { JobsEnterBySubmit(c, states, events, i - 1, j); }
    JobsLiveByTheTables(c, states, events, i - 1, j);
  }

  lemma {:induction false} FailureCause(c: Config, states: seq<Pool>, events: seq<Event>, i: nat, j: JobId)
    returns (m: nat)
    requires IsRun(c, states, events) && i < |states| && j in states[i].jobs
    requires HolderPc(states[i], j).Exec? && HolderPc(states[i], j).x.RunFailed?
    ensures m < i && FailsAt(states, events, m, j, HolderPc(states[i], j).x.err, HolderPc(states[i], j).x.permanent)
    ensures states[m].jobs[j].attempt == states[i].jobs[j].attempt && states[m].jobs[j].opts == states[i].jobs[j].opts
  {
    hide Next, Init, Hop, HolderPc;
    StepBefore(c, states, events, i, j);
    var (s, s', t, step) := (states[i - 1], states[i], events[i - 1].t, events[i - 1].step);
    if Rests(s, s', j) {
      m := FailureCause(c, states, events, i - 1, j);
    } else {
      EndedHow(c, s, s', t, step, j);
      m := i - 1;
    }
  }

  lemma {:induction false} RequeueCause(c: Config, states: seq<Pool>, events: seq<Event>, i: nat, j: JobId)
    returns (m: nat)
    requires IsRun(c, states, events) && i < |states| && j in states[i].jobs
    requires HolderPc(states[i], j).Exec? && HolderPc(states[i], j).x.RequeueCheck?
    ensures m < i && HeapRefuses(c, states[m])
  {
    hide Next, Init, Hop, HolderPc;
    StepBefore(c, states, events, i, j);
    var (s, s', t, step) := (states[i - 1], states[i], events[i - 1].t, events[i - 1].step);
    if Rests(s, s', j) {
      m := RequeueCause(c, states, events, i - 1, j);
    } else {
      EndedHow(c, s, s', t, step, j);
      m := i - 1;
    }
  }

  /** Why a job that a worker buries with this error had to be. */
  ghost predicate Doomed(c: Config, states: seq<Pool>, events: seq<Event>, i: nat, j: JobId, err: Error) {
    && i < |states| && j in states[i].jobs
    && ((exists m: nat, permanent: bool | m < i :: FailsAt(states, events, m, j, err, permanent)
           && (permanent || states[m].jobs[j].attempt >= states[i].jobs[j].opts.maxAttempts
               || Closing(states[i].life.phase)))
        || (err == QueueFull && (c.submitTimeout > 0 || Closing(states[i].life.phase))
            && exists m: nat | m < i :: HeapRefuses(c, states[m])))
  }

  lemma DoomStays(c: Config, states: seq<Pool>, events: seq<Event>, i: nat, j: JobId, err: Error)
    requires IsRun(c, states, events) && 0 < i < |states| && Doomed(c, states, events, i - 1, j, err)
    requires j in states[i].jobs && states[i].jobs[j].opts == states[i - 1].jobs[j].opts
    ensures Doomed(c, states, events, i, j, err)
  {
    ClosingStays(c, states, events, i - 1);
    hide Next, Init, Closing, HeapRefuses;
  }

  lemma {:induction false} BurialCause(c: Config, states: seq<Pool>, events: seq<Event>, i: nat, j: JobId)
    requires IsRun(c, states, events) && i < |states| && j in states[i].jobs
    requires HolderPc(states[i], j).Exec? && HolderPc(states[i], j).x.Burying?
    ensures Doomed(c, states, events, i, j, HolderPc(states[i], j).x.err)
  {
    hide Next, Init, Hop, HolderPc, Closing;
    StepBefore(c, states, events, i, j);
    var (s, s', t, step) := (states[i - 1], states[i], events[i - 1].t, events[i - 1].step);
    if Rests(s, s', j) {
      BurialCause(c, states, events, i - 1, j);
    } else {
      EndedHow(c, s, s', t, step, j);
      NowDoomed(c, states, events, i, j);
    }
    DoomStays(c, states, events, i, j, HolderPc(states[i], j).x.err);
  }

  /** A worker that has just gone to bury a job had to even in the state before. */
  lemma NowDoomed(c: Config, states: seq<Pool>, events: seq<Event>, i: nat, j: JobId)
    requires IsRun(c, states, events) && 0 < i < |states| && j in states[i - 1].jobs && j in states[i].jobs
    requires HolderPc(states[i], j).Exec? && HolderPc(states[i], j).x.Burying? && HolderPc(states[i - 1], j).Exec?
    requires EndHop(c, states[i - 1], states[i], events[i - 1].step, j, HolderPc(states[i - 1], j).x)
    requires !Rests(states[i - 1], states[i], j) && states[i].jobs[j].track.place.Held?
    ensures Doomed(c, states, events, i - 1, j, HolderPc(states[i], j).x.err)
  {
    hide Next, Init, HolderPc, Closing;
    if HolderPc(states[i - 1], j).x.RunFailed? {
      var m := FailureCause(c, states, events, i - 1, j);
    } else {
      var m := RequeueCause(c, states, events, i - 1, j);
    }
  }

  // ---- Main results: ends ----

  /** A job that has a future and succeeds answers with the last result it has set, or with none if
      it set none, unless it was cancelled or had died before; and that for ever. */
  lemma {:induction false} SuccessAnswers(c: Config, states: seq<Pool>, events: seq<Event>, k: nat, j: JobId)
    requires IsRun(c, states, events) && k < |states| && IsAt(states[k].jobs, j, Gone(Succeeded))
    requires states[k].jobs[j].opts.future && !states[k].jobs[j].cancelled && NeverBuried(states, k, j)
    ensures states[k].jobs[j].future == Future(true, LastResult(states, events, k, j), None)
  {
    hide Next, Init, FateOf, LastResult, HolderPc;
    ResultsKept(c, states, events, k, j);
    if j !in states[k].jobs || k == 0 { InitNoJobs(c, states[0]); }
    RunAges(c, states, events, k - 1, j);
    if IsAt(states[k - 1].jobs, j, Gone(Succeeded)) {
      SuccessAnswers(c, states, events, k - 1, j);
    } else {
      StillPending(c, states, events, k - 1, j);
      SucceedsPlainly(c, states, events, k - 1, j);
    }
  }

  /** Every other completion of a future: who is buried answers the error he is buried with, whose
      submit is refused answers that the queue is full, and all others that they were cancelled. */
  lemma FailureAnswers(c: Config, states: seq<Pool>, events: seq<Event>, i: nat, k: nat, j: JobId)
    requires IsRun(c, states, events) && i < k < |states| && j in states[i].jobs && !states[i].jobs[j].future.done
    requires j in states[i + 1].jobs && states[i + 1].jobs[j].future.done
    ensures j in states[k].jobs && states[k].jobs[j].future.done
    ensures var (p, p', err) := (states[i].jobs[j].track.place, states[i + 1].jobs[j].track.place,
                                 states[k].jobs[j].future.err);
      && (p' == Gone(Succeeded) && !p.Gone? ==> err == None)
      && (p' == InDead && p != InDead ==>
            HolderPc(states[i], j).Exec? && HolderPc(states[i], j).x.Burying?
              && err == Some(HolderPc(states[i], j).x.err))
      && (p' == Gone(Rejected) && !p.Gone? ==> err == Some(QueueFull))
      && (p' == Gone(End.Cancelled) || (p' == p && !p.Gone?) ==> err == Some(Error.Cancelled))
  {
    hide Next, Init, Owned;
    RunAges(c, states, events, i, j);
    RunOwned(c, states, events, i);
    if FateOf(states[i], events[i].t, events[i].step, j).Buried? {
      JobInHand(states[i], events[i].t);
      assert HolderPc(states[i], j) == states[i].threads[events[i].t];
    }
    AnswersStay(c, states, events, i + 1, k, j);
  }

  /** Cancelling a job or its future ends the job's context at once, and completes a pending future
      with the cancellation. */
  lemma CancelAnswers(c: Config, states: seq<Pool>, events: seq<Event>, i: nat, j: JobId)
    requires IsRun(c, states, events) && i < |events|
    requires events[i].step == Environment(CancelJob(j)) || events[i].step == Environment(CancelFuture(j))
    ensures j in states[i].jobs && j in states[i + 1].jobs && states[i + 1].jobs[j].cancelled
    ensures var (f, f') := (states[i].jobs[j].future, states[i + 1].jobs[j].future);
            f'.done && f'.value == f.value && f'.err == if f.done then f.err else Some(Error.Cancelled)
  {
    assert Outside(states[i], states[i + 1], events[i].step.env);
    hide Next, Init;
  }

  /** A job whose future is still pending when it is buried answers the error it is buried with, for
      ever. */
  lemma BurialAnswers(c: Config, states: seq<Pool>, events: seq<Event>, i: nat, k: nat, j: JobId)
    requires IsRun(c, states, events) && i < k < |states| && j in states[i].jobs && !states[i].jobs[j].future.done
    requires HolderPc(states[i], j).Exec? && IsAt(states[i + 1].jobs, j, InDead)
    ensures HolderPc(states[i], j).x.Burying? && j in states[k].jobs && states[k].jobs[j].future.done
    ensures states[k].jobs[j].future.err == Some(HolderPc(states[i], j).x.err)
  {
    hide Next, Init;
    JobsLiveByTheTables(c, states, events, i, j);
    RunAges(c, states, events, i, j);
    FailureAnswers(c, states, events, i, k, j);
  }

  /** So does one that a worker drops because it was cancelled, and one whose submit was refused
      after its push and the spill had failed. */
  lemma RefusalAnswers(c: Config, states: seq<Pool>, events: seq<Event>, i: nat, k: nat, j: JobId)
    requires IsRun(c, states, events) && i < k < |states| && j in states[i].jobs && !states[i].jobs[j].future.done
    requires (HolderPc(states[i], j) == Submit(j, Rejecting(true)) && IsAt(states[i + 1].jobs, j, Gone(Rejected)))
             || (HolderPc(states[i], j).Exec? && IsAt(states[i + 1].jobs, j, Gone(End.Cancelled)))
    ensures j in states[k].jobs && states[k].jobs[j].future.done
    ensures states[k].jobs[j].future.err
            == Some(if HolderPc(states[i], j).Exec? then Error.Cancelled else QueueFull)
  {
    hide Next, Init;
    RunAges(c, states, events, i, j);
    JobsLiveByTheTables(c, states, events, i, j);
    assert HolderPc(states[i], j) == states[i].threads[events[i].t];
    FailureAnswers(c, states, events, i, k, j);
  }

  /** But nobody tells the future of a job that is evicted: unless it is cancelled it is pending for
      ever. */
  lemma {:induction false} EvictedNeverAnswers(c: Config, states: seq<Pool>, events: seq<Event>, k: nat, j: JobId)
    requires IsRun(c, states, events) && k < |states| && IsAt(states[k].jobs, j, Gone(Evicted))
    requires !states[k].jobs[j].cancelled && NeverBuried(states, k, j)
    ensures !states[k].jobs[j].future.done
  {
    hide Next, Init, FateOf;
    if k == 0 { InitNoJobs(c, states[0]); }
    RunAges(c, states, events, k - 1, j);
    if IsAt(states[k - 1].jobs, j, Gone(Evicted)) {
      EvictedNeverAnswers(c, states, events, k - 1, j);
    } else {
      StillPending(c, states, events, k - 1, j);
    }
  }

  /** Nobody is buried without need: his attempt failed for good, or the last one he was allowed, or
      while the pool was closing; or he was to be put back into a heap that had no room, where
      nobody waits for room for ever. */
  lemma BuriedForAReason(c: Config, states: seq<Pool>, events: seq<Event>, i: nat, j: JobId)
    requires IsRun(c, states, events) && i < |events| && j in states[i].jobs
    requires IsAt(states[i + 1].jobs, j, InDead) && HolderPc(states[i], j).Exec?
    ensures HolderPc(states[i], j).x.Burying? && Doomed(c, states, events, i, j, HolderPc(states[i], j).x.err)
  {
    hide Next, Init, Doomed;
    JobsLiveByTheTables(c, states, events, i, j);
    BurialCause(c, states, events, i, j);
  }

  // ---- Main results: refusals ----

  /** What refuses a submit in state s, from outside (full is false) or because nothing has room. */
  predicate RefusedNow(c: Config, s: Pool, j: JobId, full: bool) {
    && j in s.jobs && HolderPc(s, j).Submit?
    && var o := s.jobs[j].opts;
       match HolderPc(s, j).u
       case Entered => !full && (Closing(s.life.phase) || o.nilJob)
       case BasicPush => !full && (s.life.basicClosed || (|s.q.basic| >= c.queueSize && Impatient(c)))
       case Keying => !full && o.idempotency != "" && o.idempotency in s.sh.idemp
       case Admitting =>
         && !full && o.rateKey in s.sh.limiters && s.sh.limiters[o.rateKey].mode == RejectMode
         && Reserve(s.sh.limiters[o.rateKey].bucket, s.now, false).1 == Denied
       case AdmitCheck => !full && (c.submitTimeout > 0 || Closing(s.life.phase))
       case Spilling => full && (!c.spill || (c.spillMax > 0 && |s.q.spill| >= c.spillMax))
       case _ => false
  }

  lemma SubmittedHow(c: Config, s: Pool, s': Pool, t: Tid, step: Step, j: JobId)
    requires Hop(c, s, s', t, step, j) && !Rests(s, s', j) && HolderPc(s', j).Submit?
             && HolderPc(s', j) != Submit(j, Entered)
    ensures HolderPc(s, j).Submit? && HolderPc(s, j).j == j && s'.jobs[j].track.place.Held?
    ensures AdmitHop(c, s, s', step, j, HolderPc(s, j).u) || PushHop(c, s, s', j, HolderPc(s, j).u)
  {
    hide AdmitHop, PushHop, Plain, Closing;
  }

  /** No submit is refused without a reason. */
  lemma {:induction false} RefusedForAReason(c: Config, states: seq<Pool>, events: seq<Event>, i: nat, j: JobId,
                                             full: bool)
    returns (m: nat)
    requires IsRun(c, states, events) && i < |states| && j in states[i].jobs
             && HolderPc(states[i], j) == Submit(j, Rejecting(full))
    ensures m < i && RefusedNow(c, states[m], j, full)
  {
    hide Next, Init, Hop, HolderPc, Closing, Plain;
    StepBefore(c, states, events, i, j);
    var (s, s', t, step) := (states[i - 1], states[i], events[i - 1].t, events[i - 1].step);
    if Rests(s, s', j) {
      m := RefusedForAReason(c, states, events, i - 1, j, full);
    } else {
      SubmittedHow(c, s, s', t, step, j);
      m := i - 1;
    }
  }

  /** A queue has refused job j in state s: it is closed, or full and nobody waits for room; the heap
      may also have been full for as long as the submitter was ready to wait. */
  predicate PushRefused(c: Config, s: Pool, j: JobId) {
    || (HolderPc(s, j) == Submit(j, FastPush) && (s.life.fastClosed || (|s.q.fast| >= c.queueSize && Impatient(c))))
    || (HolderPc(s, j) == Submit(j, HeapPush) && HeapRefuses(c, s))
  }

  /** No submit goes to the spill before a queue has refused it. */
  lemma {:induction false} SpilledForAReason(c: Config, states: seq<Pool>, events: seq<Event>, i: nat, j: JobId)
    returns (m: nat)
    requires IsRun(c, states, events) && i < |states| && j in states[i].jobs
    requires HolderPc(states[i], j).Submit?
             && (HolderPc(states[i], j).u.HeapCheck? || HolderPc(states[i], j).u.Spilling?)
    ensures m < i && PushRefused(c, states[m], j)
  {
    hide Next, Init, Hop, HolderPc, Closing, Plain, Impatient;
    StepBefore(c, states, events, i, j);
    var (s, s', t, step) := (states[i - 1], states[i], events[i - 1].t, events[i - 1].step);
    if Rests(s, s', j) {
      m := SpilledForAReason(c, states, events, i - 1, j);
    } else {
      SubmittedHow(c, s, s', t, step, j);
      if HolderPc(s, j).u.HeapCheck? { m := SpilledForAReason(c, states, events, i - 1, j); } else { m := i - 1; }
    }
  }

  /** If the policy and the submitter are ready to wait, only a closing pool spills or refuses a job
      that it has admitted. */
  lemma WaitersAreServed(c: Config, states: seq<Pool>, events: seq<Event>, i: nat, j: JobId)
    requires IsRun(c, states, events) && i < |states| && j in states[i].jobs && HolderPc(states[i], j).Submit?
    requires HolderPc(states[i], j).u.Spilling? || HolderPc(states[i], j).u == Rejecting(true)
    ensures Closing(states[i].life.phase) || c.submitTimeout > 0 || c.backpressure == Reject
            || c.backpressure == DropNewest
  {
    hide Next, Init, Closing;
    RunWay(c, states, events, i, j);
  }

  predicate TurnedAway(s: Pool, j: JobId) {
    && j in s.jobs
    && (HolderPc(s, j) == Submit(j, Entered) || HolderPc(s, j) == Submit(j, Rejecting(false))
        || s.jobs[j].track.place == Gone(Rejected))
  }

  lemma TurnedAwayHop(c: Config, s: Pool, s': Pool, t: Tid, step: Step, j: JobId)
    requires TurnedAway(s, j) && Hop(c, s, s', t, step, j) && (Closing(s.life.phase) || s.jobs[j].opts.nilJob)
    ensures TurnedAway(s', j)
  {
    hide StartHop, EndHop, BasicHop, TakeHop, ReplayHop, Closing, Plain;
  }

  /** A submit that begins while the pool is closing, or without a job, is refused and nothing
      else: its job never gets anywhere. */
  lemma {:induction false} LateIsTurnedAway(c: Config, states: seq<Pool>, events: seq<Event>, i: nat, k: nat, j: JobId)
    requires IsRun(c, states, events) && i <= k < |states| && j in states[i].jobs
    requires HolderPc(states[i], j) == Submit(j, Entered)
             && (Closing(states[i].life.phase) || states[i].jobs[j].opts.nilJob)
    ensures TurnedAway(states[k], j) && states[k].jobs[j].opts == states[i].jobs[j].opts
    ensures Closing(states[k].life.phase) || states[k].jobs[j].opts.nilJob
  {
    hide Next, Init, Hop, Closing, HolderPc;
    if i < k {
      LateIsTurnedAway(c, states, events, i, k - 1, j);
      JobsLiveByTheTables(c, states, events, k - 1, j);
      ClosingStays(c, states, events, k - 1);
      TurnedAwayHop(c, states[k - 1], states[k], events[k - 1].t, events[k - 1].step, j);
      HopKeepsOpts(c, states[k - 1], states[k], events[k - 1].t, events[k - 1].step, j);
    }
  }

  lemma HopKeepsOpts(c: Config, s: Pool, s': Pool, t: Tid, step: Step, j: JobId)
    requires Hop(c, s, s', t, step, j)
    ensures j in s.jobs && j in s'.jobs && s'.jobs[j].opts == s.jobs[j].opts
  {
  }
}

/** Which way a job goes, and when it starts, by what its submitter asked for. */
module PoolSchedule {
  import opened Options
  import opened KeyedSemaphore
  import opened TokenBucket
  import opened PoolProtocol
  import opened PoolThreads
  import opened PoolOwnership
  import opened PoolDrain
  import opened PoolLife

  // ---- The pool is open or closing ----

  /** Before the first stop or termination the pool is open, afterwards it is closing. */
  lemma {:induction false} OpenOrClosing(c: Config, states: seq<Pool>, events: seq<Event>, i: nat)
    requires IsRun(c, states, events) && i < |states|
    ensures Open(c, states[i]) || Closing(states[i].life.phase)
  {
    hide Next, Open, Closing;
    if i == 0 {
      InitOpen(c, states[0]);
    } else {
      var (s, s', t, step) := (states[i - 1], states[i], events[i - 1].t, events[i - 1].step);
      assert Next(c, s, s', t, step);
      OpenOrClosing(c, states, events, i - 1);
      if Closing(s.life.phase) { PhaseStep(c, s, s', t, step); }
      else if step == Living(StoreStopping) || step == Calling(Terminate) { StopsClosing(c, s, s', t, step); }
      else { StepOpen(c, s, s', t, step); }
    }
  }

  lemma InitOpen(c: Config, s: Pool)
    requires Init(c, s)
    ensures Open(c, s)
  {
  }

  lemma StopsClosing(c: Config, s: Pool, s': Pool, t: Tid, step: Step)
    requires Next(c, s, s', t, step) && (step == Living(StoreStopping) || step == Calling(Terminate))
    ensures Closing(s'.life.phase)
  {
    assert Lives(c, s, s', t, StoreStopping) || Calls(s, s', t, Terminate);
    hide Next;
  }

  // ---- Which way ----

  /** The submit is past the choice of the way, and has not been refused. */
  predicate OnItsWay(u: SubmitPc) {
    !u.Entered? && !u.Routing? && !u.BasicPush? && !u.Rejecting?
  }

  /** Where a job with such options can be. */
  predicate WayOk(c: Config, closing: bool, o: Opts, p: Place, pc: Pc) {
    && (p == InBasic || (p.Held? && (pc.Basic? || (pc.Submit? && pc.u.BasicPush?))) ==> Plain(c, o))
    && ((p == InFast || p == InSpill || p == InHeap || p == InDead
         || (p.Held? && (pc.Exec? || pc.Replay? || (pc.Submit? && OnItsWay(pc.u))))) ==> !Plain(c, o) && !o.nilJob)
    && (p == InBasic || (p.Held? && (pc.Basic? || (pc.Submit? && !pc.u.Entered? && !pc.u.Rejecting?))) ==> !o.nilJob)
    && (p == InFast || (p.Held? && pc.Submit? && pc.u.FastPush?) ==> o.priority == 0 && o.delay == 0 && o.runAt == None)
    && (p.Held? && pc.Submit? && (pc.u.Spilling? || pc.u == Rejecting(true)) ==> closing || Impatient(c))
    && (p.Held? ==> pc.Basic? || pc.Exec? || pc.Submit? || pc.Replay?)
  }

  ghost predicate JobWay(c: Config, s: Pool, j: JobId) {
    j in s.jobs && WayOk(c, Closing(s.life.phase), s.jobs[j].opts, s.jobs[j].track.place, HolderPc(s, j))
  }

  lemma WayRests(c: Config, s: Pool, s': Pool, j: JobId)
    requires JobWay(c, s, j) && Rests(s, s', j) && (Closing(s.life.phase) ==> Closing(s'.life.phase))
    ensures JobWay(c, s', j)
  {
    hide Plain, Closing;
  }

  lemma WayBasic(c: Config, s: Pool, s': Pool, j: JobId, b: BasicPc)
    requires JobWay(c, s, j) && s.jobs[j].track.place.Held? && HolderPc(s, j) == Basic(j, b)
    requires BasicHop(s, s', j, b) && s'.jobs[j].opts == s.jobs[j].opts
    ensures JobWay(c, s', j)
  {
    hide Plain, Closing, HolderPc;
  }

  lemma WayExec(c: Config, s: Pool, s': Pool, step: Step, j: JobId, x: ExecPc)
    requires JobWay(c, s, j) && s.jobs[j].track.place.Held? && HolderPc(s, j) == Exec(j, x) && j in s'.jobs
    requires (StartHop(s, s', step, j, x) || EndHop(c, s, s', step, j, x)) && s'.jobs[j].opts == s.jobs[j].opts
    ensures JobWay(c, s', j)
  {
    hide Plain, Closing, HolderPc, Same;
  }

  lemma WaySubmit(c: Config, s: Pool, s': Pool, step: Step, j: JobId, u: SubmitPc)
    requires JobWay(c, s, j) && s.jobs[j].track.place.Held? && HolderPc(s, j) == Submit(j, u) && j in s'.jobs
    requires AdmitHop(c, s, s', step, j, u) && s'.jobs[j].opts == s.jobs[j].opts
    requires Closing(s.life.phase) ==> Closing(s'.life.phase)
    ensures JobWay(c, s', j)
  {
    hide Plain, Closing, HolderPc;
  }

  lemma WayPush(c: Config, s: Pool, s': Pool, j: JobId, u: SubmitPc)
    requires JobWay(c, s, j) && s.jobs[j].track.place.Held? && HolderPc(s, j) == Submit(j, u) && j in s'.jobs
    requires PushHop(c, s, s', j, u) && s'.jobs[j].opts == s.jobs[j].opts
    requires Closing(s.life.phase) ==> Closing(s'.life.phase)
    requires s.life.fastClosed || s.life.heapClosed ==> Closing(s.life.phase)
    ensures JobWay(c, s', j)
  {
    hide Plain, Closing, HolderPc;
  }

  lemma WayOther(c: Config, s: Pool, s': Pool, t: Tid, step: Step, j: JobId)
    requires JobWay(c, s, j) && Hop(c, s, s', t, step, j) && !Rests(s, s', j)
    requires s.jobs[j].track.place.Held? ==> HolderPc(s, j).Replay?
    requires Closing(s.life.phase) ==> Closing(s'.life.phase)
    ensures JobWay(c, s', j)
  {
    hide Plain, Closing, AdmitHop, PushHop, StartHop, EndHop, BasicHop, Same, Rests;
  }

  lemma WayHop(c: Config, s: Pool, s': Pool, t: Tid, step: Step, j: JobId)
    requires JobWay(c, s, j) && Hop(c, s, s', t, step, j)
    requires Open(c, s) || Closing(s.life.phase)
    requires Closing(s.life.phase) ==> Closing(s'.life.phase)
    ensures JobWay(c, s', j)
  {
    assert s.life.fastClosed || s.life.heapClosed ==> Closing(s.life.phase);
    assert s.jobs[j].track.place.Held? ==>
        HolderPc(s, j).Basic? || HolderPc(s, j).Exec? || HolderPc(s, j).Submit? || HolderPc(s, j).Replay?;
    hide Open, Closing, Plain, JobWay, HolderPc, Rests, BasicHop, StartHop, EndHop, AdmitHop, PushHop, TakeHop,
      ReplayHop;
    if Rests(s, s', j) {
      WayRests(c, s, s', j);
    } else if s.jobs[j].track.place.Held? && !HolderPc(s, j).Replay? {
      match HolderPc(s, j)
      case Basic(i, b) => WayBasic(c, s, s', j, b);
      case Exec(i, x) => WayExec(c, s, s', step, j, x);
      case Submit(i, u) =>
        if AdmitHop(c, s, s', step, j, u) { WaySubmit(c, s, s', step, j, u); } else { WayPush(c, s, s', j, u); }
    } else {
      WayOther(c, s, s', t, step, j);
    }
  }

  lemma ClosingStays(c: Config, states: seq<Pool>, events: seq<Event>, i: nat)
    requires IsRun(c, states, events) && i < |events|
    ensures Closing(states[i].life.phase) ==> Closing(states[i + 1].life.phase)
  {
    hide Next, Init, Closing;
    if Closing(states[i].life.phase) { ClosingIsFinal(c, states, events, i, i + 1); }
  }

  lemma {:induction false} RunWay(c: Config, states: seq<Pool>, events: seq<Event>, i: nat, j: JobId)
    requires IsRun(c, states, events) && i < |states| && j in states[i].jobs
    ensures JobWay(c, states[i], j)
  {
    hide Next, Hop, Open, Closing, WayOk;
    assert i > 0;
    if j in states[i - 1].jobs {
      RunWay(c, states, events, i - 1, j);
      JobsLiveByTheTables(c, states, events, i - 1, j);
      OpenOrClosing(c, states, events, i - 1);
      ClosingStays(c, states, events, i - 1);
      WayHop(c, states[i - 1], states[i], events[i - 1].t, events[i - 1].step, j);
    } else {
      JobsEnterBySubmit(c, states, events, i - 1, j);
      EntersItsWay(c, states[i], j);
    }
  }

  lemma EntersItsWay(c: Config, s: Pool, j: JobId)
    requires j in s.jobs && HolderPc(s, j) == Submit(j, Entered)
    ensures JobWay(c, s, j)
  {
  }

  // ---- When ----

  /** Job j is not to start before b, and nothing that has happened to it since says otherwise. */
  predicate NotBefore(s: Pool, j: JobId, b: int) {
    && j in s.jobs
    && match s.jobs[j].track.place
       case InBasic => false
       case InFast => b <= s.now
       case InHeap => b <= s.now || b <= s.jobs[j].runAt
       case Held(_) =>
         (match HolderPc(s, j)
          case Exec(_, _) => b <= s.now
          case Submit(_, u) =>
            || (u.FastPush? && b <= s.now)
            || ((u.HeapPush? || u.HeapCheck?) && b <= s.jobs[j].runAt)
            || u.Spilling? || u.Rejecting?
          case _ => false)
       case _ => true
  }

  /** Out of the ordinary: a job in the spill starts when it is taken, and a dead letter is made
      fresh by its replay. */
  predicate Strays(s: Pool, j: JobId) {
    j in s.jobs && (s.jobs[j].track.place == InSpill || s.jobs[j].track.place == InDead)
  }

  lemma ExecNotBefore(c: Config, s: Pool, s': Pool, step: Step, j: JobId, x: ExecPc, b: int)
    requires NotBefore(s, j, b) && s.jobs[j].track.place.Held? && HolderPc(s, j) == Exec(j, x) && s.now <= s'.now
    requires j in s'.jobs && (StartHop(s, s', step, j, x) || EndHop(c, s, s', step, j, x))
    ensures NotBefore(s', j, b)
  {
    hide HolderPc, Same, Closing;
  }

  lemma SubmitNotBefore(c: Config, s: Pool, s': Pool, step: Step, j: JobId, u: SubmitPc, b: int)
    requires NotBefore(s, j, b) && s.jobs[j].track.place.Held? && HolderPc(s, j) == Submit(j, u) && s.now <= s'.now
    requires j in s'.jobs && (AdmitHop(c, s, s', step, j, u) || PushHop(c, s, s', j, u))
    ensures NotBefore(s', j, b)
  {
    hide HolderPc, Closing, Plain, Impatient;
  }

  lemma OtherNotBefore(c: Config, s: Pool, s': Pool, t: Tid, step: Step, j: JobId, b: int)
    requires NotBefore(s, j, b) && Hop(c, s, s', t, step, j) && s.now <= s'.now && !Strays(s, j)
    requires Rests(s, s', j) || !s.jobs[j].track.place.Held?
    ensures NotBefore(s', j, b)
  {
    hide AdmitHop, PushHop, StartHop, EndHop, BasicHop, ReplayHop;
  }

  lemma NotBeforeHop(c: Config, s: Pool, s': Pool, t: Tid, step: Step, j: JobId, b: int)
    requires NotBefore(s, j, b) && Hop(c, s, s', t, step, j) && s.now <= s'.now && !Strays(s, j)
    ensures NotBefore(s', j, b)
  {
    assert s.jobs[j].track.place.Held? ==> HolderPc(s, j).Exec? || HolderPc(s, j).Submit?;
    hide NotBefore, HolderPc, Rests, BasicHop, StartHop, EndHop, AdmitHop, PushHop, TakeHop, ReplayHop;
    if Rests(s, s', j) || !s.jobs[j].track.place.Held? {
      OtherNotBefore(c, s, s', t, step, j, b);
    } else {
      match HolderPc(s, j)
      case Exec(i, x) => ExecNotBefore(c, s, s', step, j, x, b);
      case Submit(i, u) => SubmitNotBefore(c, s, s', step, j, u, b);
    }
  }

  lemma ClockGoesOn(c: Config, s: Pool, s': Pool, t: Tid, step: Step)
    requires Next(c, s, s', t, step)
    ensures s.now <= s'.now
  {
    hide Takes, RunsBasic, Prepares, Reserves, Concludes, PutsBack, Leaves, Begins, Submits, Replays, Control;
    hide Accepts, TakesDead, Purges, Calls, Lives, WaitOver;
    match step
    case Calling(k) => CallsNow(s, s', t, k);
    case Living(k) => LivesNow(c, s, s', t, k);
    case Environment(k) =>
    case Purge => PurgesNow(s, s');
    case _ =>
      StepFrame(c, s, s', t, step);
  }

  lemma CallsNow(s: Pool, s': Pool, t: Tid, k: CallStep)
    requires Calls(s, s', t, k)
    ensures s'.now == s.now
  {
  }

  lemma LivesNow(c: Config, s: Pool, s': Pool, t: Tid, k: LifeStep)
    requires Lives(c, s, s', t, k)
    ensures s'.now == s.now
  {
    hide WaitOver;
  }

  lemma PurgesNow(s: Pool, s': Pool)
    requires Purges(s, s')
    ensures s'.now == s.now
  {
    hide Moved;
  }

  /** From the state after its record is made on, a job that does not stray is not started before b. */
  lemma {:induction false} RunNotBefore(c: Config, states: seq<Pool>, events: seq<Event>, m: nat, n: nat, j: JobId,
                                        b: int)
    requires IsRun(c, states, events) && m <= n < |states| && NotBefore(states[m], j, b)
    requires forall k | m <= k < n :: !Strays(states[k], j)
    ensures NotBefore(states[n], j, b)
  {
    hide Next, Init, Hop, NotBefore, Strays;
    if m < n {
      RunNotBefore(c, states, events, m, n - 1, j, b);
      assert j in states[n - 1].jobs by { NotBeforeIn(states[n - 1], j, b); }
      JobsLiveByTheTables(c, states, events, n - 1, j);
      ClockGoesOn(c, states[n - 1], states[n], events[n - 1].t, events[n - 1].step);
      NotBeforeHop(c, states[n - 1], states[n], events[n - 1].t, events[n - 1].step, j, b);
    }
  }

  lemma NotBeforeIn(s: Pool, j: JobId, b: int)
    requires NotBefore(s, j, b)
    ensures j in s.jobs
  {
  }

  /** A submit makes the record of job j in the step after state m. */
  predicate MadeAt(states: seq<Pool>, m: nat, j: JobId) {
    && m + 1 < |states|
    && HolderPc(states[m], j) == Submit(j, Creating) && HolderPc(states[m + 1], j) != Submit(j, Creating)
  }

  lemma MadeNotBefore(c: Config, s: Pool, s': Pool, t: Tid, step: Step, j: JobId, b: int)
    requires Hop(c, s, s', t, step, j) && HolderPc(s, j) == Submit(j, Creating)
             && HolderPc(s', j) != Submit(j, Creating)
    requires var o := s.jobs[j].opts; b == s.now || b == s.now + o.delay || o.runAt == Some(b)
    requires s.now <= s'.now
    ensures NotBefore(s', j, b)
  {
    hide StartHop, EndHop, BasicHop, ReplayHop, TakeHop;
  }

  // ---- Main results ----

  /** The basic way, on which nothing is limited or delayed and no attempt is on record, is taken by
      jobs that ask for nothing, in pools that have nothing, and by all of those. */
  lemma BasicWayExactly(c: Config, states: seq<Pool>, events: seq<Event>, i: nat, j: JobId)
    requires IsRun(c, states, events) && i < |states| && j in states[i].jobs
    ensures var (o, p, pc) := (states[i].jobs[j].opts, states[i].jobs[j].track.place, HolderPc(states[i], j));
      && (p == InBasic || pc.Basic? ==>
            && o.rateKey == "" && o.concurrency == "" && o.idempotency == "" && o.queue == ""
            && o.delay == 0 && o.runAt == None && o.priority == 0 && o.timeout == 0 && o.maxAttempts == 1
            && !o.future && !o.metadata && !o.ownBackoff && !o.nilJob && c.plain && !c.tracking && !c.spill)
      && (p == InFast || p == InSpill || p == InHeap || p == InDead || pc.Exec? || pc.Replay? ==>
            !Plain(c, o) && !o.nilJob)
  {
    hide Next, Init;
    RunWay(c, states, events, i, j);
  }

  /** The fast queue, which is served before the heap, has only jobs that were to start at once and
      claim no priority. */
  lemma FastMeansOrdinary(c: Config, states: seq<Pool>, events: seq<Event>, i: nat, j: JobId)
    requires IsRun(c, states, events) && i < |states| && j in states[i].jobs && states[i].jobs[j].track.place == InFast
    ensures var o := states[i].jobs[j].opts; o.priority == 0 && o.delay == 0 && o.runAt == None
  {
    hide Next, Init;
    RunWay(c, states, events, i, j);
  }

  /** The delay and the start time the submitter asked for are kept: no attempt starts earlier,
      however often the job is put back, unless it has strayed into the spill or died in between. */
  lemma StartsWhenAsked(c: Config, states: seq<Pool>, events: seq<Event>, m: nat, n: nat, j: JobId)
    requires IsRun(c, states, events) && MadeAt(states, m, j) && m < n < |states|
    requires HolderPc(states[n], j).Exec? && forall k | m < k < n :: !Strays(states[k], j)
    ensures j in states[m].jobs
    ensures var o := states[m].jobs[j].opts;
            && states[n].now >= states[m].now && states[n].now >= states[m].now + o.delay
            && (o.runAt.Some? ==> states[n].now >= o.runAt.value)
  {
    var (s, s', t, step) := (states[m], states[m + 1], events[m].t, events[m].step);
    assert j in s.jobs;
    JobsLiveByTheTables(c, states, events, m, j);
    var o := s.jobs[j].opts;
    hide Next, Init, Hop, Strays, MadeAt;
    StartsNotBefore(c, states, events, m, n, j, s.now);
    StartsNotBefore(c, states, events, m, n, j, s.now + o.delay);
    if o.runAt.Some? { StartsNotBefore(c, states, events, m, n, j, o.runAt.value); }
  }

  lemma StartsNotBefore(c: Config, states: seq<Pool>, events: seq<Event>, m: nat, n: nat, j: JobId, b: int)
    requires IsRun(c, states, events) && MadeAt(states, m, j) && m < n < |states| && j in states[m].jobs
    requires HolderPc(states[n], j).Exec? && forall k | m < k < n :: !Strays(states[k], j)
    requires var o := states[m].jobs[j].opts; b == states[m].now || b == states[m].now + o.delay || o.runAt == Some(b)
    ensures states[n].now >= b
  {
    hide Next, Init, Hop, Strays;
    JobsLiveByTheTables(c, states, events, m, j);
    ClockGoesOn(c, states[m], states[m + 1], events[m].t, events[m].step);
    MadeNotBefore(c, states[m], states[m + 1], events[m].t, events[m].step, j, b);
    RunNotBefore(c, states, events, m + 1, n, j, b);
  }

  // ---- Who goes first ----

  lemma HeapItem(s: Pool, it: Item)
    requires Owned(s)
    ensures it in s.q.heap <==>
              && IsAt(s.jobs, it.value, InHeap) && it.seqno == it.value && it.runAt == s.jobs[it.value].runAt
              && it.priority == s.jobs[it.value].opts.priority
  {
    assert s.q.heap[it] == One(IsAt(s.jobs, it.value, InHeap) && it == QueueItem(it.value, s.jobs[it.value]));
  }

  /** Job k is not ahead of job j: it is due later or, due at the same time, has a lower priority or,
      with the same priority, has a higher sequence number. */
  predicate NotAhead(s: Pool, k: JobId, j: JobId)
    requires j in s.jobs && k in s.jobs
  {
    var (a, b) := (s.jobs[k], s.jobs[j]);
    || a.runAt > b.runAt
    || (a.runAt == b.runAt
        && (a.opts.priority < b.opts.priority || (a.opts.priority == b.opts.priority && k >= j)))
  }

  lemma LeastJob(s: Pool, it: Item)
    requires Owned(s) && PQ.IsLeast(it, s.q.heap)
    ensures IsAt(s.jobs, it.value, InHeap)
    ensures forall k | IsAt(s.jobs, k, InHeap) :: NotAhead(s, k, it.value)
  {
    HeapItem(s, it);
    forall k | IsAt(s.jobs, k, InHeap) ensures NotAhead(s, k, it.value) {
      var x := PQ.Item(k, s.jobs[k].opts.priority, k, s.jobs[k].runAt);
      HeapItem(s, x);
      PQ.LeastMeans(it, s.q.heap);
      hide Owned;
      assert x in s.q.heap;
    }
  }

  /** What a worker takes from the heap is due, and no job in the heap is ahead of it; neither is any
      ahead of a job that DropOldest evicts, and it evicts only when the heap is full. */
  lemma HeapInOrder(c: Config, states: seq<Pool>, events: seq<Event>, i: nat)
    requires IsRun(c, states, events) && i < |events|
    ensures var (s, s', step) := (states[i], states[i + 1], events[i].step);
      && (step.Taking? && step.take.TakeHeap? ==>
            var j := step.take.it.value;
            && IsAt(s.jobs, j, InHeap) && s.jobs[j].runAt <= s.now
            && forall k | IsAt(s.jobs, k, InHeap) :: NotAhead(s, k, j))
      && (step.Submitting? && step.submit.PushEvicting? ==>
            var j := step.submit.e.value;
            && IsAt(s.jobs, j, InHeap) && c.backpressure == DropOldest && |s.q.heap| >= c.queueSize
            && forall k | IsAt(s.jobs, k, InHeap) :: NotAhead(s, k, j))
  {
    var (s, s', t, step) := (states[i], states[i + 1], events[i].t, events[i].step);
    assert Next(c, s, s', t, step);
    hide Init, Owned, NotAhead;
    RunOwned(c, states, events, i);
    if step.Taking? && step.take.TakeHeap? {
      assert Takes(s, s', t, step.take);
      LeastJob(s, step.take.it);
      HeapItem(s, step.take.it);
    } else if step.Submitting? && step.submit.PushEvicting? {
      assert Submits(c, s, s', t, step.submit);
      LeastJob(s, step.submit.e);
    }
    hide Next;
  }

  // ---- Where a worker looks first ----

  /** A worker in its loop, other than at its top, has come there by a step of the loop. */
  lemma LoopComesFrom(c: Config, s: Pool, s': Pool, t: Tid, step: Step, w: Tid)
    requires Staffed(c, s) && Next(c, s, s', t, step) && w.Worker? && w in s'.threads
    requires s'.threads[w].Loop? && !s'.threads[w].l.Top?
    ensures w in s.threads && s.threads[w].Loop?
    ensures s.threads[w] == s'.threads[w] || LoopMoves(s, s.threads[w].l, s'.threads[w].l)
  {
    if w !in s.threads {
      NewAtTop(c, s, s', t, step, w);
    } else {
      hide Next, Staffed;
      WorkersMoveThemselves(c, s, s', t, step, w);
      if s'.threads[w] != s.threads[w] { OwnLoopStep(c, s, s', w, step); }
    }
  }

  lemma NewAtTop(c: Config, s: Pool, s': Pool, t: Tid, step: Step, w: Tid)
    requires Staffed(c, s) && Next(c, s, s', t, step) && w.Worker? && w in s'.threads && w !in s.threads
    ensures s'.threads[w] == Loop(Top)
  {
    hide Calls, Lives, Outside, Purges, Staffed;
    if step.Environment? {
      OutsideThreads(s, s', step.env);
    } else if step.Purge? {
      PurgesThreads(s, s');
    } else if step.Calling? {
      NoWorkerCalls(s, s', t, step.call);
    } else if step.Living? {
      LivesFrame(c, s, s', t, step.life);
    } else {
      hide Next;
      StepFrame(c, s, s', t, step);
    }
  }

  lemma NoWorkerCalls(s: Pool, s': Pool, t: Tid, k: CallStep)
    requires Calls(s, s', t, k)
    ensures forall w | w in s'.threads && w.Worker? :: w in s.threads
  {
  }

  lemma OwnLoopStep(c: Config, s: Pool, s': Pool, w: Tid, step: Step)
    requires Next(c, s, s', w, step) && w.Worker? && w in s.threads && w in s'.threads
    requires s'.threads[w].Loop? && !s'.threads[w].l.Top?
    requires !step.Environment? && !step.Purge? && !step.Calling? && !step.Living?
    ensures s.threads[w].Loop? && LoopMoves(s, s.threads[w].l, s'.threads[w].l)
  {
    hide LoopMoves, ExecMoves, SubmitMoves, Moved, Reserve, FirstRunAt, UseFastQueue, HeapFull, SpillRefuses, Handed;
    hide Truncated, Acquired, Released, WithoutKey, QueueItem;
  }

  /** How many of basic queue, fast queue and spill a worker has to have found empty to be here. */
  function Behind(l: LoopPc): nat {
    if l.PopFast? || l.PopFastAgain? then 1
    else if l.PopSpill? || l.TimedHeapAgain? then 2
    else if l.TryHeap? || l.LenHeap? || l.TimedHeap? then 3
    else 0
  }

  predicate InLoop(states: seq<Pool>, m: nat, i: nat, w: Tid) {
    forall k | m <= k <= i && k < |states| :: w in states[k].threads && states[k].threads[w].Loop?
  }

  /** In this turn of its loop, before state i, worker w has found the first n of them empty, one after
      the other. */
  ghost predicate Found(states: seq<Pool>, i: nat, w: Tid, n: nat) {
    && i < |states| && n <= 3
    && (n >= 1 ==>
          exists a: nat | a < i :: states[a].q.basic == [] && InLoop(states, a, i, w)
            && (n >= 2 ==>
                  exists b: nat | a < b < i :: states[b].q.fast == []
                    && (n >= 3 ==> exists d: nat | b < d < i :: states[d].q.spill == [])))
  }

  lemma FoundStays(states: seq<Pool>, i: nat, w: Tid, n: nat)
    requires Found(states, i, w, n) && i + 1 < |states| && InLoop(states, i, i + 1, w)
    ensures Found(states, i + 1, w, n)
  {
    if n >= 1 {
      var a: nat :| a < i && states[a].q.basic == [] && InLoop(states, a, i, w)
        && (n >= 2 ==> exists b: nat | a < b < i :: states[b].q.fast == []
                         && (n >= 3 ==> exists d: nat | b < d < i :: states[d].q.spill == []));
      assert a < i + 1 && InLoop(states, a, i + 1, w);
      if n >= 2 {
        var b: nat :| a < b < i && states[b].q.fast == []
          && (n >= 3 ==> exists d: nat | b < d < i :: states[d].q.spill == []);
        assert b < i + 1;
      }
    }
  }

  /** The next queue is found empty in state i. */
  lemma FoundNext(states: seq<Pool>, i: nat, w: Tid, n: nat)
    requires Found(states, i, w, n) && n < 3 && i + 1 < |states| && InLoop(states, i, i + 1, w)
    requires (if n == 0 then states[i].q.basic == [] else if n == 1 then states[i].q.fast == []
              else states[i].q.spill == [])
    ensures Found(states, i + 1, w, n + 1)
  {
    if n == 0 {
      assert i < i + 1;
    } else {
      var a: nat :| a < i && states[a].q.basic == [] && InLoop(states, a, i, w)
        && (n >= 2 ==> exists b: nat | a < b < i :: states[b].q.fast == []);
      assert a < i + 1 && InLoop(states, a, i + 1, w);
      if n == 2 {
        var b: nat :| a < b < i && states[b].q.fast == [];
        assert b < i < i + 1;
      }
    }
  }

  lemma {:induction false} RunFound(c: Config, states: seq<Pool>, events: seq<Event>, i: nat, w: Tid)
    requires IsRun(c, states, events) && i < |states| && w.Worker? && w in states[i].threads
             && states[i].threads[w].Loop?
    ensures Found(states, i, w, Behind(states[i].threads[w].l))
  {
    hide Next, Init, Staffed, Found;
    if Behind(states[i].threads[w].l) == 0 {
      NothingFound(states, i, w);
    } else if i == 0 {
      NoThreadsYet(c, states[0]);
    } else {
      RunStaffed(c, states, events, i - 1);
      LoopComesFrom(c, states[i - 1], states[i], events[i - 1].t, events[i - 1].step, w);
      RunFound(c, states, events, i - 1, w);
      var (l, l') := (states[i - 1].threads[w].l, states[i].threads[w].l);
      if Behind(l) == Behind(l') { FoundStays(states, i - 1, w, Behind(l)); }
      else { FoundNext(states, i - 1, w, Behind(l)); }
    }
  }

  lemma NothingFound(states: seq<Pool>, i: nat, w: Tid)
    requires i < |states|
    ensures Found(states, i, w, 0)
  {
  }

  lemma NoThreadsYet(c: Config, s: Pool)
    requires Init(c, s)
    ensures s.threads == map[]
  {
  }

  /** Work is looked for in order: a worker takes from the fast queue only if it has found the basic
      queue empty in this turn of its loop, from the spill or the heap only if it has found both empty,
      and from the heap at its first look only if it has found the spill empty as well. */
  lemma LooksInOrder(c: Config, states: seq<Pool>, events: seq<Event>, i: nat)
    requires IsRun(c, states, events) && i < |events| && events[i].step.Taking?
    ensures var (w, take) := (events[i].t, events[i].step.take);
      && (take.TakeFast? ==> Found(states, i, w, 1))
      && (take.TakeSpill? || take.TakeHeap? ==> Found(states, i, w, 2))
      && (take.TakeHeap? && w in states[i].threads && states[i].threads[w] != Loop(TimedHeapAgain) ==>
            Found(states, i, w, 3))
  {
    var (s, w, take) := (states[i], events[i].t, events[i].step.take);
    assert Takes(s, states[i + 1], w, take);
    hide Next, Init, Staffed;
    RunStaffed(c, states, events, i);
    WhoTakes(c, s, states[i + 1], w, take);
    RunFound(c, states, events, i, w);
  }

  lemma WhoTakes(c: Config, s: Pool, s': Pool, t: Tid, k: TakeStep)
    requires Staffed(c, s) && Takes(s, s', t, k)
    ensures t.Worker? && t in s.threads && s.threads[t].Loop?
  {
  }

  // ---- Room ----

  /** No queue holds more than it has room for. */
  predicate Bounded(c: Config, q: Queues) {
    && |q.basic| <= c.queueSize && |q.fast| <= c.queueSize && |q.heap| <= c.queueSize
    && (!c.spill ==> q.spill == []) && (c.spillMax > 0 ==> |q.spill| <= c.spillMax)
  }

  lemma TakesBounded(c: Config, s: Pool, s': Pool, t: Tid, k: TakeStep)
    requires Bounded(c, s.q) && Takes(s, s', t, k)
    ensures Bounded(c, s'.q)
  {
    hide At;
  }

  lemma PutsBackBounded(c: Config, s: Pool, s': Pool, t: Tid, k: PutStep)
    requires Bounded(c, s.q) && PutsBack(c, s, s', t, k)
    ensures Bounded(c, s'.q)
  {
    hide At, QueueItem;
  }

  lemma SubmitsBounded(c: Config, s: Pool, s': Pool, t: Tid, k: SubmitStep)
    requires Bounded(c, s.q) && Submits(c, s, s', t, k)
    ensures Bounded(c, s'.q)
  {
    hide At, QueueItem, Reserve, FirstRunAt, UseFastQueue, UseBasicFastPath;
  }

  lemma ReplaysBounded(c: Config, s: Pool, s': Pool, t: Tid, k: ReplayStep)
    requires Bounded(c, s.q) && Replays(c, s, s', t, k)
    ensures Bounded(c, s'.q)
  {
    hide At, QueueItem;
  }

  lemma OthersBounded(c: Config, s: Pool, s': Pool, t: Tid, step: Step)
    requires Next(c, s, s', t, step)
    requires !step.Taking? && !step.Putting? && !step.Submitting? && !step.Replaying?
    ensures s'.q == s.q.(dead := s'.q.dead)
  {
    hide Moved, Reserve, LoopMoves, ExecMoves, SubmitMoves, Normalized, Released, Acquired, WithoutKey, Handed,
      WaitOver;
  }

  /** In every run. */
  lemma {:induction false} QueuesBounded(c: Config, states: seq<Pool>, events: seq<Event>, i: nat)
    requires IsRun(c, states, events) && i < |states|
    ensures var q := states[i].q;
      && |q.basic| <= c.queueSize && |q.fast| <= c.queueSize && |q.heap| <= c.queueSize
      && (!c.spill ==> q.spill == []) && (c.spillMax > 0 ==> |q.spill| <= c.spillMax)
  {
    hide Takes, PutsBack, Submits, Replays, RunsBasic, Prepares, Reserves, Concludes, Leaves, Begins, Accepts, Control;
    hide TakesDead, Purges, Calls, Lives, Outside;
    if i > 0 {
      hide Init;
      QueuesBounded(c, states, events, i - 1);
      var (s, s', t, step) := (states[i - 1], states[i], events[i - 1].t, events[i - 1].step);
      assert Next(c, s, s', t, step);
      match step
      case Taking(k) => TakesBounded(c, s, s', t, k);
      case Putting(k) => PutsBackBounded(c, s, s', t, k);
      case Submitting(k) => SubmitsBounded(c, s, s', t, k);
      case Replaying(k) => ReplaysBounded(c, s, s', t, k);
      case _ => OthersBounded(c, s, s', t, step);
    }
  }
}

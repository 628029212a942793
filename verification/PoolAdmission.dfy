/** The rate limit at the door: what a rejecting or blocking limiter admits. */
module PoolAdmission {
  import opened KeyedSemaphore
  import opened Futures
  import opened TokenBucket
  import opened PoolProtocol

  /** Event e in state s is a submit being tested by the limiter of key k. */
  predicate Tests(s: Pool, e: Event, k: Key) {
    && e.step == Submitting(AdmitRate) && e.t in s.threads && s.threads[e.t].Submit?
    && s.threads[e.t].j in s.jobs && s.jobs[s.threads[e.t].j].opts.rateKey == k
  }

  /** And it passes: the submit goes on to make the job's record. */
  predicate Passes(s: Pool, s': Pool, e: Event, k: Key) {
    Tests(s, e, k) && e.t in s'.threads && s'.threads[e.t].Submit? && s'.threads[e.t].u.Creating?
  }

  /** How many submits the limiter of key k let pass before state i. */
  function Admissions(states: seq<Pool>, events: seq<Event>, i: nat, k: Key): nat
    requires i <= |events| < |states|
  {
    if i == 0 then 0
    else Admissions(states, events, i - 1, k) + if Passes(states[i - 1], states[i], events[i - 1], k) then 1 else 0
  }

  /** The limiter of key k is no queue, has bucket b, and has let n submits pass since it was b0. */
  ghost predicate Metered(s: Pool, k: Key, b0: Bucket, n: nat) {
    && k in s.sh.limiters && s.sh.limiters[k].mode != QueueMode
    && var b := s.sh.limiters[k].bucket;
       && b.rate == b0.rate > 0 && b.burst == b0.burst >= 1 && 0.0 <= b.tokens <= b.burst as real && b.last <= s.now
       && Potential(b) <= Potential(b0) - n as real
  }

  /** Nothing but such a test touches the bucket, and it makes a reservation without debt. */
  ghost predicate Meters(s: Pool, s': Pool, e: Event, k: Key) {
    && k in s.sh.limiters && k in s'.sh.limiters && s'.sh.limiters[k].mode == s.sh.limiters[k].mode && s.now <= s'.now
    && var (b, b') := (s.sh.limiters[k].bucket, s'.sh.limiters[k].bucket);
       if Tests(s, e, k) then
         && s'.now == s.now && b' == Reserve(b, s.now, false).0
         && (Passes(s, s', e, k) <==> Reserve(b, s.now, false).1.Granted?)
       else b' == b
  }

  lemma SubmitsMeter(c: Config, s: Pool, s': Pool, t: Tid, k: SubmitStep, key: Key)
    requires Submits(c, s, s', t, k) && key in s.sh.limiters && s.sh.limiters[key].mode != QueueMode && key != NO_KEY
    ensures Meters(s, s', Event(t, Submitting(k)), key)
  {
    hide Reserve, FirstRunAt, UseFastQueue, HeapFull, SpillRefuses, QueueItem, Completed;
  }

  lemma ReservesMeter(s: Pool, s': Pool, t: Tid, k: ReserveStep, key: Key)
    requires Reserves(s, s', t, k) && key in s.sh.limiters && s.sh.limiters[key].mode != QueueMode
    ensures Meters(s, s', Event(t, Reserving(k)), key)
  {
    hide Reserve, Truncated;
  }

  /** The other steps leave all limiters alone. */
  lemma OthersMeterNot(c: Config, s: Pool, s': Pool, t: Tid, step: Step)
    requires Next(c, s, s', t, step) && !step.Submitting? && !step.Reserving?
    ensures s'.sh.limiters == s.sh.limiters && s.now <= s'.now
  {
    hide Takes, RunsBasic, Prepares, Concludes, PutsBack, Replays, Leaves, Lives;
    hide Moved, Normalized, LoopMoves, ExecMoves, SubmitMoves;
    match step
    case Living(k) => LivesMeterNot(c, s, s', t, k);
    case Leaving => LeavesMeterNot(s, s', t);
    case Replaying(k) => ReplaysMeterNot(c, s, s', t, k);
    case _ => if !step.Moves? { WorkersMeterNot(c, s, s', t, step); }
  }

  lemma WorkersMeterNot(c: Config, s: Pool, s': Pool, t: Tid, step: Step)
    requires Next(c, s, s', t, step)
    ensures step.Taking? || step.Basics? || step.Preparing? || step.Concluding? || step.Putting? ==>
              s'.sh.limiters == s.sh.limiters && s'.now == s.now
  {
    hide Control, Leaves, Begins, Submits, Accepts, TakesDead, Purges, Replays, Calls, Lives, Outside, Reserves;
    hide QueueItem, WithoutKey, Acquired;
  }

  lemma LeavesMeterNot(s: Pool, s': Pool, t: Tid)
    requires Leaves(s, s', t)
    ensures s'.sh.limiters == s.sh.limiters && s'.now == s.now
  {
    hide WithoutKey, Released;
  }

  lemma ReplaysMeterNot(c: Config, s: Pool, s': Pool, t: Tid, k: ReplayStep)
    requires Replays(c, s, s', t, k)
    ensures s'.sh.limiters == s.sh.limiters && s'.now == s.now
  {
    hide HeapFull, QueueItem;
  }

  lemma LivesMeterNot(c: Config, s: Pool, s': Pool, t: Tid, k: LifeStep)
    requires Lives(c, s, s', t, k)
    ensures s'.sh == s.sh && s'.now == s.now
  {
    hide WaitOver;
  }

  lemma StepMeters(c: Config, s: Pool, s': Pool, t: Tid, step: Step, key: Key)
    requires Next(c, s, s', t, step) && key in s.sh.limiters && s.sh.limiters[key].mode != QueueMode && key != NO_KEY
    ensures Meters(s, s', Event(t, step), key)
  {
    hide Submits, Reserves, Reserve;
    if step.Submitting? {
      assert Submits(c, s, s', t, step.submit);
      hide Next, Meters;
      SubmitsMeter(c, s, s', t, step.submit, key);
    } else if step.Reserving? {
      assert Reserves(s, s', t, step.reserve);
      hide Next, Meters;
      ReservesMeter(s, s', t, step.reserve, key);
    } else {
      hide Next;
      OthersMeterNot(c, s, s', t, step);
    }
  }

  lemma StepMetered(s: Pool, s': Pool, e: Event, k: Key, b0: Bucket, n: nat)
    requires Metered(s, k, b0, n) && Meters(s, s', e, k)
    ensures Metered(s', k, b0, n + if Passes(s, s', e, k) then 1 else 0)
  {
    hide Tests;
    if Tests(s, e, k) { TestPays(s.sh.limiters[k].bucket, s.now); }
    hide Reserve, Potential;
  }

  lemma TestPays(b: Bucket, now: int)
    requires b.rate > 0 && b.burst >= 1 && 0.0 <= b.tokens <= b.burst as real && b.last <= now
    ensures var (b', out) := Reserve(b, now, false);
      && b'.rate == b.rate && b'.burst == b.burst && 0.0 <= b'.tokens <= b'.burst as real && b'.last == now
      && Potential(b') <= Potential(b) - (if out.Granted? then 1.0 else 0.0)
  {
    ReservePays(b, now, false);
    ReserveMeans(b, b.rate as real, b.burst as real, now, false);
    SecondsOrder(0, now - b.last);
    ScaledOrder(b.rate as real, 0.0, Seconds(now - b.last));
    hide Reserve, Potential;
  }

  lemma {:induction false} RunMetered(c: Config, states: seq<Pool>, events: seq<Event>, i: nat, k: Key)
    requires IsRun(c, states, events) && i < |states| && k != NO_KEY && k in states[0].sh.limiters
    requires states[0].sh.limiters[k].mode != QueueMode && states[0].sh.limiters[k].bucket.rate > 0
    ensures Metered(states[i], k, states[0].sh.limiters[k].bucket, Admissions(states, events, i, k))
  {
    hide Next, Meters, Passes;
    if i == 0 {
      hide Next;
    } else {
      hide Init;
      RunMetered(c, states, events, i - 1, k);
      StepMeters(c, states[i - 1], states[i], events[i - 1].t, events[i - 1].step, k);
      assert events[i - 1] == Event(events[i - 1].t, events[i - 1].step);
      StepMetered(states[i - 1], states[i], events[i - 1], k, states[0].sh.limiters[k].bucket,
                  Admissions(states, events, i - 1, k));
    }
  }

  // ---- Main result ----

  /** A rejecting or blocking limiter installed at t0 lets at most burst + rate * (t - t0) submits pass
      by any time t, and passes or holds back each as its bucket says: one that finds a token takes it. */
  lemma AdmissionsWithinRate(c: Config, states: seq<Pool>, events: seq<Event>, i: nat, k: Key)
    requires IsRun(c, states, events) && i < |states| && k != NO_KEY && k in states[0].sh.limiters
    requires states[0].sh.limiters[k].mode != QueueMode && states[0].sh.limiters[k].bucket.rate > 0
    ensures var b := states[0].sh.limiters[k].bucket;
            Admissions(states, events, i, k) as real
            <= b.burst as real + b.rate as real * Seconds(states[i].now - states[0].now)
  {
    hide Next, Passes;
    RunMetered(c, states, events, i, k);
    var (b0, b) := (states[0].sh.limiters[k].bucket, states[i].sh.limiters[k].bucket);
    assert b0.tokens == b0.burst as real && b0.last == states[0].now;
    hide Init, IsRun, Admissions;
    SecondsDiff(states[i].now, states[0].now);
    SecondsOrder(states[i].now, b.last);
    hide Seconds;
    Budget(Admissions(states, events, i, k) as real, b.tokens, b0.burst as real, b0.rate as real,
           Seconds(states[0].now), Seconds(b.last), Seconds(states[i].now));
  }

  lemma Budget(n: real, tokens: real, burst: real, rate: real, from: real, last: real, to: real)
    requires rate > 0.0 && tokens >= 0.0 && last <= to && tokens - rate * last <= burst - rate * from - n
    ensures n <= burst + rate * (to - from)
  {
    ScaledOrder(rate, last, to);
    Distribute(rate, from, to);
  }
}

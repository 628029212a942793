/** Every attempt of a queue-mode rate key uses up a reservation of its own, in time. */
module PoolRate {
  import opened Options
  import opened Futures
  import opened KeyedSemaphore
  import opened TokenBucket
  import opened PoolProtocol
  import opened PoolThreads

  type Log = seq<Reservation>

  /** Entry i belongs to o and is ready by the given time. */
  predicate Owns(log: Log, i: nat, o: Owner, due: int) {
    i < |log| && log[i].owner == o && log[i].ready <= due
  }

  predicate OwnsSome(log: Log, i: Option<nat>, o: Owner, due: int) {
    i.Some? && Owns(log, i.value, o, due)
  }

  predicate JobRate(log: Log, k: Key, j: JobId, job: Job) {
    job.opts.rateKey == k && job.rateReadyAt.Some? ==>
        OwnsSome(log, job.track.reservation, OfJob(j), job.rateReadyAt.value)
  }

  predicate ThreadRate(log: Log, k: Key, t: Tid, pc: Pc, jobs: map<JobId, Job>, now: int) {
    pc.Exec? ==>
      && pc.j in jobs
      && (jobs[pc.j].opts.rateKey == k ==>
            && (pc.x.Delaying? ==> Owns(log, pc.x.k, OfThread(t), now + pc.x.delay))
            && (pc.x.Acquire? || pc.x.Start? ==> OwnsSome(log, pc.x.r, OfThread(t), now)))
  }

  predicate AttemptRate(log: Log, k: Key, a: nat, attempt: Attempt) {
    attempt.rateKey == k ==> OwnsSome(log, attempt.reservation, UsedBy(a), attempt.at)
  }

  /** Every reservation in use is on the log, under its one owner. */
  ghost predicate Spoken(log: Log, s: Pool, k: Key) {
    && (forall j | j in s.jobs :: JobRate(log, k, j, s.jobs[j]))
    && (forall t | t in s.threads :: ThreadRate(log, k, t, s.threads[t], s.jobs, s.now))
    && (forall a: nat | a < |s.attempts| :: AttemptRate(log, k, a, s.attempts[a]))
  }

  /** Of a bucket that began as b, reservation i cannot be ready before this. */
  ghost predicate InTime(b: Bucket, i: nat, ready: int) {
    i as real + 1.0 <= b.burst as real + b.rate as real * Seconds(ready + 1 - b.last)
  }

  /** The limiter's bucket has paid for every reservation on its log. */
  ghost predicate Paid(b: Bucket, l: Limiter, now: int) {
    && l.mode.QueueMode? && b.rate > 0 && b.burst >= 1
    && l.bucket.rate == b.rate && l.bucket.burst == b.burst && l.bucket.tokens <= b.burst as real
      && l.bucket.last <= now
    && Potential(l.bucket) <= Potential(b) - |l.log| as real && b.tokens == b.burst as real
    && (forall i: nat | i < |l.log| :: InTime(b, i, l.log[i].ready))
  }

  ghost predicate Rated(s: Pool, k: Key, b: Bucket) {
    k != NO_KEY && k in s.sh.limiters && Paid(b, s.sh.limiters[k], s.now) && Spoken(s.sh.limiters[k].log, s, k)
  }

  // ---- The bucket ----

  /** A potential of at most -(n + 1) above where the bucket began puts the ready time late enough. */
  lemma PotentialInTime(b: Bucket, b': Bucket, n: nat, x: real, ready: int)
    requires b.rate > 0 && b.tokens == b.burst as real && Potential(b') <= Potential(b) - n as real - 1.0
    requires b.rate as real * x == Level(b') && x < Seconds(ready + 1)
    ensures InTime(b, n, ready)
  {
    var rate, y := b.rate as real, Seconds(ready + 1);
    SecondsDiff(ready + 1, b.last);
    assert Level(b') >= 0.0 - Potential(b');
    assert Potential(b) == b.burst as real - rate * Seconds(b.last);
    ScaledOrder(rate, x, y);
    Distribute(rate, Seconds(b.last), y);
    hide Seconds, Potential, Level;
  }

  lemma ReserveInTime(b: Bucket, l: Limiter, now: int)
    requires Paid(b, l, now)
    ensures var (b', out) := Reserve(l.bucket, now, true);
            out.Granted? && InTime(b, |l.log|, now + Truncated(out.wait))
            && b'.rate == b.rate && b'.burst == b.burst && b'.tokens <= b.burst as real && b'.last == now
            && Potential(b') <= Potential(b) - |l.log| as real - 1.0
  {
    ReservePays(l.bucket, now, true);
    TruncationCost(l.bucket, Op(now, true));
    var (b', out) := Reserve(l.bucket, now, true);
    assert out.Granted?;
    hide Reserve, Truncated, Seconds, Potential, Level, InTime;
    PotentialInTime(b, b', |l.log|, Seconds(now) + out.wait, now + Truncated(out.wait));
  }

  // ---- Steps that leave the reservations of k alone ----

  predicate Uses(pc: Pc) {
    pc.Exec? && (pc.x.Delaying? || pc.x.Acquire? || pc.x.Start?)
  }

  /** A thread now at pc has no claim on k's reservations that it did not have. */
  predicate NoNewClaim(jobs: map<JobId, Job>, k: Key, was: Pc, pc: Pc) {
    pc.Exec? ==>
      && pc.j in jobs
      && (Uses(pc) && jobs[pc.j].opts.rateKey == k ==>
            was.Exec? && was.j == pc.j && was.x.Acquire? && pc.x == Start(was.x.spilled, was.x.r))
  }

  ghost predicate JobsQuiet(s: Pool, s': Pool, k: Key) {
    && (forall j | j in s.jobs :: j in s'.jobs && s'.jobs[j].opts == s.jobs[j].opts)
    && (forall j | j in s'.jobs && s'.jobs[j].opts.rateKey == k ::
          if j in s.jobs then s'.jobs[j].rateReadyAt == s.jobs[j].rateReadyAt
            && s'.jobs[j].track.reservation == s.jobs[j].track.reservation
          else s'.jobs[j].rateReadyAt.None?)
  }

  ghost predicate Quiet(s: Pool, s': Pool, k: Key) {
    && s.now <= s'.now && JobsQuiet(s, s', k)
    && (k in s.sh.limiters ==> k in s'.sh.limiters && s'.sh.limiters[k] == s.sh.limiters[k])
    && (s'.attempts == s.attempts
        || exists a: Attempt :: s'.attempts == s.attempts + [a] && a.rateKey != k)
    && (forall t | t in s'.threads ::
          (t in s.threads && s'.threads[t] == s.threads[t]) || NoNewClaim(s.jobs, k, PcOf(s, t), s'.threads[t]))
  }

  lemma QuietRated(s: Pool, s': Pool, k: Key, b: Bucket)
    requires Rated(s, k, b) && Quiet(s, s', k)
    ensures Rated(s', k, b)
  {
    var log := s.sh.limiters[k].log;
    forall j | j in s'.jobs ensures JobRate(log, k, j, s'.jobs[j]) {
      if j in s.jobs { assert JobRate(log, k, j, s.jobs[j]); }
    }
    forall t | t in s'.threads ensures ThreadRate(log, k, t, s'.threads[t], s'.jobs, s'.now) {
      if t in s.threads { assert ThreadRate(log, k, t, s.threads[t], s.jobs, s.now); }
    }
    forall a: nat | a < |s'.attempts| ensures AttemptRate(log, k, a, s'.attempts[a]) {
      if a < |s.attempts| { assert s'.attempts[a] == s.attempts[a] && AttemptRate(log, k, a, s.attempts[a]); }
    }
  }

  lemma OneQuiet(s: Pool, s': Pool, t: Tid, j: JobId, k: Key)
    requires j in s.jobs && j in s'.jobs && t in s'.threads && s'.jobs == s.jobs[j := s'.jobs[j]]
             && s'.threads == s.threads[t := s'.threads[t]]
    requires s'.jobs[j].opts == s.jobs[j].opts
    requires s.jobs[j].opts.rateKey == k ==>
               s'.jobs[j].rateReadyAt == s.jobs[j].rateReadyAt
                 && s'.jobs[j].track.reservation == s.jobs[j].track.reservation
    requires k in s.sh.limiters ==> k in s'.sh.limiters && s'.sh.limiters[k] == s.sh.limiters[k]
    requires s'.now == s.now && (s'.attempts == s.attempts || exists a: Attempt ::
                                   s'.attempts == s.attempts + [a] && a.rateKey != k)
    requires NoNewClaim(s.jobs, k, PcOf(s, t), s'.threads[t])
    ensures Quiet(s, s', k)
  {
  }

  /** The one way to the semaphore without a reservation is not open to k's jobs. */
  lemma ControlQuiet(c: Config, s: Pool, s': Pool, t: Tid, pc': Pc, k: Key)
    requires k != NO_KEY && k in s.sh.limiters && s.sh.limiters[k].mode.QueueMode? && Control(c, s, s', t, pc')
    ensures Quiet(s, s', k)
  {
    hide LoopMoves, SubmitMoves, HeapFull;
  }

  lemma TakesQuiet(s: Pool, s': Pool, t: Tid, step: TakeStep, k: Key)
    requires Takes(s, s', t, step)
    ensures Quiet(s, s', k)
  {
    hide Quiet;
    OneQuiet(s, s', t, s'.threads[t].j, k);
  }

  lemma RunsBasicQuiet(s: Pool, s': Pool, t: Tid, step: BasicStep, k: Key)
    requires RunsBasic(s, s', t, step)
    ensures Quiet(s, s', k)
  {
  }

  lemma PreparesQuiet(s: Pool, s': Pool, t: Tid, step: PrepareStep, k: Key)
    requires Prepares(s, s', t, step)
    ensures Quiet(s, s', k)
  {
    hide Admits, Acquired;
  }

  lemma ConcludesQuiet(s: Pool, s': Pool, t: Tid, step: ConcludeStep, k: Key)
    requires Concludes(s, s', t, step)
    ensures Quiet(s, s', k)
  {
    if !step.Succeed? && !step.Fail? {
      hide Quiet;
      OneQuiet(s, s', t, s.threads[t].j, k);
    }
  }

  lemma PutsBackQuiet(c: Config, s: Pool, s': Pool, t: Tid, step: PutStep, k: Key)
    requires PutsBack(c, s, s', t, step)
    ensures Quiet(s, s', k)
  {
    hide HeapFull;
  }

  lemma LeavesQuiet(s: Pool, s': Pool, t: Tid, k: Key)
    requires Leaves(s, s', t)
    ensures Quiet(s, s', k)
  {
  }

  lemma BeginsQuiet(c: Config, s: Pool, s': Pool, t: Tid, j: JobId, o: Opts, k: Key)
    requires Begins(c, s, s', t, j, o)
    ensures Quiet(s, s', k)
  {
    hide Normalized;
  }

  lemma AdmitQuiet(c: Config, s: Pool, s': Pool, t: Tid, k: Key)
    requires k in s.sh.limiters && s.sh.limiters[k].mode.QueueMode? && Submits(c, s, s', t, AdmitRate)
    ensures Quiet(s, s', k)
  {
    hide Reserve;
  }

  lemma EvictsQuiet(c: Config, s: Pool, s': Pool, t: Tid, e: Item, k: Key)
    requires Submits(c, s, s', t, PushEvicting(e))
    ensures Quiet(s, s', k)
  {
    hide HeapFull;
  }

  lemma SubmitsQuiet(c: Config, s: Pool, s': Pool, t: Tid, step: SubmitStep, k: Key)
    requires k in s.sh.limiters && s.sh.limiters[k].mode.QueueMode? && Submits(c, s, s', t, step)
    ensures Quiet(s, s', k)
  {
    hide Quiet, Reserve, HeapFull, SpillRefuses, FirstRunAt, UseFastQueue;
    if step.AdmitRate? { AdmitQuiet(c, s, s', t, k); }
    else if step.PushEvicting? { EvictsQuiet(c, s, s', t, step.e, k); }
    else { OneQuiet(s, s', t, s.threads[t].j, k); }
  }

  lemma ReplaysQuiet(c: Config, s: Pool, s': Pool, t: Tid, step: ReplayStep, k: Key)
    requires Replays(c, s, s', t, step)
    ensures Quiet(s, s', k)
  {
    hide HeapFull;
  }

  lemma DeadQuiet(s: Pool, s': Pool, t: Tid, k: Key)
    requires TakesDead(s, s', t) || Purges(s, s')
    ensures Quiet(s, s', k)
  {
  }

  lemma CallsQuiet(s: Pool, s': Pool, t: Tid, step: CallStep, k: Key)
    requires Calls(s, s', t, step)
    ensures Quiet(s, s', k)
  {
  }

  lemma LivesQuiet(c: Config, s: Pool, s': Pool, t: Tid, step: LifeStep, k: Key)
    requires Lives(c, s, s', t, step)
    ensures Quiet(s, s', k)
  {
    hide WaitOver;
  }

  lemma OutsideQuiet(s: Pool, s': Pool, step: EnvStep, k: Key)
    requires Outside(s, s', step)
    ensures Quiet(s, s', k)
  {
  }

  // ---- Steps that make, hand over, use up or drop a reservation ----

  lemma OtherKeyQuiet(s: Pool, s': Pool, t: Tid, step: ReserveStep, k: Key)
    requires Reserves(s, s', t, step) && s.jobs[s.threads[t].j].opts.rateKey != k
    ensures Quiet(s, s', k)
  {
    hide Reserve, Truncated, Admits, Quiet;
    if step == StartAttempt { assert s'.attempts == s.attempts + [s'.attempts[|s.attempts|]]; }
    OneQuiet(s, s', t, s.threads[t].j, k);
  }

  function Passed(log: Log, i: nat, to: Owner): Log
    requires i < |log|
  {
    log[i := log[i].(owner := to)]
  }

  /** Entry i leaves thread t or job j, its owner until then. */
  lemma PassedRated(s: Pool, s': Pool, t: Tid, j: JobId, k: Key, b: Bucket, i: nat, to: Owner)
    requires Rated(s, k, b) && i < |s.sh.limiters[k].log| && k in s'.sh.limiters && j in s.jobs && j in s'.jobs
             && t in s'.threads
    requires s.sh.limiters[k].log[i].owner == OfThread(t) || s.sh.limiters[k].log[i].owner == OfJob(j)
    requires var log' := Passed(s.sh.limiters[k].log, i, to);
             && s'.sh.limiters[k] == s.sh.limiters[k].(log := log')
             && JobRate(log', k, j, s'.jobs[j]) && ThreadRate(log', k, t, s'.threads[t], s'.jobs, s.now)
             && (s'.attempts == s.attempts
                 || exists a :: s'.attempts == s.attempts + [a] && AttemptRate(log', k, |s.attempts|, a))
    requires s'.jobs == s.jobs[j := s'.jobs[j]] && s'.threads == s.threads[t := s'.threads[t]] && s'.now == s.now
    requires s'.jobs[j].opts == s.jobs[j].opts
    ensures Rated(s', k, b)
  {
    var log, log' := s.sh.limiters[k].log, s'.sh.limiters[k].log;
    forall n: nat | n < |log'| ensures log'[n].ready == log[n].ready && (n != i ==> log'[n] == log[n]) {}
    assert Paid(b, s'.sh.limiters[k], s'.now);
    hide Paid;
    forall x | x in s'.jobs ensures JobRate(log', k, x, s'.jobs[x]) {
      if x != j { assert JobRate(log, k, x, s.jobs[x]); }
    }
    forall u | u in s'.threads ensures ThreadRate(log', k, u, s'.threads[u], s'.jobs, s'.now) {
      if u != t { assert ThreadRate(log, k, u, s.threads[u], s.jobs, s.now); }
    }
    forall a: nat | a < |s'.attempts| ensures AttemptRate(log', k, a, s'.attempts[a]) {
      if a < |s.attempts| { assert s'.attempts[a] == s.attempts[a] && AttemptRate(log, k, a, s.attempts[a]); }
    }
  }

  /** What Rated says of a thread and its job. */
  lemma RatedHere(s: Pool, t: Tid, k: Key, b: Bucket)
    requires Rated(s, k, b) && t in s.threads && s.threads[t].Exec?
    ensures k in s.sh.limiters && ThreadRate(s.sh.limiters[k].log, k, t, s.threads[t], s.jobs, s.now)
    ensures JobRate(s.sh.limiters[k].log, k, s.threads[t].j, s.jobs[s.threads[t].j])
  {
  }

  lemma DelaysRated(s: Pool, s': Pool, t: Tid, k: Key, b: Bucket)
    requires Rated(s, k, b) && Reserves(s, s', t, DelayForRate) && s.jobs[s.threads[t].j].opts.rateKey == k
    ensures Rated(s', k, b)
  {
    var (j, x) := (s.threads[t].j, s.threads[t].x);
    RatedHere(s, t, k, b);
    hide Rated;
    PassedRated(s, s', t, j, k, b, x.k, OfJob(j));
  }

  lemma UsesRated(s: Pool, s': Pool, t: Tid, k: Key, b: Bucket)
    requires Rated(s, k, b) && Reserves(s, s', t, UseReservation) && s.jobs[s.threads[t].j].opts.rateKey == k
    ensures Rated(s', k, b)
  {
    var j := s.threads[t].j;
    RatedHere(s, t, k, b);
    hide Rated;
    PassedRated(s, s', t, j, k, b, s.jobs[j].track.reservation.value, OfThread(t));
  }

  lemma DropsRated(s: Pool, s': Pool, t: Tid, k: Key, b: Bucket)
    requires Rated(s, k, b) && Reserves(s, s', t, DelayForKey) && s.jobs[s.threads[t].j].opts.rateKey == k
    ensures Rated(s', k, b)
  {
    var (j, x) := (s.threads[t].j, s.threads[t].x);
    RatedHere(s, t, k, b);
    hide Rated, Admits;
    PassedRated(s, s', t, j, k, b, x.r.value, Dropped);
  }

  lemma StartsRated(s: Pool, s': Pool, t: Tid, k: Key, b: Bucket)
    requires Rated(s, k, b) && Reserves(s, s', t, StartAttempt) && s.jobs[s.threads[t].j].opts.rateKey == k
    ensures Rated(s', k, b)
  {
    var (j, x) := (s.threads[t].j, s.threads[t].x);
    RatedHere(s, t, k, b);
    hide Rated;
    var a := Attempt(j, s.now, s.jobs[j].runAt, x.spilled, k, x.r);
    assert s'.attempts == s.attempts + [a];
    PassedRated(s, s', t, j, k, b, x.r.value, UsedBy(|s.attempts|));
  }

  /** A new reservation is in time, and nobody else's. */
  lemma ReservesRated(s: Pool, s': Pool, t: Tid, k: Key, b: Bucket)
    requires Rated(s, k, b) && Reserves(s, s', t, ReserveRate) && s.jobs[s.threads[t].j].opts.rateKey == k
    ensures Rated(s', k, b)
  {
    var l, l' := s.sh.limiters[k], s'.sh.limiters[k];
    ReserveInTime(b, l, s.now);
    assert Paid(b, l', s'.now) by { hide Reserve, Truncated, Potential; }
    hide Paid, Reserve, Truncated;
    forall n: nat | n < |l.log| ensures l'.log[n] == l.log[n] {}
    forall j | j in s'.jobs ensures JobRate(l'.log, k, j, s'.jobs[j]) { assert JobRate(l.log, k, j, s.jobs[j]); }
    forall u | u in s'.threads ensures ThreadRate(l'.log, k, u, s'.threads[u], s'.jobs, s'.now) {
      assert ThreadRate(l.log, k, u, s.threads[u], s.jobs, s.now);
    }
    forall a: nat | a < |s'.attempts|
      ensures AttemptRate(l'.log, k, a, s'.attempts[a]) { assert AttemptRate(l.log, k, a, s.attempts[a]); }
  }

  lemma ReserveStepRated(s: Pool, s': Pool, t: Tid, step: ReserveStep, k: Key, b: Bucket)
    requires Rated(s, k, b) && Reserves(s, s', t, step)
    ensures Rated(s', k, b)
  {
    if s.jobs[s.threads[t].j].opts.rateKey != k {
      hide Rated, Reserves;
      OtherKeyQuiet(s, s', t, step, k);
      QuietRated(s, s', k, b);
    } else {
      hide Rated, Reserves;
      match step
      case ReserveRate => ReservesRated(s, s', t, k, b);
      case DelayForRate => DelaysRated(s, s', t, k, b);
      case UseReservation => UsesRated(s, s', t, k, b);
      case DelayForKey => DropsRated(s, s', t, k, b);
      case StartAttempt => StartsRated(s, s', t, k, b);
    }
  }

  lemma StepQuiet(c: Config, s: Pool, s': Pool, t: Tid, step: Step, k: Key)
    requires k != NO_KEY && k in s.sh.limiters && s.sh.limiters[k].mode.QueueMode?
    requires Next(c, s, s', t, step) && !step.Reserving?
    ensures Quiet(s, s', k)
  {
    hide Control, Takes, RunsBasic, Prepares, Concludes, PutsBack, Leaves, Begins, Submits, Replays, TakesDead, Purges,
      Calls, Lives, Outside;
    match step
    case Moves(pc) => ControlQuiet(c, s, s', t, pc, k);
    case Taking(a) => TakesQuiet(s, s', t, a, k);
    case Basics(a) => RunsBasicQuiet(s, s', t, a, k);
    case Preparing(a) => PreparesQuiet(s, s', t, a, k);
    case Concluding(a) => ConcludesQuiet(s, s', t, a, k);
    case Putting(a) => PutsBackQuiet(c, s, s', t, a, k);
    case Leaving => LeavesQuiet(s, s', t, k);
    case Beginning(j, o) => BeginsQuiet(c, s, s', t, j, o, k);
    case Submitting(a) => SubmitsQuiet(c, s, s', t, a, k);
    case Accept =>
    case TakeDead => DeadQuiet(s, s', t, k);
    case Purge => DeadQuiet(s, s', t, k);
    case Replaying(a) => ReplaysQuiet(c, s, s', t, a, k);
    case Calling(a) => CallsQuiet(s, s', t, a, k);
    case Living(a) => LivesQuiet(c, s, s', t, a, k);
    case Environment(a) => OutsideQuiet(s, s', a, k);
  }

  lemma StepRated(c: Config, s: Pool, s': Pool, t: Tid, step: Step, k: Key, b: Bucket)
    requires Rated(s, k, b) && Next(c, s, s', t, step)
    ensures Rated(s', k, b)
  {
    if step.Reserving? {
      hide Reserves, Rated;
      ReserveStepRated(s, s', t, step.reserve, k, b);
    } else {
      hide Next;
      StepQuiet(c, s, s', t, step, k);
      QuietRated(s, s', k, b);
    }
  }

  lemma {:induction false} RunRated(c: Config, states: seq<Pool>, events: seq<Event>, i: nat, k: Key)
    requires IsRun(c, states, events) && i < |states| && k != NO_KEY
    requires k in states[0].sh.limiters && states[0].sh.limiters[k].mode.QueueMode?
             && states[0].sh.limiters[k].bucket.rate > 0
    ensures Rated(states[i], k, states[0].sh.limiters[k].bucket)
  {
    hide Next;
    if i > 0 {
      var s, s', t, step := states[i - 1], states[i], events[i - 1].t, events[i - 1].step;
      assert Next(c, s, s', t, step);
      RunRated(c, states, events, i - 1, k);
      hide Rated;
      StepRated(c, s, s', t, step, k, states[0].sh.limiters[k].bucket);
    }
  }

  // ---- Counting ----

  lemma {:induction false} Pigeonhole(attempts: set<nat>, slot: map<nat, nat>, m: nat)
    requires attempts <= slot.Keys && forall a | a in attempts :: slot[a] < m
    requires forall a, b | a in attempts && b in attempts && slot[a] == slot[b] :: a == b
    ensures |attempts| <= m
  {
    if m > 0 {
      if a :| a in attempts && slot[a] == m - 1 {
        Pigeonhole(attempts - {a}, slot, m - 1);
        assert attempts == (attempts - {a}) + {a};
      } else {
        Pigeonhole(attempts, slot, m - 1);
      }
    } else {
      assert attempts == {};
    }
  }

  // ---- Main result ----

  /** The attempts for key k started by the given time. */
  function StartedBy(attempts: seq<Attempt>, k: Key, until: int): set<nat> {
    set a: nat | a < |attempts| && attempts[a].rateKey == k && attempts[a].at <= until
  }

  lemma UntilLater(b: Bucket, i: nat, ready: int, until: int)
    requires b.rate > 0 && ready <= until && InTime(b, i, ready)
    ensures i as real + 1.0 <= b.burst as real + b.rate as real * Seconds(until + 1 - b.last)
  {
    if ready < until { SecondsOrder(ready + 1 - b.last, until + 1 - b.last); }
    ScaledOrder(b.rate as real, Seconds(ready + 1 - b.last), Seconds(until + 1 - b.last));
  }

  /** However workers, requeues, concurrency delays, retries and replays interleave, a queue-mode
      bucket installed at time t0 and never replaced lets at most burst + rate * (t - t0) of its
      key's attempts start by time t, plus one nanosecond of rate for truncating waits. */
  lemma AttemptsWithinRate(c: Config, states: seq<Pool>, events: seq<Event>, i: nat, k: Key, until: int)
    requires IsRun(c, states, events) && i < |states| && k != NO_KEY && states[0].now <= until
    requires k in states[0].sh.limiters && states[0].sh.limiters[k].mode.QueueMode?
             && states[0].sh.limiters[k].bucket.rate > 0
    ensures var b := states[0].sh.limiters[k].bucket;
            |StartedBy(states[i].attempts, k, until)| as real
            <= b.burst as real + b.rate as real * Seconds(until - states[0].now + 1)
  {
    hide Next;
    var b := states[0].sh.limiters[k].bucket;
    RunRated(c, states, events, i, k);
    var s := states[i];
    assert b.last == states[0].now && b.burst >= 1;
    assert Rated(s, k, b);
    hide IsRun;
    CountRated(s, k, b, until);
  }

  lemma CountRated(s: Pool, k: Key, b: Bucket, until: int)
    requires Rated(s, k, b) && b.last <= until
    ensures |StartedBy(s.attempts, k, until)| as real <= b.burst as real + b.rate as real * Seconds(until + 1 - b.last)
  {
    var log := s.sh.limiters[k].log;
    var bound := b.burst as real + b.rate as real * Seconds(until + 1 - b.last);
    var started := StartedBy(s.attempts, k, until);
    forall a | a in started ensures OwnsSome(log, s.attempts[a].reservation, UsedBy(a), until) {
      assert AttemptRate(log, k, a, s.attempts[a]);
    }
    var slot := map a | a in started :: s.attempts[a].reservation.value;
    ScaledOrder(b.rate as real, 0.0, Seconds(until + 1 - b.last));
    forall a | a in started ensures slot[a] < bound.Floor {
      UntilLater(b, slot[a], log[slot[a]].ready, until);
    }
    hide Seconds;
    Pigeonhole(started, slot, bound.Floor);
  }
}

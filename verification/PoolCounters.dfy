/** The pool's counters account for every submission, attempt and dead letter at every moment. */
module PoolCounters {
  import opened KeyedSemaphore
  import opened TokenBucket
  import opened PoolProtocol
  import opened PoolThreads

  /** Counted as submitted, not yet as accepted or rejected. */
  predicate InSubmit(pc: Pc) {
    pc.Submit? || pc.Accepting?
  }

  /** Counted as started, not yet as completed or failed. */
  predicate InAttempt(pc: Pc) {
    (pc.Basic? && pc.b == BasicRun) || (pc.Exec? && pc.x == Run)
  }

  /** A failure or a refused requeue is counted, its retry or dead letter is not yet. */
  predicate InFailure(pc: Pc) {
    (pc.Basic? && pc.b == BasicFailed) || (pc.Exec? && (pc.x.RunFailed? || pc.x.Burying?))
  }

  function Where(threads: map<Tid, Pc>, p: Pc -> bool): set<Tid> {
    set t | t in threads && p(threads[t])
  }

  /** How many threads are at a program counter with property p. */
  function Threads(threads: map<Tid, Pc>, p: Pc -> bool): nat {
    |Where(threads, p)|
  }

  lemma SetMoves(before: set<Tid>, after: set<Tid>, t: Tid)
    requires before - {t} == after - {t}
    ensures |after| == |before| - One(t in before) + One(t in after)
  {
    var others := before - {t};
    assert before == if t in before then others + {t} else others;
    assert after == if t in after then others + {t} else others;
  }

  lemma ThreadsMove(threads: map<Tid, Pc>, p: Pc -> bool, t: Tid, pc: Pc)
    ensures Threads(threads[t := pc], p) == Threads(threads, p) - One(t in threads && p(threads[t])) + One(p(pc))
  {
    var before, after := Where(threads, p), Where(threads[t := pc], p);
    assert forall u | u != t :: u in before <==> u in after;
    SetMoves(before, after, t);
  }

  function Submissions(n: Counters): int {
    n.submitted - n.rejected - (n.accepted - n.replayed)
  }

  function Attempts(n: Counters): int {
    n.started - n.completed - n.failed
  }

  function Failures(n: Counters): int {
    n.failed - n.retried + n.refused - n.dlq
  }

  ghost predicate Balanced(s: Pool) {
    && Submissions(s.n) == Threads(s.threads, InSubmit)
    && Attempts(s.n) == Threads(s.threads, InAttempt)
    && Failures(s.n) == Threads(s.threads, InFailure)
  }

  /** A step of t changes the three sums exactly as it moves t in and out of the three regions. */
  ghost predicate Books(s: Pool, s': Pool, t: Tid) {
    && t in s'.threads
    && var (pc, pc') := (PcOf(s, t), s'.threads[t]);
    && Submissions(s'.n) - Submissions(s.n) == One(InSubmit(pc')) - One(InSubmit(pc))
    && Attempts(s'.n) - Attempts(s.n) == One(InAttempt(pc')) - One(InAttempt(pc))
    && Failures(s'.n) - Failures(s.n) == One(InFailure(pc')) - One(InFailure(pc))
  }

  lemma BooksBalance(s: Pool, s': Pool, t: Tid)
    requires Balanced(s) && Books(s, s', t) && s'.threads == s.threads[t := s'.threads[t]]
    ensures Balanced(s')
  {
    ThreadsMove(s.threads, InSubmit, t, s'.threads[t]);
    ThreadsMove(s.threads, InAttempt, t, s'.threads[t]);
    ThreadsMove(s.threads, InFailure, t, s'.threads[t]);
  }

  lemma ControlBooks(c: Config, s: Pool, s': Pool, t: Tid, pc': Pc)
    requires Control(c, s, s', t, pc')
    ensures Books(s, s', t)
  {
    hide LoopMoves, SubmitMoves;
  }

  lemma TakesBooks(s: Pool, s': Pool, t: Tid, k: TakeStep)
    requires Takes(s, s', t, k)
    ensures Books(s, s', t)
  {
  }

  lemma RunsBasicBooks(s: Pool, s': Pool, t: Tid, k: BasicStep)
    requires RunsBasic(s, s', t, k)
    ensures Books(s, s', t)
  {
  }

  lemma PreparesBooks(s: Pool, s': Pool, t: Tid, k: PrepareStep)
    requires Prepares(s, s', t, k)
    ensures Books(s, s', t)
  {
  }

  lemma ReservesBooks(s: Pool, s': Pool, t: Tid, k: ReserveStep)
    requires Reserves(s, s', t, k)
    ensures Books(s, s', t)
  {
    hide Reserve, Truncated, Handed, Acquired;
  }

  lemma ConcludesBooks(s: Pool, s': Pool, t: Tid, k: ConcludeStep)
    requires Concludes(s, s', t, k)
    ensures Books(s, s', t)
  {
  }

  lemma PutsBackBooks(c: Config, s: Pool, s': Pool, t: Tid, k: PutStep)
    requires PutsBack(c, s, s', t, k)
    ensures Books(s, s', t)
  {
    hide HeapFull;
  }

  lemma SubmitsBooks(c: Config, s: Pool, s': Pool, t: Tid, k: SubmitStep)
    requires Submits(c, s, s', t, k)
    ensures Books(s, s', t)
  {
    hide Reserve, HeapFull, SpillRefuses, FirstRunAt, UseFastQueue;
  }

  lemma ReplaysBooks(c: Config, s: Pool, s': Pool, t: Tid, k: ReplayStep)
    requires Replays(c, s, s', t, k)
    ensures Books(s, s', t)
  {
    hide HeapFull;
  }

  lemma LivesBooks(c: Config, s: Pool, s': Pool, t: Tid, k: LifeStep)
    requires Staffed(c, s) && Lives(c, s, s', t, k) && Balanced(s)
    ensures Balanced(s')
  {
    hide WaitOver, Balanced;
    if k == Spawn {
      var w := Worker(s.threads[t].y.i);
      assert w !in s.threads;
      var mid := s.(threads := s.threads[t := s'.threads[t]]);
      BooksBalance(s, mid, t);
      BooksBalance(mid, s', w);
    } else {
      BooksBalance(s, s', t);
    }
  }

  lemma CallsBooks(s: Pool, s': Pool, t: Tid, k: CallStep)
    requires Calls(s, s', t, k) && Balanced(s)
    ensures Balanced(s')
  {
    hide Balanced;
    if k == StartPool || k == Terminate { BooksBalance(s, s', t); } else { BooksSame(s, s'); }
  }

  lemma BooksSame(s: Pool, s': Pool)
    requires Balanced(s) && s'.n == s.n && s'.threads == s.threads
    ensures Balanced(s')
  {
  }

  /** Every step except those of the lifecycle and the environment moves one thread between regions. */
  lemma StepBooks(c: Config, s: Pool, s': Pool, t: Tid, step: Step)
    requires Next(c, s, s', t, step) && !step.Calling? && !step.Living? && !step.Environment? && !step.Purge?
    ensures Books(s, s', t)
  {
    hide Takes, RunsBasic, Prepares, Reserves, Concludes, PutsBack, Submits, Replays, Control, Moved;
    match step
    case Moves(pc) => ControlBooks(c, s, s', t, pc);
    case Taking(k) => TakesBooks(s, s', t, k);
    case Basics(k) => RunsBasicBooks(s, s', t, k);
    case Preparing(k) => PreparesBooks(s, s', t, k);
    case Reserving(k) => ReservesBooks(s, s', t, k);
    case Concluding(k) => ConcludesBooks(s, s', t, k);
    case Putting(k) => PutsBackBooks(c, s, s', t, k);
    case Submitting(k) => SubmitsBooks(c, s, s', t, k);
    case Replaying(k) => ReplaysBooks(c, s, s', t, k);
    case _ =>
  }

  lemma StepBalanced(c: Config, s: Pool, s': Pool, t: Tid, step: Step)
    requires Staffed(c, s) && Balanced(s) && Next(c, s, s', t, step)
    ensures Balanced(s')
  {
    hide Staffed, Balanced, Books, Takes, RunsBasic, Prepares, Reserves, Concludes, PutsBack, Submits, Replays, Lives,
      Calls;
    hide Control, Leaves, Begins, Accepts, TakesDead, Moved;
    match step
    case Calling(k) => CallsBooks(s, s', t, k);
    case Living(k) => LivesBooks(c, s, s', t, k);
    case Environment(k) => BooksSame(s, s');
    case Purge => BooksSame(s, s');
    case _ =>
      StepBooks(c, s, s', t, step);
      StepFrame(c, s, s', t, step);
      BooksBalance(s, s', t);
  }

  lemma NobodyThere(threads: map<Tid, Pc>, p: Pc -> bool)
    requires threads == map[]
    ensures Threads(threads, p) == 0
  {
    assert Where(threads, p) == {};
  }

  lemma {:induction false} RunBalanced(c: Config, states: seq<Pool>, events: seq<Event>, i: nat)
    requires IsRun(c, states, events) && i < |states|
    ensures Balanced(states[i])
  {
    hide Next, Staffed, Threads;
    if i == 0 {
      NobodyThere(states[0].threads, InSubmit);
      NobodyThere(states[0].threads, InAttempt);
      NobodyThere(states[0].threads, InFailure);
    } else {
      hide Init, Balanced;
      var s, s', t, step := states[i - 1], states[i], events[i - 1].t, events[i - 1].step;
      assert Next(c, s, s', t, step);
      RunBalanced(c, states, events, i - 1);
      RunStaffed(c, states, events, i - 1);
      StepBalanced(c, s, s', t, step);
    }
  }

  // ---- Main result ----

  /** At every moment of every run: what was submitted was rejected, was accepted (replays
      apart), or is in a submit in progress; what started completed, failed, or is running; and
      what failed or was refused its requeue was retried, is counted as a dead letter, or is on
      its way to one of the two. */
  lemma CountersAddUp(c: Config, states: seq<Pool>, events: seq<Event>, i: nat)
    requires IsRun(c, states, events) && i < |states|
    ensures var (n, threads) := (states[i].n, states[i].threads);
            && n.submitted == n.rejected + (n.accepted - n.replayed) + Threads(threads, InSubmit)
            && n.started - n.completed - n.failed == Threads(threads, InAttempt)
            && n.dlq + Threads(threads, InFailure) == (n.failed - n.retried) + n.refused
  {
    RunBalanced(c, states, events, i);
  }
}

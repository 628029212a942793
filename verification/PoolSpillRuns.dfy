/** Building the runs of PoolSpill, for any number of workers and any queue size.

    In the first, a job whose delay has hardly begun is on its way into the heap when a shutdown
    closes it, and is spilled. In the second, a client fills the fast queue and another one is
    refused and about to spill; a worker then empties the queue, and all workers look into the
    spill, which is still empty, and stop before their exit tests. What remains for PoolSpill is to
    let the job into the spill, shut the pool down gracefully, and let everybody leave. */
module PoolSpillRuns {
  import opened KeyedSemaphore
  import opened PoolProtocol
  import opened PoolOwnership
  import opened PoolDrain
  import opened PoolRuns

  /** Shutdown is called and stores stateStopping; b is the event that does. */
  lemma StopIt(c: Config, base: Trace, r: Trace, s: Pool) returns (r': Trace, s': Pool, b: nat)
    requires Goes(c, base, r, s) && s.life == UP && Client(0) in s.threads && s.threads[Client(0)] == Idle
    ensures Goes(c, r', r', s')
            && s' == s.(life := UP.(phase := Stopping), threads := s.threads[Client(0) := Life(ShutdownScale)])
    ensures |base.events| == 0 && (forall t | t in s.threads :: !Producing(s.threads[t])) ==>
              Graceful(r'.states, r'.events, b)
    ensures b < |r'.events| == |r'.states| - 1 && r'.states[b].threads == s.threads[Client(0) := Life(ShutdownStore)]
  {
    var r1, s1 := Walk(c, base, r, s, Client(0), [Idle, Life(ShutdownLoad), Life(ShutdownStore)]);
    s' := s1.(life := UP.(phase := Stopping), threads := s1.threads[Client(0) := Life(ShutdownScale)]);
    assert Next(c, s1, s', Client(0), Living(StoreStopping));
    hide Next, Init;
    b := |r1.events|;
    r' := Extend(c, r1, s1, s', Client(0), Living(StoreStopping));
  }

  /** A job delayed by an hour is on its way into the heap when the shutdown closes it. */
  lemma DelayedAndSpilled(c: Config, hour: nat) returns (base: Trace, r: Trace, s: Pool)
    requires Normal(c) && c.spill && hour > 0
    ensures Goes(c, base, r, s) && s.life.phase == Stopping && !s.life.ctxDone && s.attempts == [] && s.now == 0
    ensures s.q == EMPTY.(spill := [0]) && W in s.threads && s.threads[W] == Loop(Top)
    ensures s.jobs == map[0 := Fresh(c, PLAIN.(delay := hour), hour, InSpill)]
  {
    hide Goes, ControlPc;
    base, r, s := Boot(c, map[]);
    r, s := SubmitUpToPush(c, base, r, s, Client(1), 0, PLAIN.(delay := hour));
    var b;
    r, s, b := StopIt(c, base, r, s);
    base := r;
    r, s := CloseIt(c, base, r, s);
    r, s := OvertakenSpills(c, base, r, s, Client(1), 0);
    r, s := SpillIt(c, base, r, s, Client(1), 0);
  }

  // ---- A full queue, a spill on its way, and workers that have looked ----

  /** The ids from a up to b. */
  function Ids(a: nat, b: nat): seq<JobId>
    decreases b - a
  {
    if a >= b then [] else [a] + Ids(a + 1, b)
  }

  lemma {:induction false} IdsGrow(a: nat, b: nat)
    requires a <= b
    ensures Ids(a, b + 1) == Ids(a, b) + [b] && |Ids(a, b)| == b - a
    decreases b - a
  {
    if a < b {
      IdsGrow(a + 1, b);
      assert [a] + (Ids(a + 1, b) + [b]) == ([a] + Ids(a + 1, b)) + [b];
    } else {
      assert Ids(b, b + 1) == [b] + Ids(b + 1, b + 1);
    }
  }

  /** Jobs a up to b wait in the fast queue. */
  ghost predicate Waiting(c: Config, jobs: Jobs, a: nat, b: nat) {
    forall j: JobId | a <= j < b :: j in jobs && jobs[j] == Fresh(c, PLAIN, 0, InFast)
  }

  /** Client 1 submits until n jobs wait in the fast queue. */
  lemma {:induction false} Fill(c: Config, base: Trace, r: Trace, s: Pool, n: nat) returns (r': Trace, s': Pool)
    requires Normal(c) && c.spill && n <= c.queueSize && Goes(c, base, r, s) && s.life == UP && s.sh == NO_SHARED
             && s.now == 0
    requires s.q == EMPTY && s.jobs == map[] && Client(1) !in s.threads
    ensures Goes(c, base, r', s')
            && s' == s.(threads := s'.threads, jobs := s'.jobs, n := s'.n, q := EMPTY.(fast := Ids(0, n)))
    ensures Waiting(c, s'.jobs, 0, n) && (forall j | j in s'.jobs :: j < n)
    ensures PcOf(s', Client(1)) == Idle && s'.threads - {Client(1)} == s.threads
  {
    r', s' := r, s;
    if n > 0 {
      hide Goes;
      r', s' := Fill(c, base, r, s, n - 1);
      IdsGrow(0, n - 1);
      r', s' := SubmitIt(c, base, r', s', Client(1), n - 1, PLAIN);
    } else {
      assert s.threads - {Client(1)} == s.threads;
    }
  }

  lemma RunOne(c: Config, base: Trace, r: Trace, s: Pool, j: JobId) returns (r': Trace, s': Pool)
    requires Goes(c, base, r, s) && s.life == UP && s.q.basic == [] && s.q.fast != [] && s.q.fast[0] == j
    requires j in s.jobs && s.jobs[j] == Fresh(c, PLAIN, 0, InFast) && W in s.threads && s.threads[W] == Loop(Top)
    ensures Goes(c, base, r', s') && j in s'.jobs
    ensures s' == s.(threads := s.threads[W := Loop(Top)], jobs := s.jobs[j := s'.jobs[j]], n := s'.n,
                     attempts := s'.attempts,
                     q := s.q.(fast := s.q.fast[1..]))
  {
    hide Goes;
    r', s' := RunIt(c, base, r, s, W, j);
    hide Runnable, Acquired;
    r', s' := FinishIt(c, base, r', s', W, j);
    assert s'.jobs == s.jobs[j := s'.jobs[j]];
  }

  /** Worker 0 runs jobs k up to n, one after the other. */
  lemma {:induction false} RunAll(c: Config, base: Trace, r: Trace, s: Pool, k: nat, n: nat)
    returns (r': Trace, s': Pool)
    requires Goes(c, base, r, s) && s.life == UP && s.q == EMPTY.(fast := Ids(k, n)) && k <= n
             && Waiting(c, s.jobs, k, n)
    requires W in s.threads && s.threads[W] == Loop(Top)
    ensures Goes(c, base, r', s') && s' == s.(jobs := s'.jobs, n := s'.n, attempts := s'.attempts, q := EMPTY)
    ensures s'.jobs.Keys == s.jobs.Keys
    decreases n - k
  {
    r', s' := r, s;
    if k < n {
      hide Goes;
      r', s' := RunOne(c, base, r, s, k);
      assert Ids(k, n)[1..] == Ids(k + 1, n);
      assert s'.threads == s.threads;
      r', s' := RunAll(c, base, r', s', k + 1, n);
    }
  }

  /** Workers below i have come from a to b, the others are at a. */
  ghost predicate AtOrPast(c: Config, threads: map<Tid, Pc>, i: nat, a: LoopPc, b: LoopPc) {
    forall w: nat | w < c.workers :: Worker(w) in threads && threads[Worker(w)] == Loop(if w < i then b else a)
  }

  /** Every worker looks into the fast queues and the spill, and finds nothing. */
  lemma {:induction false} AllLook(c: Config, base: Trace, r: Trace, s: Pool, i: nat) returns (r': Trace, s': Pool)
    requires Goes(c, base, r, s) && s.life == UP && s.q == EMPTY && i <= c.workers
             && AtOrPast(c, s.threads, 0, Top, TryHeap)
    ensures Goes(c, base, r', s') && s' == s.(threads := s'.threads) && AtOrPast(c, s'.threads, i, Top, TryHeap)
    ensures s'.threads.Keys == s.threads.Keys && forall t | t in s.threads && t.Client? :: s'.threads[t] == s.threads[t]
  {
    r', s' := r, s;
    if i > 0 {
      hide Goes;
      r', s' := AllLook(c, base, r, s, i - 1);
      r', s' := LoopTo(c, base, r', s', Worker(i - 1), TryHeap);
    }
  }

  /** Every worker leaves: the exit tests look at the two fast queues and the heap only. */
  lemma {:induction false} AllLeave(c: Config, base: Trace, r: Trace, s: Pool, i: nat) returns (r': Trace, s': Pool)
    requires Goes(c, base, r, s) && s.life.phase == Stopping && i <= c.workers
             && AtOrPast(c, s.threads, 0, TryHeap, Exited)
    requires s.q.basic == [] && s.q.fast == [] && s.q.heap == multiset{}
    ensures Goes(c, base, r', s') && s' == s.(threads := s'.threads) && AtOrPast(c, s'.threads, i, TryHeap, Exited)
    ensures s'.threads.Keys == s.threads.Keys
  {
    r', s' := r, s;
    if i > 0 {
      hide Goes;
      r', s' := AllLeave(c, base, r, s, i - 1);
      r', s' := OneLeaves(c, base, r', s', Worker(i - 1));
    }
  }

  /** Every worker is at l; clients are idle, except that client 2 is at pc. */
  ghost predicate Scene(c: Config, threads: map<Tid, Pc>, l: LoopPc, pc: Pc) {
    && (forall w: nat :: Worker(w) in threads <==> w < c.workers)
    && (forall w: nat | w < c.workers :: threads[Worker(w)] == Loop(l))
    && (forall t | t in threads && t.Client? :: threads[t] == if t == Client(2) then pc else Idle)
    && Client(0) in threads && Client(2) in threads
  }

  /** The fast queue is full, and one more submit has been refused and is about to spill. */
  lemma FullAndRefused(c: Config) returns (base: Trace, r: Trace, s: Pool)
    requires Normal(c) && !NeverSpills(c)
    ensures |base.events| == 0 && Goes(c, base, r, s) && s.life == UP && s.q == EMPTY.(fast := Ids(0, c.queueSize))
    ensures Waiting(c, s.jobs, 0, c.queueSize) && c.queueSize in s.jobs
    ensures Scene(c, s.threads, Top, Submit(c.queueSize, Spilling))
  {
    hide Goes, ControlPc;
    var n := c.queueSize;
    base, r, s := Boot(c, map[]);
    ghost var threads := s.threads;
    r, s := Fill(c, base, r, s, n);
    assert forall t | t != Client(1) ::
        (t in s.threads <==> t in threads) && (t in threads ==> s.threads[t] == threads[t]) by {
      assert forall t | t != Client(1) :: t in s.threads - {Client(1)} <==> t in s.threads;
    }
    assert Scene(c, s.threads[Client(2) := Idle], Top, Idle) by { hide Waiting; }
    IdsGrow(0, n);
    r, s := SubmitUpToPush(c, base, r, s, Client(2), n, PLAIN);
    hide Simple;
    r, s := RefusedAndSpilled(c, base, r, s, Client(2), n);
  }

  /** Worker 0 empties the queue, and every worker finds the spill empty. */
  lemma AllHaveLooked(c: Config) returns (base: Trace, r: Trace, s: Pool)
    requires Normal(c) && !NeverSpills(c)
    ensures |base.events| == 0 && Goes(c, base, r, s) && s.life == UP && s.q == EMPTY && c.queueSize in s.jobs
    ensures Scene(c, s.threads, TryHeap, Submit(c.queueSize, Spilling))
  {
    hide Goes, Waiting;
    base, r, s := FullAndRefused(c);
    r, s := RunAll(c, base, r, s, 0, c.queueSize);
    r, s := AllLook(c, base, r, s, c.workers);
    assert forall w: nat :: Worker(w) in s.threads.Keys <==> w < c.workers;
  }
}

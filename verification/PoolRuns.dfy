/** Building concrete runs of the pool machine, a few steps at a time.

    A lemma here takes a run r to a state s and returns a longer run r' to a state s', which it
    describes completely except for counters. Goes remembers where the run was last stopped,
    terminated or had its dead list taken, so that theorems about runs without such steps apply to
    what comes after. The pieces are named after what a caller or a worker does: enter a submit,
    pass the key test, push, take, acquire, attempt, finish, leave. */
module PoolRuns {
  import opened Options
  import opened Futures
  import opened KeyedSemaphore
  import opened TokenBucket
  import opened PoolProtocol

  datatype Trace = Trace(states: seq<Pool>, events: seq<Event>)

  /** The steps that a run being built takes one at a time: the pool is stopped or terminated, or
      its dead list is taken. */
  predicate Ends(step: Step) {
    step == Living(StoreStopping) || step == Calling(Terminate) || step == TakeDead
  }

  /** r is a run that ends in s. */
  ghost predicate Reaches(c: Config, r: Trace, s: Pool) {
    IsRun(c, r.states, r.events) && r.states[|r.events|] == s
  }

  /** r is a run to s: base, and then steps that end nothing. */
  ghost predicate Goes(c: Config, base: Trace, r: Trace, s: Pool) {
    && Reaches(c, r, s) && base.states <= r.states && base.events <= r.events
    && forall i | |base.events| <= i < |r.events| :: !Ends(r.events[i].step)
  }

  /** One more step of any kind, after which base may begin anew. */
  lemma Extend(c: Config, r: Trace, s: Pool, s': Pool, t: Tid, step: Step) returns (r': Trace)
    requires Reaches(c, r, s) && Next(c, s, s', t, step)
    ensures Reaches(c, r', s') && Goes(c, r', r', s') && r' == Trace(r.states + [s'], r.events + [Event(t, step)])
  {
    hide Next;
    r' := Trace(r.states + [s'], r.events + [Event(t, step)]);
  }

  lemma Go(c: Config, base: Trace, r: Trace, s: Pool, s': Pool, t: Tid, step: Step) returns (r': Trace)
    requires Goes(c, base, r, s) && Next(c, s, s', t, step) && !Ends(step)
    ensures Goes(c, base, r', s')
  {
    hide Next, Reaches;
    r' := Extend(c, r, s, s', t, step);
  }

  lemma Unfold(c: Config, base: Trace, r: Trace, s: Pool)
    requires Goes(c, base, r, s)
    ensures IsRun(c, r.states, r.events) && |r.states| == |r.events| + 1 && r.states[|r.events|] == s
  {
  }

  lemma {:induction false} FreshClient(used: set<Tid>) returns (n: nat)
    ensures forall m: nat | m >= n :: Client(m) !in used
  {
    n := 0;
    if used != {} {
      var t :| t in used;
      n := FreshClient(used - {t});
      if t.Client? && t.c >= n { n := t.c + 1; }
    }
  }

  lemma {:induction false} FreshJob(used: set<JobId>) returns (n: JobId)
    ensures forall m: JobId | m >= n :: m !in used
  {
    n := 0;
    if used != {} {
      var j :| j in used;
      n := FreshJob(used - {j});
      assert forall m: JobId | m in used :: m == j || m in used - {j};
      if j >= n { n := j + 1; }
    }
  }

  /** Thread t walks along pcs by control steps alone. */
  lemma {:induction false} Walk(c: Config, base: Trace, r: Trace, s: Pool, t: Tid, pcs: seq<Pc>)
    returns (r': Trace, s': Pool)
    requires Goes(c, base, r, s) && |pcs| > 1 && PcOf(s, t) == pcs[0] && (t.Worker? ==> t in s.threads)
    requires forall i | 0 < i < |pcs| :: ControlPc(c, s, pcs[i - 1], pcs[i])
    ensures Goes(c, base, r', s') && s' == s.(threads := s.threads[t := pcs[|pcs| - 1]])
    decreases |pcs|
  {
    var mid := s.(threads := s.threads[t := pcs[1]]);
    assert ControlPc(c, s, pcs[0], pcs[1]);
    assert Next(c, s, mid, t, Moves(pcs[1]));
    hide Next, Goes;
    r' := Go(c, base, r, s, mid, t, Moves(pcs[1]));
    s' := mid;
    if |pcs| > 2 {
      forall i | 0 < i < |pcs[1..]| ensures ControlPc(c, mid, pcs[1..][i - 1], pcs[1..][i]) {
        SamePath(c, s, mid, pcs[i], pcs[i + 1]);
      }
      hide ControlPc;
      r', s' := Walk(c, base, r', mid, t, pcs[1..]);
    }
  }

  lemma SamePath(c: Config, s: Pool, mid: Pool, pc: Pc, pc': Pc)
    requires mid == s.(threads := mid.threads) && ControlPc(c, s, pc, pc')
    ensures ControlPc(c, mid, pc, pc')
  {
  }

  // ---- Start ----

  const EMPTY: Queues := Queues([], [], multiset{}, [], [])
  function SharedWith(limiters: map<Key, Limiter>): Shared {
    Shared(map[], map[], limiters, {})
  }

  const NO_SHARED: Shared := SharedWith(map[])

  const UP: Lifecycle := Lifecycle(Running, false, false, true, false, false, false)

  /** Workers below n are at the top of their loop, and client 0, which started them, is at pc. */
  ghost predicate Crew(threads: map<Tid, Pc>, n: nat, pc: Pc) {
    && (forall w: nat :: Worker(w) in threads <==> w < n)
    && (forall w: nat | w < n :: threads[Worker(w)] == Loop(Top))
    && (forall k: nat :: Client(k) in threads <==> k == 0) && threads[Client(0)] == pc
  }

  lemma SpawnOne(c: Config, base: Trace, r: Trace, s: Pool, i: nat) returns (r': Trace, s': Pool)
    requires Goes(c, base, r, s) && i < c.workers && Crew(s.threads, i, Life(Spawning(i)))
    ensures Goes(c, base, r', s') && s' == s.(threads := s'.threads) && Crew(s'.threads, i + 1, Life(Spawning(i + 1)))
  {
    s' := s.(threads := s.threads[Client(0) := Life(Spawning(i + 1))][Worker(i) := Loop(Top)]);
    assert Lives(c, s, s', Client(0), Spawn);
    hide Lives, Goes;
    r' := Go(c, base, r, s, s', Client(0), Living(Spawn));
  }

  /** Start spawns the rest of the workers and returns. */
  lemma {:induction false} SpawnAll(c: Config, base: Trace, r: Trace, s: Pool, i: nat) returns (r': Trace, s': Pool)
    requires Goes(c, base, r, s) && i <= c.workers && Crew(s.threads, i, Life(Spawning(i)))
    ensures Goes(c, base, r', s') && s' == s.(threads := s'.threads, life := s.life.(startDone := true))
    ensures Crew(s'.threads, c.workers, Idle)
    decreases c.workers - i
  {
    if i < c.workers {
      hide Goes, Crew;
      r', s' := SpawnOne(c, base, r, s, i);
      r', s' := SpawnAll(c, base, r', s', i + 1);
    } else {
      s' := s.(threads := s.threads[Client(0) := Idle], life := s.life.(startDone := true));
      assert Lives(c, s, s', Client(0), EndStart);
      hide Lives, Goes;
      r' := Go(c, base, r, s, s', Client(0), Living(EndStart));
    }
  }

  const NOTHING_DONE: Counters := Counters(0, 0, 0, 0, 0, 0, 0, 0, 0, 0, 0)

  /** Limiters that were installed at time 0. */
  ghost predicate Installed(limiters: map<Key, Limiter>) {
    forall k | k in limiters ::
      exists rate, burst :: limiters[k] == Limiter(limiters[k].mode, NewBucket(rate, burst, 0), [])
  }

  /** The first step of every run here: Start has won its swap. */
  lemma CallStart(c: Config, limiters: map<Key, Limiter>) returns (base: Trace, r: Trace, s: Pool)
    requires Normal(c) && Installed(limiters)
    ensures |base.events| == 0 && Goes(c, base, r, s)
    ensures s == Pool(0, UP.(startDone := false), EMPTY, map[], map[Client(0) := Life(Spawning(0))],
                      SharedWith(limiters), NOTHING_DONE, [])
  {
    var s0 := Pool(0, UP.(phase := New, startDone := false), EMPTY, map[], map[], SharedWith(limiters), NOTHING_DONE,
                   []);
    base := Trace([s0], []);
    s := s0.(life := s0.life.(phase := Running), threads := map[Client(0) := Life(Spawning(0))]);
    assert Calls(s0, s, Client(0), StartPool);
    assert Goes(c, base, base, s0);
    hide Calls, Goes, Init;
    r := Go(c, base, base, s0, s, Client(0), Calling(StartPool));
  }

  /** A pool that has been started. */
  lemma Boot(c: Config, limiters: map<Key, Limiter>) returns (base: Trace, r: Trace, s: Pool)
    requires Normal(c) && Installed(limiters)
    ensures |base.events| == 0 && Goes(c, base, r, s) && Crew(s.threads, c.workers, Idle)
    ensures s.life == UP && s.q == EMPTY && s.sh == SharedWith(limiters) && s.now == 0 && s.jobs == map[]
            && s.attempts == []
  {
    hide Goes;
    var s1;
    base, r, s1 := CallStart(c, limiters);
    r, s := SpawnAll(c, base, r, s1, 0);
  }

  // ---- Submits ----

  const PLAIN: Opts :=
    Opts(false, NO_KEY, 0, 0, None, 0, 1, false, false, NO_KEY, NO_KEY, 0, NO_KEY, false)

  /** Options that take no detour: ordinary, but not so ordinary as to go the basic way. */
  predicate Simple(c: Config, o: Opts) {
    && !o.nilJob && o.queue == NO_KEY && o.priority == 0 && o.delay >= 0 && o.runAt.None? && o.maxAttempts >= 1
    && !UseBasicFastPath(c, o)
  }

  /** The record of a job that has just been created and has its key, if it names one. */
  function Fresh(c: Config, o: Opts, runAt: int, p: Place): Job {
    Job(o, runAt, 0, None, false, NewFuture(), c.tracking, Track(p, o.idempotency != NO_KEY, None))
  }

  function PushOf(o: Opts): SubmitPc {
    if o.delay == 0 then FastPush else HeapPush
  }

  function Taken(sh: Shared, key: Key, j: JobId): (r: Shared)
    ensures r.limiters == sh.limiters && r.active == sh.active && r.pausedQueues == sh.pausedQueues
  {
    if key == NO_KEY then sh else sh.(idemp := sh.idemp[key := j])
  }

  /** A submit up to the idempotency test. */
  lemma Enter(c: Config, base: Trace, r: Trace, s: Pool, t: Tid, j: JobId, o: Opts) returns (r': Trace, s': Pool)
    requires Goes(c, base, r, s) && !Closing(s.life.phase) && Simple(c, o)
    requires t.Client? && PcOf(s, t) == Idle && j !in s.jobs
    ensures Goes(c, base, r', s')
    ensures s' == s.(threads := s.threads[t := Submit(j, Keying)], jobs := s.jobs[j := NewJob(o, t)], n := s'.n)
  {
    var s1 := Put(s, t, Submit(j, Entered), j, NewJob(o, t)).(n := s.n.(submitted := s.n.submitted + 1));
    assert Begins(c, s, s1, t, j, o);
    hide Begins, Goes;
    r' := Go(c, base, r, s, s1, t, Beginning(j, o));
    r', s' := Walk(c, base, r', s1, t, [Submit(j, Entered), Submit(j, Routing), Submit(j, Keying)]);
  }

  /** Past the idempotency test. */
  lemma PastKey(c: Config, base: Trace, r: Trace, s: Pool, t: Tid, j: JobId, o: Opts) returns (r': Trace, s': Pool)
    requires Goes(c, base, r, s) && t.Client? && t in s.threads && s.threads[t] == Submit(j, Keying)
    requires j in s.jobs && s.jobs[j] == NewJob(o, t) && o.idempotency !in s.sh.idemp
    ensures Goes(c, base, r', s')
    ensures s' == s.(threads := s.threads[t := Submit(j, Admitting)], sh := Taken(s.sh, o.idempotency, j),
                     jobs := s.jobs[j := Keyed(NewJob(o, t), o.idempotency != NO_KEY)])
  {
    if o.idempotency == NO_KEY {
      hide Goes;
      r', s' := Walk(c, base, r, s, t, [Submit(j, Keying), Submit(j, Admitting)]);
    } else {
      s' := s.(threads := s.threads[t := Submit(j, Admitting)], jobs := s.jobs[j := Keyed(s.jobs[j], true)],
               sh := Taken(s.sh, o.idempotency, j));
      assert Submits(c, s, s', t, TakeKey);
      hide Goes, Submits;
      r' := Go(c, base, r, s, s', t, Submitting(TakeKey));
    }
  }

  /** With no rate key the job is admitted and created. */
  lemma CreateIt(c: Config, base: Trace, r: Trace, s: Pool, t: Tid, j: JobId, o: Opts) returns (r': Trace, s': Pool)
    requires Goes(c, base, r, s) && t.Client? && t in s.threads && s.threads[t] == Submit(j, Creating)
    requires j in s.jobs && s.jobs[j] == Keyed(NewJob(o, t), o.idempotency != NO_KEY) && Simple(c, o)
    ensures Goes(c, base, r', s')
    ensures s' == s.(threads := s.threads[t := Submit(j, PushOf(o))],
                     jobs := s.jobs[j := Fresh(c, o, s.now + o.delay, Held(t))])
  {
    s' := Put(s, t, Submit(j, PushOf(o)), j, Fresh(c, o, s.now + o.delay, Held(t)));
    r' := Go(c, base, r, s, s', t, Submitting(Create));
  }

  lemma AdmitIt(c: Config, base: Trace, r: Trace, s: Pool, t: Tid, j: JobId) returns (r': Trace, s': Pool)
    requires Goes(c, base, r, s) && t in s.threads && s.threads[t] == Submit(j, Admitting)
    requires j in s.jobs && s.jobs[j].opts.rateKey == NO_KEY
    ensures Goes(c, base, r', s') && s' == s.(threads := s.threads[t := Submit(j, Creating)])
  {
    hide Goes;
    r', s' := Walk(c, base, r, s, t, [Submit(j, Admitting), Submit(j, Creating)]);
  }

  /** A submit up to its admission by the rate limiter. */
  lemma SubmitUpToAdmission(c: Config, base: Trace, r: Trace, s: Pool, t: Tid, j: JobId, o: Opts)
    returns (r': Trace, s': Pool)
    requires Goes(c, base, r, s) && !Closing(s.life.phase) && Simple(c, o)
    requires t.Client? && PcOf(s, t) == Idle && j !in s.jobs && o.idempotency !in s.sh.idemp
    ensures Goes(c, base, r', s')
    ensures s' == s.(threads := s.threads[t := Submit(j, Admitting)], sh := Taken(s.sh, o.idempotency, j), n := s'.n,
                     jobs := s.jobs[j := Keyed(NewJob(o, t), o.idempotency != NO_KEY)])
  {
    hide Goes, Taken, Simple, Keyed, NewJob;
    r', s' := Enter(c, base, r, s, t, j, o);
    r', s' := PastKey(c, base, r', s', t, j, o);
  }

  /** A submit up to its push. */
  lemma SubmitUpToPush(c: Config, base: Trace, r: Trace, s: Pool, t: Tid, j: JobId, o: Opts)
    returns (r': Trace, s': Pool)
    requires Goes(c, base, r, s) && !Closing(s.life.phase) && Simple(c, o) && o.rateKey == NO_KEY
    requires t.Client? && PcOf(s, t) == Idle && j !in s.jobs && o.idempotency !in s.sh.idemp
    ensures Goes(c, base, r', s')
    ensures s' == s.(threads := s.threads[t := Submit(j, PushOf(o))], sh := Taken(s.sh, o.idempotency, j), n := s'.n,
                     jobs := s.jobs[j := Fresh(c, o, s.now + o.delay, Held(t))])
  {
    hide Goes, Fresh, PushOf, Taken, Simple;
    r', s' := SubmitUpToAdmission(c, base, r, s, t, j, o);
    r', s' := AdmitIt(c, base, r', s', t, j);
    hide Keyed, NewJob;
    r', s' := CreateIt(c, base, r', s', t, j, o);
  }

  lemma AcceptIt(c: Config, base: Trace, r: Trace, s: Pool, t: Tid, j: JobId) returns (r': Trace, s': Pool)
    requires Goes(c, base, r, s) && t in s.threads && s.threads[t] == Accepting(j)
    ensures Goes(c, base, r', s') && s' == s.(threads := s.threads[t := Idle], n := s'.n)
  {
    s' := s.(threads := s.threads[t := Idle], n := s.n.(accepted := s.n.accepted + 1));
    assert Accepts(s, s', t);
    hide Goes, Accepts;
    r' := Go(c, base, r, s, s', t, Accept);
  }

  lemma PushIt(c: Config, base: Trace, r: Trace, s: Pool, t: Tid, j: JobId) returns (r': Trace, s': Pool)
    requires Goes(c, base, r, s) && !s.life.fastClosed && |s.q.fast| < c.queueSize && j in s.jobs
    requires t.Client? && t in s.threads && s.threads[t] == Submit(j, FastPush)
    ensures Goes(c, base, r', s')
    ensures s' == s.(threads := s.threads[t := Idle], jobs := s.jobs[j := At(s.jobs[j], InFast)], n := s'.n,
                     q := s.q.(fast := s.q.fast + [j]))
  {
    s' := s.(threads := s.threads[t := Accepting(j)], jobs := s.jobs[j := At(s.jobs[j], InFast)],
             q := s.q.(fast := s.q.fast + [j]));
    assert Submits(c, s, s', t, PushFast);
    hide Goes, Submits;
    r' := Go(c, base, r, s, s', t, Submitting(PushFast));
    r', s' := AcceptIt(c, base, r', s', t, j);
  }

  lemma SpillIt(c: Config, base: Trace, r: Trace, s: Pool, t: Tid, j: JobId) returns (r': Trace, s': Pool)
    requires Goes(c, base, r, s) && c.spill && s.q.spill == [] && j in s.jobs
    requires t in s.threads && s.threads[t] == Submit(j, Spilling)
    ensures Goes(c, base, r', s')
    ensures s' == s.(threads := s.threads[t := Idle], jobs := s.jobs[j := At(s.jobs[j], InSpill)], n := s'.n,
                     q := s.q.(spill := [j]))
  {
    s' := s.(threads := s.threads[t := Accepting(j)], jobs := s.jobs[j := At(s.jobs[j], InSpill)],
             q := s.q.(spill := s.q.spill + [j]));
    assert Submits(c, s, s', t, Spill);
    hide Goes, Submits;
    r' := Go(c, base, r, s, s', t, Submitting(Spill));
    r', s' := AcceptIt(c, base, r', s', t, j);
  }

  lemma PushHeapIt(c: Config, base: Trace, r: Trace, s: Pool, t: Tid, j: JobId) returns (r': Trace, s': Pool)
    requires Goes(c, base, r, s) && t in s.threads && s.threads[t] == Submit(j, HeapPush) && j in s.jobs
    requires !s.life.heapClosed && |s.q.heap| < c.queueSize
    ensures Goes(c, base, r', s')
    ensures s' == s.(threads := s.threads[t := Idle], jobs := s.jobs[j := At(s.jobs[j], InHeap)], n := s'.n,
                     q := s.q.(heap := s.q.heap + multiset{QueueItem(j, s.jobs[j])}))
  {
    s' := s.(threads := s.threads[t := Accepting(j)], jobs := s.jobs[j := At(s.jobs[j], InHeap)],
             q := s.q.(heap := s.q.heap + multiset{QueueItem(j, s.jobs[j])}));
    assert Submits(c, s, s', t, PushHeap);
    hide Goes, Submits;
    r' := Go(c, base, r, s, s', t, Submitting(PushHeap));
    r', s' := AcceptIt(c, base, r', s', t, j);
  }

  lemma EvictIt(c: Config, base: Trace, r: Trace, s: Pool, t: Tid, j: JobId, e: Item) returns (r': Trace, s': Pool)
    requires Goes(c, base, r, s) && t in s.threads && s.threads[t] == Submit(j, HeapPush) && j in s.jobs
    requires c.backpressure == DropOldest && !s.life.heapClosed && HeapFull(c, s)
    requires PQ.IsLeast(e, s.q.heap) && e.value in s.jobs && e.value != j
    ensures Goes(c, base, r', s') && s'.sh == s.sh
    ensures e.value in s'.jobs && s'.jobs[e.value] == At(s.jobs[e.value], Gone(Evicted))
  {
    s' := Put(s, t, Accepting(j), e.value, At(s.jobs[e.value], Gone(Evicted)))
          .(jobs := s.jobs[e.value := At(s.jobs[e.value], Gone(Evicted))][j := At(s.jobs[j], InHeap)],
            q := s.q.(heap := s.q.heap - multiset{e} + multiset{QueueItem(j, s.jobs[j])}));
    assert Submits(c, s, s', t, PushEvicting(e));
    hide Goes, Submits;
    r' := Go(c, base, r, s, s', t, Submitting(PushEvicting(e)));
  }

  /** A delayed job whose push is overtaken by a shutdown is spilled. */
  lemma OvertakenSpills(c: Config, base: Trace, r: Trace, s: Pool, t: Tid, j: JobId) returns (r': Trace, s': Pool)
    requires Goes(c, base, r, s) && s.life.heapClosed && Closing(s.life.phase) && j in s.jobs
    requires t.Client? && t in s.threads && s.threads[t] == Submit(j, HeapPush)
    ensures Goes(c, base, r', s') && s' == s.(threads := s.threads[t := Submit(j, Spilling)])
  {
    hide Goes, HeapFull;
    if c.backpressure == DropOldest || NonBlocking(c) {
      r', s' := Walk(c, base, r, s, t, [Submit(j, HeapPush), Submit(j, Spilling)]);
    } else {
      r', s' := Walk(c, base, r, s, t, [Submit(j, HeapPush), Submit(j, HeapCheck), Submit(j, Spilling)]);
    }
  }

  lemma RefusedAndSpilled(c: Config, base: Trace, r: Trace, s: Pool, t: Tid, j: JobId) returns (r': Trace, s': Pool)
    requires Goes(c, base, r, s) && FifoRefuses(c, s.q.fast, s.life.fastClosed) && j in s.jobs
    requires t.Client? && t in s.threads && s.threads[t] == Submit(j, FastPush)
    ensures Goes(c, base, r', s') && s' == s.(threads := s.threads[t := Submit(j, Spilling)])
  {
    hide Goes;
    r', s' := Walk(c, base, r, s, t, [Submit(j, FastPush), Submit(j, Spilling)]);
  }

  lemma RejectIt(c: Config, base: Trace, r: Trace, s: Pool, t: Tid, j: JobId) returns (r': Trace, s': Pool)
    requires Goes(c, base, r, s) && t in s.threads && s.threads[t] == Submit(j, Rejecting(false)) && j in s.jobs
    ensures Goes(c, base, r', s') && s'.sh == s.sh
    ensures s'.jobs == s.jobs[j := At(s.jobs[j], Gone(Rejected))]
  {
    s' := s.(threads := s.threads[t := Idle], jobs := s.jobs[j := At(s.jobs[j], Gone(Rejected))],
             n := s.n.(rejected := s.n.rejected + 1));
    assert Submits(c, s, s', t, RejectSubmit);
    hide Goes, Submits;
    r' := Go(c, base, r, s, s', t, Submitting(RejectSubmit));
  }

  // ---- Workers ----

  const W: Tid := Worker(0)

  predicate AtLoop(s: Pool, w: Tid, l: LoopPc) {
    w.Worker? && w in s.threads && s.threads[w] == Loop(l)
  }

  /** From the top of the loop to one of its first pops. */
  lemma LoopTo(c: Config, base: Trace, r: Trace, s: Pool, w: Tid, l: LoopPc) returns (r': Trace, s': Pool)
    requires Goes(c, base, r, s) && !s.life.phase.Terminated? && !s.life.phase.Paused? && s.q.basic == []
             && AtLoop(s, w, Top)
    requires l == PopFast || (l == PopSpill && s.q.fast == []) || (l == TryHeap && s.q.fast == [] && s.q.spill == [])
    ensures Goes(c, base, r', s') && s' == s.(threads := s.threads[w := Loop(l)])
  {
    hide Goes;
    var start := [Loop(Top), Loop(PauseCheck), Loop(PopBasic), Loop(PopFast)];
    if l == PopFast { r', s' := Walk(c, base, r, s, w, start); }
    else if l == PopSpill { r', s' := Walk(c, base, r, s, w, start + [Loop(PopSpill)]); }
    else { r', s' := Walk(c, base, r, s, w, start + [Loop(PopSpill), Loop(TryHeap)]); }
  }

  lemma TakeIt(c: Config, base: Trace, r: Trace, s: Pool, w: Tid, j: JobId, spilled: bool) returns (r': Trace, s': Pool)
    requires Goes(c, base, r, s) && j in s.jobs && AtLoop(s, w, if spilled then PopSpill else PopFast)
    requires if spilled then s.q.spill != [] && s.q.spill[0] == j else s.q.fast != [] && s.q.fast[0] == j
    ensures Goes(c, base, r', s')
    ensures s' == s.(threads := s.threads[w := Exec(j, Dequeued(spilled))], jobs := s.jobs[j := At(s.jobs[j], Held(w))],
                     q := if spilled then s.q.(spill := s.q.spill[1..]) else s.q.(fast := s.q.fast[1..]))
  {
    s' := s.(threads := s.threads[w := Exec(j, Dequeued(spilled))], jobs := s.jobs[j := At(s.jobs[j], Held(w))],
             q := if spilled then s.q.(spill := s.q.spill[1..]) else s.q.(fast := s.q.fast[1..]));
    r' := Go(c, base, r, s, s', w, Taking(if spilled then TakeSpill else TakeFast));
  }

  /** Nothing keeps the job from running now. */
  predicate Runnable(s: Pool, job: Job) {
    && !s.life.ctxDone && !job.cancelled && job.opts.queue == NO_KEY && job.opts.rateKey == NO_KEY
    && Admits(s.sh.active, job.opts.concurrency, job.opts.maxConcurrent)
  }

  function Begun(s: Pool, w: Tid, j: JobId, spilled: bool): Pool
    requires j in s.jobs
  {
    var job := s.jobs[j];
    s.(threads := s.threads[w := Exec(j, Run)], jobs := s.jobs[j := job.(attempt := job.attempt + 1)],
       n := s.n.(started := s.n.started + 1),
       sh := s.sh.(active := Acquired(s.sh.active, job.opts.concurrency, job.opts.maxConcurrent)),
       attempts := s.attempts + [Attempt(j, s.now, job.runAt, spilled, NO_KEY, None)])
  }

  lemma AcquireIt(c: Config, base: Trace, r: Trace, s: Pool, w: Tid, j: JobId, spilled: bool)
    returns (r': Trace, s': Pool)
    requires Goes(c, base, r, s) && j in s.jobs && Runnable(s, s.jobs[j])
    requires w in s.threads && s.threads[w] == Exec(j, Acquire(spilled, None))
    ensures Goes(c, base, r', s')
    ensures s' == s.(threads := s.threads[w := Exec(j, Start(spilled, None))],
                     sh := s.sh.(active := Acquired(s.sh.active, s.jobs[j].opts.concurrency,
                                                    s.jobs[j].opts.maxConcurrent)))
  {
    s' := s.(threads := s.threads[w := Exec(j, Start(spilled, None))],
             sh := s.sh.(active := Acquired(s.sh.active, s.jobs[j].opts.concurrency, s.jobs[j].opts.maxConcurrent)));
    assert Prepares(s, s', w, AcquireKey);
    hide Goes, Prepares;
    r' := Go(c, base, r, s, s', w, Preparing(AcquireKey));
  }

  lemma AttemptIt(c: Config, base: Trace, r: Trace, s: Pool, w: Tid, j: JobId, spilled: bool)
    returns (r': Trace, s': Pool)
    requires Goes(c, base, r, s) && j in s.jobs && w in s.threads && s.threads[w] == Exec(j, Start(spilled, None))
    requires s.jobs[j].opts.rateKey == NO_KEY
    ensures Goes(c, base, r', s')
    ensures var job := s.jobs[j];
            s' == s.(threads := s.threads[w := Exec(j, Run)], jobs := s.jobs[j := job.(attempt := job.attempt + 1)],
                     n := s.n.(started := s.n.started + 1),
                     attempts := s.attempts + [Attempt(j, s.now, job.runAt, spilled, NO_KEY, None)])
  {
    var job := s.jobs[j];
    s' := s.(threads := s.threads[w := Exec(j, Run)], jobs := s.jobs[j := job.(attempt := job.attempt + 1)],
             n := s.n.(started := s.n.started + 1),
             attempts := s.attempts + [Attempt(j, s.now, job.runAt, spilled, NO_KEY, None)]);
    assert Reserves(s, s', w, StartAttempt);
    hide Goes, Reserves;
    r' := Go(c, base, r, s, s', w, Reserving(StartAttempt));
  }

  /** A worker takes a job that nothing holds back as far as its running attempt. */
  lemma StartIt(c: Config, base: Trace, r: Trace, s: Pool, w: Tid, j: JobId, spilled: bool)
    returns (r': Trace, s': Pool)
    requires Goes(c, base, r, s) && j in s.jobs && Runnable(s, s.jobs[j])
    requires w.Worker? && w in s.threads && s.threads[w] == Exec(j, Dequeued(spilled))
    ensures Goes(c, base, r', s') && s' == Begun(s, w, j, spilled)
  {
    hide Goes;
    r', s' := Walk(c, base, r, s, w, [Exec(j, Dequeued(spilled)), Exec(j, PauseTest(spilled)), Exec(j, Rate(spilled)),
                                      Exec(j, Acquire(spilled, None))]);
    hide ControlPc, Acquired, Admits;
    r', s' := AcquireIt(c, base, r', s', w, j, spilled);
    r', s' := AttemptIt(c, base, r', s', w, j, spilled);
  }

  lemma SucceedIt(c: Config, base: Trace, r: Trace, s: Pool, w: Tid, j: JobId) returns (r': Trace, s': Pool)
    requires Goes(c, base, r, s) && j in s.jobs && w in s.threads && s.threads[w] == Exec(j, Run)
    ensures Goes(c, base, r', s') && s' == s.(threads := s.threads[w := Exec(j, RunSucceeded)], n := s'.n)
  {
    s' := s.(threads := s.threads[w := Exec(j, RunSucceeded)], n := s.n.(completed := s.n.completed + 1));
    assert Concludes(s, s', w, Succeed);
    hide Goes, Concludes;
    r' := Go(c, base, r, s, s', w, Concluding(Succeed));
  }

  lemma SettleIt(c: Config, base: Trace, r: Trace, s: Pool, w: Tid, j: JobId) returns (r': Trace, s': Pool)
    requires Goes(c, base, r, s) && j in s.jobs && w in s.threads && s.threads[w] == Exec(j, RunSucceeded)
    ensures Goes(c, base, r', s') && j in s'.jobs && s'.jobs[j].opts == s.jobs[j].opts
            && s'.jobs[j].track.place == Gone(Succeeded)
    ensures s' == s.(threads := s.threads[w := Unkeying(j)], jobs := s.jobs[j := s'.jobs[j]])
  {
    var future := Completed(s.jobs[j].future, None, None);
    s' := Put(s, w, Unkeying(j), j, At(s.jobs[j].(indexed := false, future := future), Gone(Succeeded)));
    assert Concludes(s, s', w, FinishSuccess);
    hide Goes, Concludes;
    r' := Go(c, base, r, s, s', w, Concluding(FinishSuccess));
  }

  /** The attempt succeeds and the worker goes back to the top of its loop. */
  lemma FinishIt(c: Config, base: Trace, r: Trace, s: Pool, w: Tid, j: JobId) returns (r': Trace, s': Pool)
    requires Goes(c, base, r, s) && j in s.jobs && w in s.threads && s.threads[w] == Exec(j, Run)
    ensures Goes(c, base, r', s') && j in s'.jobs && s'.jobs[j].opts == s.jobs[j].opts
            && s'.jobs[j].track.place == Gone(Succeeded)
    ensures s' == s.(threads := s.threads[w := Loop(Top)], jobs := s.jobs[j := s'.jobs[j]], n := s'.n,
                     sh := s.sh.(idemp := WithoutKey(s.sh.idemp, s.jobs[j].opts.idempotency),
                                 active := Released(s.sh.active, s.jobs[j].opts.concurrency)))
  {
    hide Goes, Released, WithoutKey;
    r', s' := SucceedIt(c, base, r, s, w, j);
    r', s' := SettleIt(c, base, r', s', w, j);
    r', s' := LeaveIt(c, base, r', s', w, j);
  }

  lemma LeaveIt(c: Config, base: Trace, r: Trace, s: Pool, w: Tid, j: JobId) returns (r': Trace, s': Pool)
    requires Goes(c, base, r, s) && j in s.jobs && w in s.threads && s.threads[w] == Unkeying(j)
    ensures Goes(c, base, r', s')
    ensures s' == s.(threads := s.threads[w := Loop(Top)], jobs := s.jobs[j := Keyed(s.jobs[j], false)],
                     sh := s.sh.(idemp := WithoutKey(s.sh.idemp, s.jobs[j].opts.idempotency),
                                 active := Released(s.sh.active, s.jobs[j].opts.concurrency)))
  {
    var s1 := s.(threads := s.threads[w := Releasing(j)], jobs := s.jobs[j := Keyed(s.jobs[j], false)],
                 sh := s.sh.(idemp := WithoutKey(s.sh.idemp, s.jobs[j].opts.idempotency)));
    s' := s1.(threads := s1.threads[w := Loop(Top)],
              sh := s1.sh.(active := Released(s1.sh.active, s.jobs[j].opts.concurrency)));
    assert Leaves(s, s1, w) && Leaves(s1, s', w);
    hide Goes, Leaves;
    r' := Go(c, base, r, s, s1, w, Step.Leaving);
    r' := Go(c, base, r', s1, s', w, Step.Leaving);
  }

  const FAILURE: Error := JobError(1)

  lemma TakeHeapIt(c: Config, base: Trace, r: Trace, s: Pool, w: Tid, it: Item) returns (r': Trace, s': Pool)
    requires Goes(c, base, r, s) && AtLoop(s, w, TryHeap) && s.q.heap == multiset{it} && it.runAt <= s.now
             && it.value in s.jobs
    ensures Goes(c, base, r', s')
    ensures s' == s.(threads := s.threads[w := Exec(it.value, Dequeued(false))], q := s.q.(heap := multiset{}),
                     jobs := s.jobs[it.value := At(s.jobs[it.value], Held(w))])
  {
    var j := it.value;
    s' := s.(threads := s.threads[w := Exec(j, Dequeued(false))], q := s.q.(heap := s.q.heap - multiset{it}),
             jobs := s.jobs[j := At(s.jobs[j], Held(w))]);
    assert PQ.IsLeast(it, s.q.heap);
    assert Takes(s, s', w, TakeHeap(it));
    hide Goes, Takes;
    r' := Go(c, base, r, s, s', w, Taking(TakeHeap(it)));
  }

  /** The attempt fails for good. */
  lemma FailIt(c: Config, base: Trace, r: Trace, s: Pool, w: Tid, j: JobId) returns (r': Trace, s': Pool)
    requires Goes(c, base, r, s) && j in s.jobs && w.Worker? && w in s.threads && s.threads[w] == Exec(j, Run)
    ensures Goes(c, base, r', s') && s' == s.(threads := s.threads[w := Exec(j, Burying(FAILURE, true))], n := s'.n)
  {
    s' := s.(threads := s.threads[w := Exec(j, RunFailed(FAILURE, true))], n := s.n.(failed := s.n.failed + 1));
    assert Concludes(s, s', w, Fail(FAILURE, true));
    hide Goes, Concludes;
    r' := Go(c, base, r, s, s', w, Concluding(Fail(FAILURE, true)));
    r', s' := Walk(c, base, r', s', w, [Exec(j, RunFailed(FAILURE, true)), Exec(j, Burying(FAILURE, true))]);
  }

  /** The job is dead-lettered, and whoever has its key, it is deleted. */
  lemma BuryIt(c: Config, base: Trace, r: Trace, s: Pool, w: Tid, j: JobId) returns (r': Trace, s': Pool)
    requires Goes(c, base, r, s) && j in s.jobs && w in s.threads && s.threads[w] == Exec(j, Burying(FAILURE, true))
    ensures Goes(c, base, r', s') && j in s'.jobs && s'.jobs[j].opts == s.jobs[j].opts
    ensures s' == s.(threads := s.threads[w := Releasing(j)], jobs := s.jobs[j := s'.jobs[j]], n := s'.n,
                     q := s.q.(dead := s.q.dead + [j]),
                     sh := s.sh.(idemp := WithoutKey(s.sh.idemp, s.jobs[j].opts.idempotency)))
  {
    var future := Completed(s.jobs[j].future, None, Some(FAILURE));
    s' := Put(s, w, Releasing(j), j, Keyed(At(s.jobs[j].(indexed := false, future := future), InDead), false))
          .(n := s.n.(dlq := s.n.dlq + 1), q := s.q.(dead := s.q.dead + [j]),
            sh := s.sh.(idemp := WithoutKey(s.sh.idemp, s.jobs[j].opts.idempotency)));
    assert PutsBack(c, s, s', w, Bury);
    hide Goes, PutsBack;
    r' := Go(c, base, r, s, s', w, Putting(Bury));
  }

  /** A running attempt of a job fails for good, and its key is free. */
  lemma DieIt(c: Config, base: Trace, r: Trace, s: Pool, w: Tid, j: JobId) returns (r': Trace, s': Pool)
    requires Goes(c, base, r, s) && j in s.jobs && w.Worker? && w in s.threads && s.threads[w] == Exec(j, Run)
    ensures Goes(c, base, r', s') && s'.q == s.q.(dead := s.q.dead + [j]) && s'.life == s.life
    ensures j in s'.jobs && s'.jobs[j].opts == s.jobs[j].opts
            && s'.sh.idemp == WithoutKey(s.sh.idemp, s.jobs[j].opts.idempotency)
  {
    hide Goes, WithoutKey;
    r', s' := FailIt(c, base, r, s, w, j);
    r', s' := BuryIt(c, base, r', s', w, j);
  }

  /** Its future is cancelled while it waits. */
  lemma CancelIt(c: Config, base: Trace, r: Trace, s: Pool, j: JobId) returns (r': Trace, s': Pool)
    requires Goes(c, base, r, s) && j in s.jobs && s.jobs[j].opts.future
    ensures Goes(c, base, r', s') && j in s'.jobs && s' == s.(jobs := s.jobs[j := s'.jobs[j]])
    ensures s'.jobs[j].opts == s.jobs[j].opts && s'.jobs[j].cancelled
  {
    var future := Completed(s.jobs[j].future, None, Some(Error.Cancelled));
    s' := s.(jobs := s.jobs[j := s.jobs[j].(cancelled := true, future := future)]);
    assert Outside(s, s', CancelFuture(j));
    hide Goes, Outside;
    r' := Go(c, base, r, s, s', Client(0), Environment(CancelFuture(j)));
  }

  /** A worker drops it. */
  lemma DropIt(c: Config, base: Trace, r: Trace, s: Pool, w: Tid, j: JobId) returns (r': Trace, s': Pool)
    requires Goes(c, base, r, s) && j in s.jobs && w in s.threads && s.threads[w] == Exec(j, Dequeued(false))
    requires s.jobs[j].cancelled
    ensures Goes(c, base, r', s') && s'.sh == s.sh
    ensures j in s'.jobs && s'.jobs[j].opts == s.jobs[j].opts && s'.jobs[j].track.place == Gone(End.Cancelled)
  {
    var future := Completed(s.jobs[j].future, None, Some(Error.Cancelled));
    s' := Put(s, w, Loop(Top), j, At(s.jobs[j].(indexed := false, future := future), Gone(End.Cancelled)));
    assert Prepares(s, s', w, DropCancelled);
    hide Goes, Prepares;
    r' := Go(c, base, r, s, s', w, Preparing(DropCancelled));
  }

  lemma OneLeaves(c: Config, base: Trace, r: Trace, s: Pool, t: Tid) returns (r': Trace, s': Pool)
    requires Goes(c, base, r, s) && s.life.phase == Stopping && s.q.basic == [] && s.q.fast == []
             && s.q.heap == multiset{}
    requires t.Worker? && t in s.threads && s.threads[t] == Loop(TryHeap)
    ensures Goes(c, base, r', s') && s' == s.(threads := s.threads[t := Loop(Exited)])
  {
    hide Goes;
    r', s' := Walk(c, base, r, s, t,
                   [Loop(TryHeap), Loop(LenHeap), Loop(TestPhase), Loop(TestBasic), Loop(TestFast), Loop(TestHeap),
                    Loop(Exited)]);
  }

  // ---- Shutdown ----

  /** Shutdown closes the queues. */
  lemma CloseIt(c: Config, base: Trace, r: Trace, s: Pool) returns (r': Trace, s': Pool)
    requires Goes(c, base, r, s) && s.life == UP.(phase := Stopping)
    requires Client(0) in s.threads && s.threads[Client(0)] == Life(ShutdownScale)
    ensures Goes(c, base, r', s')
    ensures s' == s.(life := Lifecycle(Stopping, false, true, true, true, true, true),
                     threads := s.threads[Client(0) := Life(ShutdownWait)])
  {
    hide Goes;
    var t, s1, s2, s3 := Client(0), s, s, s;
    r', s1 := LiveIt(c, base, r, s, CloseScale, s.life.(scaleClosed := true), CloseFirst(true));
    r', s2 := LiveIt(c, base, r', s1, CloseQueue, s1.life.(basicClosed := true), CloseSecond(true));
    r', s3 := LiveIt(c, base, r', s2, CloseQueue, s2.life.(fastClosed := true), CloseThird(true));
    r', s' := LiveIt(c, base, r', s3, CloseQueue, s3.life.(heapClosed := true), ShutdownWait);
  }

  lemma LiveIt(c: Config, base: Trace, r: Trace, s: Pool, k: LifeStep, life': Lifecycle, y': LifePc)
    returns (r': Trace, s': Pool)
    requires Goes(c, base, r, s) && Client(0) in s.threads && s.threads[Client(0)].Life?
    requires var y := s.threads[Client(0)].y;
             || (k == CloseScale && y == ShutdownScale && !s.life.scaleClosed && life' == s.life.(scaleClosed := true)
                 && y' == CloseFirst(true))
             || (k == CloseQueue && y == CloseFirst(true) && life' == s.life.(basicClosed := true)
                 && y' == CloseSecond(true))
             || (k == CloseQueue && y == CloseSecond(true) && life' == s.life.(fastClosed := true)
                 && y' == CloseThird(true))
             || (k == CloseQueue && y == CloseThird(true) && life' == s.life.(heapClosed := true) && y' == ShutdownWait)
    ensures Goes(c, base, r', s') && s' == s.(life := life', threads := s.threads[Client(0) := Life(y')])
  {
    s' := s.(life := life', threads := s.threads[Client(0) := Life(y')]);
    assert Lives(c, s, s', Client(0), k);
    r' := Go(c, base, r, s, s', Client(0), Living(k));
  }

  // ---- Whole journeys ----

  /** A client submits a job that is due at once. */
  lemma SubmitIt(c: Config, base: Trace, r: Trace, s: Pool, t: Tid, j: JobId, o: Opts) returns (r': Trace, s': Pool)
    requires Goes(c, base, r, s) && s.life == UP && |s.q.fast| < c.queueSize && j !in s.jobs
    requires Simple(c, o) && o.delay == 0 && o.rateKey == NO_KEY && o.idempotency !in s.sh.idemp
    requires t.Client? && PcOf(s, t) == Idle
    ensures Goes(c, base, r', s')
    ensures s' == s.(threads := s.threads[t := Idle], n := s'.n, jobs := s.jobs[j := Fresh(c, o, s.now, InFast)],
                     q := s.q.(fast := s.q.fast + [j]), sh := Taken(s.sh, o.idempotency, j))
  {
    hide Goes, Taken, Simple;
    r', s' := SubmitUpToPush(c, base, r, s, t, j, o);
    r', s' := PushIt(c, base, r', s', t, j);
  }

  /** An idle worker takes the first job of the fast queue and runs it. */
  lemma RunIt(c: Config, base: Trace, r: Trace, s: Pool, w: Tid, j: JobId) returns (r': Trace, s': Pool)
    requires Goes(c, base, r, s) && s.life == UP && s.q.basic == [] && s.q.fast != [] && s.q.fast[0] == j
    requires j in s.jobs && Runnable(s, s.jobs[j]) && AtLoop(s, w, Top)
    ensures Goes(c, base, r', s')
    ensures s' == s.(threads := s.threads[w := Exec(j, Run)], n := s'.n, attempts := s'.attempts,
                     jobs := s.jobs[j := At(s.jobs[j], Held(w)).(attempt := s.jobs[j].attempt + 1)],
                     q := s.q.(fast := s.q.fast[1..]),
                     sh := s.sh.(active := Acquired(s.sh.active, s.jobs[j].opts.concurrency,
                                                    s.jobs[j].opts.maxConcurrent)))
  {
    hide Goes, Admits, Acquired;
    r', s' := LoopTo(c, base, r, s, w, PopFast);
    r', s' := TakeIt(c, base, r', s', w, j, false);
    r', s' := StartIt(c, base, r', s', w, j, false);
  }

  lemma SubmitAndStart(c: Config, base: Trace, r: Trace, s: Pool, t: Tid, w: Tid, j: JobId, o: Opts)
    returns (r': Trace, s': Pool)
    requires Normal(c) && Goes(c, base, r, s) && s.life == UP && s.q == EMPTY && j !in s.jobs
    requires Simple(c, o) && o.delay == 0 && o.rateKey == NO_KEY && o.idempotency !in s.sh.idemp
    requires o.queue == NO_KEY && Admits(s.sh.active, o.concurrency, o.maxConcurrent)
    requires t.Client? && PcOf(s, t) == Idle && AtLoop(s, w, Top)
    ensures Goes(c, base, r', s')
    ensures s' == s.(threads := s.threads[t := Idle][w := Exec(j, Run)], n := s'.n, attempts := s'.attempts,
                     jobs := s.jobs[j := Fresh(c, o, s.now, Held(w)).(attempt := 1)],
                     sh := Taken(s.sh, o.idempotency, j)
                           .(active := Acquired(s.sh.active, o.concurrency, o.maxConcurrent)))
  {
    hide Goes, Taken, Admits, Acquired, Simple;
    r', s' := SubmitIt(c, base, r, s, t, j, o);
    r', s' := RunIt(c, base, r', s', w, j);
  }
}

/** How one job without a limit breaks the limit of all the others that share its key: it is not
    counted, but takes a count away. */
module PoolOverrun {
  import opened KeyedSemaphore
  import opened PoolProtocol
  import opened PoolThreads
  import PoolSemaphore
  import opened PoolRuns

  /** The threads that run an attempt for key k whose job has the limit m. */
  function RunningWith(s: Pool, k: Key, m: int): set<Tid> {
    set t | t in PoolSemaphore.Running(s, k) && s.jobs[s.threads[t].j].opts.maxConcurrent == m
  }

  /** Every job of key k but z has the limit m, and more than m of those run at once. */
  ghost predicate Overruns(s: Pool, k: Key, m: nat, z: JobId) {
    && z in s.jobs && s.jobs[z].opts.concurrency == k && s.jobs[z].opts.maxConcurrent <= 0
    && (forall j | j in s.jobs && j != z && s.jobs[j].opts.concurrency == k :: s.jobs[j].opts.maxConcurrent == m)
    && |RunningWith(s, k, m)| > m
  }

  /** Workers a up to b. */
  function Workers(a: nat, b: nat): set<Tid> {
    set w: nat | a <= w < b :: Worker(w)
  }

  lemma {:induction false} WorkersCount(n: nat)
    ensures |Workers(0, n)| == n
  {
    if n > 0 {
      WorkersCount(n - 1);
      assert Workers(0, n) == Workers(0, n - 1) + {Worker(n - 1)};
    } else {
      assert Workers(0, 0) == {};
    }
  }

  /** An attempt needs a worker of its own. */
  lemma RunnersAreWorkers(c: Config, r: Trace, s: Pool, k: Key, m: int)
    requires Reaches(c, r, s)
    ensures |RunningWith(s, k, m)| <= c.workers
  {
    hide Next, Init, Staffed;
    RunStaffed(c, r.states, r.events, |r.events|);
    OnlyWorkersRun(c, s, k, m);
    PoolSemaphore.SubsetCount(RunningWith(s, k, m), Workers(0, c.workers));
    WorkersCount(c.workers);
  }

  lemma OnlyWorkersRun(c: Config, s: Pool, k: Key, m: int)
    requires Staffed(c, s)
    ensures RunningWith(s, k, m) <= Workers(0, c.workers)
  {
    forall t | t in RunningWith(s, k, m) ensures t in Workers(0, c.workers) {
      assert t.Worker? && t.w < c.workers;
    }
  }

  // ---- The run ----

  function With(k: Key, max: int): Opts {
    PLAIN.(concurrency := k, maxConcurrent := max)
  }

  function Count(k: Key, n: nat): map<Key, int> {
    if n == 0 then map[] else map[k := n]
  }

  /** Worker w runs job w if it is below n, and is about to look for work otherwise. */
  ghost predicate Busy(c: Config, s: Pool, k: Key, m: nat, n: nat) {
    && s.life == UP && s.q == EMPTY && s.sh == NO_SHARED.(active := Count(k, n))
    && (forall w: nat | w < c.workers ::
          Worker(w) in s.threads && s.threads[Worker(w)] == if w < n then Exec(w, Run) else Loop(Top))
    && (forall j: JobId :: j in s.jobs <==> j < n) && (forall j | j in s.jobs :: s.jobs[j].opts == With(k, m))
    && PcOf(s, Client(1)) == Idle
  }

  lemma {:induction false} StartMany(c: Config, k: Key, m: nat, n: nat) returns (base: Trace, r: Trace, s: Pool)
    requires Normal(c) && k != NO_KEY && n <= m < c.workers
    ensures Goes(c, base, r, s) && Busy(c, s, k, m, n)
  {
    hide Goes;
    if n == 0 {
      base, r, s := Boot(c, map[]);
    } else {
      base, r, s := StartMany(c, k, m, n - 1);
      r, s := StartAnother(c, base, r, s, k, m, n - 1);
    }
  }

  lemma StartAnother(c: Config, base: Trace, r: Trace, s: Pool, k: Key, m: nat, n: nat) returns (r': Trace, s': Pool)
    requires Normal(c) && k != NO_KEY && n < m < c.workers && Goes(c, base, r, s) && Busy(c, s, k, m, n)
    ensures Goes(c, base, r', s') && Busy(c, s', k, m, n + 1)
  {
    hide Goes, Fresh;
    r', s' := SubmitAndStart(c, base, r, s, Client(1), Worker(n), n, With(k, m));
    hide Simple, Admits;
    OneMoreBusy(c, s, s', k, m, n);
  }

  lemma OneMoreBusy(c: Config, s: Pool, s': Pool, k: Key, m: nat, n: nat)
    requires Busy(c, s, k, m, n) && 0 < m && k != NO_KEY && s'.life == UP && s'.q == EMPTY
    requires s'.threads == s.threads[Client(1) := Idle][Worker(n) := Exec(n, Run)]
    requires s'.jobs == s.jobs[n := Fresh(c, With(k, m), s.now, Held(Worker(n))).(attempt := 1)]
    requires s'.sh == s.sh.(active := Acquired(s.sh.active, k, m))
    ensures Busy(c, s', k, m, n + 1)
  {
  }

  lemma FreshOpts(c: Config, o: Opts, runAt: int, p: Place)
    ensures Fresh(c, o, runAt, p).opts == o
  {
  }

  lemma ReleasedCount(k: Key, m: nat)
    requires k != NO_KEY && m >= 1
    ensures KeyedSemaphore.Released(Count(k, m), k) == Count(k, m - 1)
  {
  }

  /** The job without a limit is not counted when it starts, and takes a count away when it ends. */
  lemma Uncounted(c: Config, base: Trace, r: Trace, s: Pool, k: Key, m: nat) returns (r': Trace, s': Pool)
    requires Normal(c) && k != NO_KEY && 1 <= m < c.workers && Goes(c, base, r, s) && Busy(c, s, k, m, m)
    ensures Goes(c, base, r', s') && s'.life == UP && s'.q == EMPTY && s'.sh == NO_SHARED.(active := Count(k, m - 1))
    ensures m in s'.jobs && s'.threads == s.threads[Client(1) := Idle] && s'.jobs == s.jobs[m := s'.jobs[m]]
    ensures s'.jobs[m].opts == With(k, 0)
  {
    hide Goes, Fresh;
    r', s' := SubmitAndStart(c, base, r, s, Client(1), Worker(m), m, With(k, 0));
    FreshOpts(c, With(k, 0), s.now, Held(Worker(m)));
    hide Simple, Admits;
    r', s' := FinishIt(c, base, r', s', Worker(m), m);
    ReleasedCount(k, m);
    hide KeyedSemaphore.Released, Count;
    assert s'.threads == s.threads[Client(1) := Idle];
  }

  lemma MoreThan(s: Pool, k: Key, m: nat)
    requires forall w: nat | w <= m ::
               && Worker(w) in s.threads && s.threads[Worker(w)].Exec? && s.threads[Worker(w)].x == Run
               && s.threads[Worker(w)].j in s.jobs && s.jobs[s.threads[Worker(w)].j].opts == With(k, m)
    ensures |RunningWith(s, k, m)| > m
  {
    forall t | t in Workers(0, m + 1) ensures t in RunningWith(s, k, m) {}
    PoolSemaphore.SubsetCount(Workers(0, m + 1), RunningWith(s, k, m));
    WorkersCount(m + 1);
  }

  lemma OverrunsNow(c: Config, s0: Pool, s1: Pool, s: Pool, k: Key, m: nat)
    requires Busy(c, s0, k, m, m) && m < c.workers
    requires s1.threads == s0.threads[Client(1) := Idle] && m in s1.jobs && s1.jobs == s0.jobs[m := s1.jobs[m]]
    requires s1.jobs[m].opts == With(k, 0) && s.threads == s1.threads[Client(1) := Idle][Worker(m) := Exec(m + 1, Run)]
    requires s.jobs == s1.jobs[m + 1 := Fresh(c, With(k, m), s1.now, Held(Worker(m))).(attempt := 1)]
    ensures Overruns(s, k, m, m)
  {
    MoreThan(s, k, m);
  }

  /** So one more job with the limit m starts than may. */
  lemma OneTooMany(c: Config, k: Key, m: nat) returns (r: Trace, s: Pool)
    requires Normal(c) && k != NO_KEY && 1 <= m < c.workers
    ensures Reaches(c, r, s) && Overruns(s, k, m, m)
  {
    hide Goes, Fresh;
    var base, s0, s1;
    base, r, s0 := StartMany(c, k, m, m);
    r, s1 := Uncounted(c, base, r, s0, k, m);
    hide Taken;
    r, s := SubmitAndStart(c, base, r, s1, Client(1), Worker(m), m + 1, With(k, m));
    hide Simple, Admits, Acquired;
    OverrunsNow(c, s0, s1, s, k, m);
    hide Overruns, IsRun;
    Unfold(c, base, r, s);
  }

  /** While every job of a key carries a positive limit of at most m, never more than m attempts
      for it run at once. One job without a limit is enough for more than m jobs that do carry
      the limit m to run at once, in exactly the configurations that have workers for them. */
  lemma OneUncountedJobIsEnough(c: Config, k: Key, m: nat)
    requires Normal(c) && k != NO_KEY && m >= 1
    ensures forall r, s :: Reaches(c, r, s) && PoolSemaphore.Limited(s.jobs, k, m) ==>
              |PoolSemaphore.Running(s, k)| <= m
    ensures (exists r, s, z :: Reaches(c, r, s) && Overruns(s, k, m, z)) <==> m < c.workers
  {
    hide Next, Init, PoolSemaphore.Limited;
    forall r, s | Reaches(c, r, s) && PoolSemaphore.Limited(s.jobs, k, m) ensures |PoolSemaphore.Running(s, k)| <= m {
      PoolSemaphore.AtMostLimit(c, r.states, r.events, |r.events|, k, m);
    }
    if m < c.workers {
      var r, s := OneTooMany(c, k, m);
    } else {
      forall r, s, z | Reaches(c, r, s) ensures !Overruns(s, k, m, z) {
        RunnersAreWorkers(c, r, s, k, m);
      }
    }
  }
}

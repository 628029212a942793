/** Building a run to each of the ends at which a job keeps its idempotency key.

    The first job has its future cancelled while it waits, and a worker drops it. The second finds
    its rate limiter without a token, after it has taken its key, and is refused. The third is the
    next in a heap that is full of jobs that have to wait, under the policy DropOldest, when one
    more of them arrives. That the key is then lost for ever is the theorem of PoolLostKeys; which
    configurations have such runs, and that there are no others, is the business of PoolLosses. */
module PoolLossRuns {
  import opened KeyedSemaphore
  import opened TokenBucket
  import opened PoolProtocol
  import opened PoolLostKeys
  import opened PoolRuns

  const KEY: Key := "key"

  /** Job j came to this end and still has its key. */
  predicate Keeps(s: Pool, j: JobId, end: End) {
    HasKey(s, j) && s.jobs[j].opts.idempotency != NO_KEY && s.jobs[j].track.place == Gone(end)
  }

  // ---- Cancelled ----

  const WANTED: Opts := PLAIN.(idempotency := KEY, future := true)

  /** Job 0 has its key, and a worker has just taken it from its queue. */
  lemma WantedTaken(c: Config) returns (base: Trace, r: Trace, s: Pool)
    requires Normal(c)
    ensures |base.events| == 0 && Goes(c, base, r, s) && W in s.threads && s.threads[W] == Exec(0, Dequeued(false))
    ensures HasKey(s, 0) && s.jobs[0].opts == WANTED
  {
    hide Goes;
    base, r, s := Boot(c, map[]);
    r, s := SubmitIt(c, base, r, s, Client(1), 0, WANTED);
    hide Simple;
    r, s := LoopTo(c, base, r, s, W, PopFast);
    r, s := TakeIt(c, base, r, s, W, 0, false);
  }

  lemma CancelLoses(c: Config) returns (base: Trace, r: Trace, s: Pool)
    requires Normal(c)
    ensures |base.events| == 0 && Goes(c, base, r, s) && Keeps(s, 0, End.Cancelled)
  {
    hide Goes;
    base, r, s := WantedTaken(c);
    r, s := CancelIt(c, base, r, s, 0);
    r, s := DropIt(c, base, r, s, W, 0);
  }

  // ---- Rejected ----

  const RATE: Key := "rate"

  const ONE_ONLY: Limiter := Limiter(RejectMode, NewBucket(1, 1, 0), [])

  const SPENT: Limiter := Limiter(RejectMode, NewBucket(1, 1, 0).(tokens := 0.0), [])

  /** The limiter of key RATE lets a job pass, or refuses it, at once. */
  lemma LimitIt(c: Config, base: Trace, r: Trace, s: Pool, t: Tid, j: JobId, l: Limiter) returns (r': Trace, s': Pool)
    requires Goes(c, base, r, s) && t in s.threads && s.threads[t] == Submit(j, Admitting) && j in s.jobs
    requires s.jobs[j].opts.rateKey == RATE && s.sh.limiters == map[RATE := l] && (l == ONE_ONLY || l == SPENT)
             && s.now == 0
    ensures Goes(c, base, r', s')
    ensures s' == s.(threads := s.threads[t := Submit(j, if l == ONE_ONLY then Creating else Rejecting(false))],
                     sh := s.sh.(limiters := map[RATE := SPENT]))
  {
    s' := s.(threads := s.threads[t := Submit(j, if l == ONE_ONLY then Creating else Rejecting(false))],
             sh := s.sh.(limiters := map[RATE := SPENT]));
    assert s.sh.limiters[RATE := SPENT] == map[RATE := SPENT];
    assert Submits(c, s, s', t, AdmitRate);
    hide Goes, Submits;
    r' := Go(c, base, r, s, s', t, Submitting(AdmitRate));
  }

  /** Job 0 takes the only token; job 1 takes its key and is refused. */
  lemma RejectLoses(c: Config) returns (base: Trace, r: Trace, s: Pool)
    requires Normal(c)
    ensures |base.events| == 0 && Goes(c, base, r, s) && Keeps(s, 1, Rejected)
  {
    hide Goes;
    base, r, s := Boot(c, map[RATE := ONE_ONLY]);
    r, s := SubmitUpToAdmission(c, base, r, s, Client(1), 0, PLAIN.(rateKey := RATE));
    r, s := LimitIt(c, base, r, s, Client(1), 0, ONE_ONLY);
    r, s := SubmitUpToAdmission(c, base, r, s, Client(2), 1, PLAIN.(rateKey := RATE, idempotency := KEY));
    r, s := LimitIt(c, base, r, s, Client(2), 1, SPENT);
    r, s := RejectIt(c, base, r, s, Client(2), 1);
  }

  // ---- Evicted ----

  /** Job 0 names the key, and all of them are due at 1. */
  function LaterOpts(j: JobId): Opts {
    PLAIN.(delay := 1, idempotency := if j == 0 then KEY else NO_KEY)
  }

  const FIRST: Item := PQ.Item(0, 0, 0, 1)

  /** n jobs wait in the heap, and job 0 is the next of them. */
  ghost predicate Heaped(s: Pool, n: nat) {
    && s.life == UP && s.now == 0 && |s.q.heap| == n && PcOf(s, Client(1)) == Idle
    && (forall j: JobId :: j in s.jobs <==> j < n)
    && s.sh.idemp == (if n == 0 then map[] else map[KEY := 0])
    && (n > 0 ==> s.jobs[0].opts == LaterOpts(0) && PQ.IsLeast(FIRST, s.q.heap))
  }

  lemma HeapOneMore(c: Config, base: Trace, r: Trace, s: Pool, n: nat) returns (r': Trace, s': Pool)
    requires Goes(c, base, r, s) && Heaped(s, n) && n < c.queueSize
    ensures Goes(c, base, r', s') && Heaped(s', n + 1)
  {
    hide Goes;
    var s1;
    r', s1 := SubmitUpToPush(c, base, r, s, Client(1), n, LaterOpts(n));
    r', s' := PushHeapIt(c, base, r', s1, Client(1), n);
    hide Simple, Fresh;
    OneMoreHeaped(c, s, s', n);
  }

  lemma OneMoreHeaped(c: Config, s: Pool, s': Pool, n: nat)
    requires Heaped(s, n) && s'.life == UP && s'.now == 0 && PcOf(s', Client(1)) == Idle
    requires s'.jobs == s.jobs[n := At(Fresh(c, LaterOpts(n), 1, Held(Client(1))), InHeap)]
    requires s'.q.heap == s.q.heap + multiset{QueueItem(n, Fresh(c, LaterOpts(n), 1, Held(Client(1))))}
    requires s'.sh == Taken(s.sh, LaterOpts(n).idempotency, n)
    ensures Heaped(s', n + 1)
  {
    assert QueueItem(n, Fresh(c, LaterOpts(n), 1, Held(Client(1)))) == PQ.Item(n, 0, n, 1);
    forall x | x in s'.q.heap ensures !PQ.Less(x, FIRST) {
      assert x in s.q.heap || x == PQ.Item(n, 0, n, 1);
    }
  }

  lemma {:induction false} HeapMany(c: Config, n: nat) returns (base: Trace, r: Trace, s: Pool)
    requires Normal(c) && n <= c.queueSize
    ensures |base.events| == 0 && Goes(c, base, r, s) && Heaped(s, n)
  {
    hide Goes;
    if n == 0 {
      base, r, s := Boot(c, map[]);
    } else {
      base, r, s := HeapMany(c, n - 1);
      r, s := HeapOneMore(c, base, r, s, n - 1);
    }
  }

  /** The heap is full of jobs that have to wait, and one more comes. */
  lemma EvictLoses(c: Config) returns (base: Trace, r: Trace, s: Pool)
    requires Normal(c) && c.backpressure == DropOldest
    ensures |base.events| == 0 && Goes(c, base, r, s) && Keeps(s, 0, Evicted)
  {
    hide Goes;
    var n := c.queueSize;
    var s1, s2;
    base, r, s1 := HeapMany(c, n);
    r, s2 := SubmitUpToPush(c, base, r, s1, Client(1), n, LaterOpts(n));
    hide Simple;
    r, s := EvictIt(c, base, r, s2, Client(1), n, FIRST);
  }
}

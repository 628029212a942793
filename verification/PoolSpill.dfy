/** What the spill breaks, in exactly which configurations: a delay that is not kept, and a job that
    a graceful shutdown leaves behind. */
module PoolSpill {
  import opened TokenBucket
  import opened PoolProtocol
  import opened PoolTiming
  import opened PoolDrain
  import opened PoolRuns
  import opened PoolSpillRuns

  // ---- A job that starts early ----

  ghost predicate StartsEarly(c: Config, r: Trace, a: nat) {
    && IsRun(c, r.states, r.events) && a < |r.states[|r.events|].attempts|
    && r.states[|r.events|].attempts[a].at < r.states[|r.events|].attempts[a].runAt
  }

  /** popSpill does not look at runAt: the job starts at once. */
  lemma SpillStartsEarly(c: Config) returns (r: Trace)
    requires Normal(c) && c.spill
    ensures StartsEarly(c, r, 0)
  {
    hide Goes, ControlPc, IsRun;
    var hour := 3600 * SECOND;
    var base, s;
    base, r, s := DelayedAndSpilled(c, hour);
    r, s := LoopTo(c, base, r, s, W, PopSpill);
    r, s := TakeIt(c, base, r, s, W, 0, true);
    r, s := StartIt(c, base, r, s, W, 0, true);
    Unfold(c, base, r, s);
  }

  /** Early starts are possible in exactly the configurations with a spill. */
  lemma EarlyStartsNeedTheSpill(c: Config)
    requires Normal(c)
    ensures c.spill <==> exists r, a :: StartsEarly(c, r, a)
  {
    if c.spill {
      var r := SpillStartsEarly(c);
    } else {
      forall r, a ensures !StartsEarly(c, r, a) {
        if StartsEarly(c, r, a) {
          NoEarlyStart(c, r.states, r.events, |r.events|, a);
        }
      }
    }
  }

  // ---- A job that is left behind ----

  /** A graceful run, to its end, that leaves a job in the spill. */
  ghost predicate Strands(c: Config, r: Trace, b: nat) {
    && IsRun(c, r.states, r.events) && Graceful(r.states, r.events, b) && b + 1 < |r.states|
    && WaitOver(r.states[|r.events|]) && r.states[|r.events|].q.spill != []
  }

  /** A graceful run stays one until somebody terminates the pool. */
  lemma StillGraceful(c: Config, base: Trace, r: Trace, s: Pool, b: nat)
    requires Graceful(base.states, base.events, b) && Goes(c, base, r, s)
    ensures Graceful(r.states, r.events, b) && IsRun(c, r.states, r.events) && r.states[|r.events|] == s
    ensures b + 1 < |r.states| && r.states[b] == base.states[b]
  {
    hide Next, Init;
    assert r.states[b] == base.states[b] && r.events[b] == base.events[b];
    forall i | 0 <= i < |base.events| ensures r.events[i] == base.events[i] {}
  }

  /** Drain fails for the spill: a worker reads the spill before its exit tests, which ignore it,
      and a submit spills in a step of its own after its push has failed. So a job whose submit
      returned before a graceful shutdown began is left in the spill when all workers are gone. */
  lemma SpillStrandsAJob(c: Config) returns (r: Trace, b: nat)
    requires Normal(c) && !NeverSpills(c)
    ensures Strands(c, r, b)
    ensures forall t | t in r.states[b].threads && t.Client? && t != Client(0) :: r.states[b].threads[t] == Idle
  {
    hide Goes, Graceful, IsRun;
    var base, s, r1, s1;
    base, r, s := AllHaveLooked(c);
    r, s := SpillIt(c, base, r, s, Client(2), c.queueSize);
    r1, s1, b := StopIt(c, base, r, s);
    r, s := AllLeave(c, r1, r1, s1, c.workers);
    assert forall t | t in s.threads && t.Worker? :: Worker(t.w) in s1.threads;
    assert WaitOver(s);
    hide WaitOver;
    StillGraceful(c, r1, r, s, b);
  }

  /** A graceful shutdown can strand a job in the spill in exactly the configurations in which a
      submit may give up and spill. */
  lemma StrandsExactlyIfItSpills(c: Config)
    requires Normal(c)
    ensures !NeverSpills(c) <==> exists r, b :: Strands(c, r, b)
  {
    if !NeverSpills(c) {
      var r, b := SpillStrandsAJob(c);
    } else {
      forall r, b ensures !Strands(c, r, b) {
        if Strands(c, r, b) {
          Drained(c, r.states, r.events, b, |r.events|);
        }
      }
    }
  }
}

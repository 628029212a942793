/** The configurations that lose idempotency keys, one way or another. */
module PoolLosses {
  import opened PoolProtocol
  import opened PoolOwnership
  import opened PoolFuture
  import opened PoolIdempotency
  import opened PoolLostKeys
  import opened PoolRuns
  import opened PoolLossRuns

  /** Only DropOldest evicts. */
  lemma {:induction false} EvictionNeedsPolicy(c: Config, states: seq<Pool>, events: seq<Event>, i: nat, j: JobId)
    requires IsRun(c, states, events) && i < |states| && IsAt(states[i].jobs, j, Gone(Evicted))
    ensures c.backpressure == DropOldest
  {
    hide Next, FateOf;
    if i > 0 {
      RunAges(c, states, events, i - 1, j);
      if IsAt(states[i - 1].jobs, j, Gone(Evicted)) {
        EvictionNeedsPolicy(c, states, events, i - 1, j);
      } else {
        assert j in states[i - 1].jobs && !states[i - 1].jobs[j].track.place.Gone?;
        hide Ages;
        LosingSteps(c, states, events, i - 1, j);
        if !events[i - 1].step.Submitting? || !events[i - 1].step.submit.PushEvicting? {
          OtherLosses(c, states[i - 1], states[i], events[i - 1].t, events[i - 1].step, j);
        }
      }
    }
  }

  lemma OtherLosses(c: Config, s: Pool, s': Pool, t: Tid, step: Step, j: JobId)
    requires Next(c, s, s', t, step) && (step == Preparing(DropCancelled) || step == Submitting(RejectSubmit))
    ensures IsAt(s'.jobs, j, Gone(Evicted)) ==> IsAt(s.jobs, j, Gone(Evicted))
  {
    assert Prepares(s, s', t, DropCancelled) || Submits(c, s, s', t, RejectSubmit);
    hide Next;
  }

  lemma NothingTaken(c: Config, base: Trace, r: Trace, s: Pool)
    requires Goes(c, base, r, s) && |base.events| == 0
    ensures Reaches(c, r, s) && KeylessReplays(r.states, r.events)
  {
    hide Next, Init;
  }

  /** An end at which an ended job still has its key. */
  lemma KeepersEnd(s: Pool, j: JobId, end: End)
    requires Keys(s) && Keeps(s, j, end)
    ensures Ended(s, j) <==> end == End.Cancelled || end == Evicted || end == Rejected
  {
    assert JobKey(s.jobs[j]) && s.jobs[j].track.keyHeld;
    if u :| u in s.threads && s.threads[u] == Unkeying(j) { assert ThreadKey(s.jobs, s.threads[u]); }
    hide Table, ThreadKey;
    match end
    case Succeeded =>
    case _ =>
  }

  lemma KeeperIsLost(c: Config, r: Trace, s: Pool, j: JobId, end: End)
    requires Reaches(c, r, s) && KeylessReplays(r.states, r.events) && Keeps(s, j, end)
    ensures Ended(s, j) <==> end == End.Cancelled || end == Evicted || end == Rejected
    ensures end == Evicted ==> c.backpressure == DropOldest
  {
    hide Next, Init, Keys;
    RunKeys(c, r.states, r.events, |r.events|);
    KeepersEnd(s, j, end);
    if end == Evicted { EvictionNeedsPolicy(c, r.states, r.events, |r.events|, j); }
  }

  /** r ends in s with job j at this end, and j keeps its key for ever. */
  ghost predicate LosesKey(c: Config, r: Trace, s: Pool, j: JobId, end: End) {
    Reaches(c, r, s) && KeylessReplays(r.states, r.events) && Ended(s, j) && Keeps(s, j, end)
  }

  /** A key can be lost to a cancelled job and to a rejected one in every configuration, to an
      evicted one in those with DropOldest, and to no other while replays find only jobs without
      keys. */
  lemma WhoLosesKeys(c: Config, end: End)
    requires Normal(c)
    ensures (end == End.Cancelled || end == Rejected || (end == Evicted && c.backpressure == DropOldest)) <==>
              exists r, s, j :: LosesKey(c, r, s, j, end)
  {
    hide IsRun, Goes, Reaches, Keeps, Ended, KeylessReplays;
    forall r, s, j | LosesKey(c, r, s, j, end)
      ensures end == End.Cancelled || end == Rejected || (end == Evicted && c.backpressure == DropOldest)
    {
      KeeperIsLost(c, r, s, j, end);
    }
    if end == End.Cancelled || end == Rejected || (end == Evicted && c.backpressure == DropOldest) {
      var base, r, s;
      if end == End.Cancelled { base, r, s := CancelLoses(c); }
      else if end == Rejected { base, r, s := RejectLoses(c); }
      else { base, r, s := EvictLoses(c); }
      var j := if end == Rejected then 1 else 0;
      NothingTaken(c, base, r, s);
      KeeperIsLost(c, r, s, j, end);
      assert LosesKey(c, r, s, j, end);
    }
  }
}

/** Building the part of a run in which a client calls ReplayDeadLetters.

    The client takes the dead list, which is remembered by ReplaysOnly, and works on its jobs in
    order: reset, push, count. A lemma describes what happened to the records of as many of the
    jobs as fit the heap; what it means to them to be back is the business of PoolReplay. The last
    part lets a worker take the first of them from the heap, run it, and bury it again: the way in
    which a key changes hands without having been released by the job that has it. */
module PoolReplayRuns {
  import opened KeyedSemaphore
  import opened PoolProtocol
  import opened PoolOwnership
  import opened PoolRuns

  lemma GoesReaches(c: Config, base: Trace, r: Trace, s: Pool)
    requires Goes(c, base, r, s)
    ensures Reaches(c, r, s)
  {
  }

  /** r goes on from base, and whoever takes the dead list in it finds this one. */
  ghost predicate ReplaysOnly(base: Trace, r: Trace, dead: seq<JobId>) {
    && base.states <= r.states && base.events <= r.events && |base.states| == |base.events| + 1
    && |r.states| == |r.events| + 1
    && forall i | |base.events| <= i < |r.events| && r.events[i].step == TakeDead :: r.states[i].q.dead == dead
  }

  lemma StillOnly(c: Config, base: Trace, mid: Trace, r: Trace, s: Pool, dead: seq<JobId>)
    requires ReplaysOnly(base, mid, dead) && Goes(c, mid, r, s)
    ensures ReplaysOnly(base, r, dead)
  {
    hide Next, Init;
    forall i | |base.events| <= i < |r.events| && r.events[i].step == TakeDead ensures r.states[i].q.dead == dead {
      if i < |mid.events| { assert r.events[i] == mid.events[i] && r.states[i] == mid.states[i]; }
    }
  }

  lemma GoesOnly(c: Config, base: Trace, r: Trace, s: Pool, dead: seq<JobId>)
    requires Goes(c, base, r, s) && |base.states| == |base.events| + 1
    ensures ReplaysOnly(base, r, dead)
  {
    hide Next, Init;
  }

  lemma ExtendOnly(c: Config, base: Trace, r: Trace, s: Pool, s': Pool, t: Tid, r': Trace, dead: seq<JobId>)
    requires ReplaysOnly(base, r, dead) && r.states[|r.events|] == s && s.q.dead == dead
    requires r' == Trace(r.states + [s'], r.events + [Event(t, TakeDead)])
    ensures ReplaysOnly(base, r', dead)
  {
  }

  /** Client t calls ReplayDeadLetters and takes the list. */
  lemma DigUp(c: Config, base: Trace, r: Trace, s: Pool, t: Tid) returns (r': Trace, s': Pool)
    requires Goes(c, base, r, s) && |base.states| == |base.events| + 1
    requires t.Client? && PcOf(s, t) == Idle && !Closing(s.life.phase)
    ensures Goes(c, r', r', s') && ReplaysOnly(base, r', s.q.dead)
    ensures s' == s.(threads := s.threads[t := Replay(s.q.dead, ReplayLoop)], q := s.q.(dead := []),
                     jobs := Moved(s.jobs, s.q.dead, Held(t)))
  {
    hide Goes, ReplaysOnly, Reaches, Moved;
    var r1, s1 := Walk(c, base, r, s, t, [Idle, ReplayCheck, ReplayTake]);
    hide ControlPc;
    s' := s1.(threads := s1.threads[t := Replay(s1.q.dead, ReplayLoop)], q := s1.q.(dead := []),
              jobs := Moved(s1.jobs, s1.q.dead, Held(t)));
    assert Next(c, s1, s', t, TakeDead);
    hide Next;
    GoesReaches(c, base, r1, s1);
    r' := Extend(c, r1, s1, s', t, TakeDead);
    GoesOnly(c, base, r1, s1, s.q.dead);
    Unfold(c, base, r1, s1);
    ExtendOnly(c, base, r1, s1, s', t, r', s.q.dead);
  }

  // ---- Putting jobs back ----

  lemma ResetIt(c: Config, base: Trace, r: Trace, s: Pool, t: Tid, items: seq<JobId>) returns (r': Trace, s': Pool)
    requires Goes(c, base, r, s) && t in s.threads && s.threads[t] == Replay(items, ReplayLoop)
    requires items != [] && items[0] in s.jobs
    ensures Goes(c, base, r', s')
    ensures s' == s.(threads := s.threads[t := Replay(items, ReplayPush)],
                     jobs := s.jobs[items[0] := s.jobs[items[0]].(attempt := 0, runAt := s.now)])
  {
    s' := Put(s, t, Replay(items, ReplayPush), items[0], s.jobs[items[0]].(attempt := 0, runAt := s.now));
    assert Replays(c, s, s', t, Reset);
    hide Goes, Replays;
    r' := Go(c, base, r, s, s', t, Replaying(Reset));
  }

  lemma PushBackIt(c: Config, base: Trace, r: Trace, s: Pool, t: Tid, items: seq<JobId>) returns (r': Trace, s': Pool)
    requires Goes(c, base, r, s) && t in s.threads && s.threads[t] == Replay(items, ReplayPush)
    requires items != [] && items[0] in s.jobs && !s.life.heapClosed && |s.q.heap| < c.queueSize
    ensures Goes(c, base, r', s')
    ensures s' == s.(threads := s.threads[t := Replay(items[1..], ReplayAccept)],
                     jobs := s.jobs[items[0] := At(s.jobs[items[0]], InHeap)],
                     q := s.q.(heap := s.q.heap + multiset{QueueItem(items[0], s.jobs[items[0]])}))
  {
    s' := s.(threads := s.threads[t := Replay(items[1..], ReplayAccept)],
             jobs := s.jobs[items[0] := At(s.jobs[items[0]], InHeap)],
             q := s.q.(heap := s.q.heap + multiset{QueueItem(items[0], s.jobs[items[0]])}));
    assert Replays(c, s, s', t, PushBack);
    hide Goes, Replays;
    r' := Go(c, base, r, s, s', t, Replaying(PushBack));
  }

  lemma CountIt(c: Config, base: Trace, r: Trace, s: Pool, t: Tid, items: seq<JobId>) returns (r': Trace, s': Pool)
    requires Goes(c, base, r, s) && t in s.threads && s.threads[t] == Replay(items, ReplayAccept)
    ensures Goes(c, base, r', s') && s' == s.(threads := s.threads[t := Replay(items, ReplayLoop)], n := s'.n)
  {
    s' := s.(threads := s.threads[t := Replay(items, ReplayLoop)],
             n := s.n.(accepted := s.n.accepted + 1, replayed := s.n.replayed + 1));
    assert Replays(c, s, s', t, CountReplay);
    hide Goes, Replays;
    r' := Go(c, base, r, s, s', t, Replaying(CountReplay));
  }

  /** The replay puts its first job into the heap. */
  lemma PushOne(c: Config, base: Trace, r: Trace, s: Pool, t: Tid, items: seq<JobId>) returns (r': Trace, s': Pool)
    requires Goes(c, base, r, s) && t in s.threads && s.threads[t] == Replay(items, ReplayLoop)
    requires items != [] && items[0] in s.jobs && !s.life.heapClosed && |s.q.heap| < c.queueSize
    ensures Goes(c, base, r', s')
    ensures var (j, job) := (items[0], s.jobs[items[0]].(attempt := 0, runAt := s.now));
            s' == s.(threads := s.threads[t := Replay(items[1..], ReplayLoop)], jobs := s.jobs[j := At(job, InHeap)],
                     n := s'.n, q := s.q.(heap := s.q.heap + multiset{QueueItem(j, job)}))
  {
    hide Goes, QueueItem;
    r', s' := ResetIt(c, base, r, s, t, items);
    r', s' := PushBackIt(c, base, r', s', t, items);
    r', s' := CountIt(c, base, r', s', t, items[1..]);
  }

  /** The same, without the details. */
  lemma PushNext(c: Config, base: Trace, r: Trace, s: Pool, t: Tid, items: seq<JobId>) returns (r': Trace, s': Pool)
    requires Goes(c, base, r, s) && t in s.threads && s.threads[t] == Replay(items, ReplayLoop)
    requires items != [] && items[0] in s.jobs && !s.life.heapClosed && |s.q.heap| < c.queueSize
    ensures Goes(c, base, r', s') && |s'.q.heap| == |s.q.heap| + 1
    ensures s' == s.(threads := s.threads[t := Replay(items[1..], ReplayLoop)], jobs := s'.jobs, n := s'.n,
                     q := s.q.(heap := s'.q.heap))
    ensures items[0] in s'.jobs && s'.jobs == s.jobs[items[0] := s'.jobs[items[0]]]
    ensures s'.jobs[items[0]].opts == s.jobs[items[0]].opts && s'.jobs[items[0]].track.place == InHeap
  {
    hide Goes, QueueItem;
    r', s' := PushOne(c, base, r, s, t, items);
  }

  /** What putting the jobs of first into the heap does to the records. */
  ghost predicate PutThere(jobs: Jobs, jobs': Jobs, first: seq<JobId>) {
    && jobs'.Keys == jobs.Keys
    && forall j | j in jobs ::
         jobs'[j].opts == jobs[j].opts && if j in first then jobs'[j].track.place == InHeap else jobs'[j] == jobs[j]
  }

  lemma PutAnother(jobs: Jobs, mid: Jobs, jobs': Jobs, items: seq<JobId>, n: nat)
    requires n < |items| && items[n] in jobs && items[n] in jobs' && PutThere(jobs, mid, items[..n])
    requires jobs' == mid[items[n] := jobs'[items[n]]]
    requires jobs'[items[n]].opts == mid[items[n]].opts && jobs'[items[n]].track.place == InHeap
    ensures PutThere(jobs, jobs', items[..n + 1])
  {
    assert items[..n + 1] == items[..n] + [items[n]];
  }

  lemma NothingPut(s: Pool, t: Tid, items: seq<JobId>)
    requires t in s.threads && s.threads[t] == Replay(items, ReplayLoop)
    ensures PutThere(s.jobs, s.jobs, items[..0])
    ensures s == s.(threads := s.threads[t := Replay(items[0..], ReplayLoop)])
  {
    assert items[0..] == items && s.threads[t := s.threads[t]] == s.threads;
  }

  lemma PutKeys(jobs: Jobs, jobs': Jobs, first: seq<JobId>)
    requires PutThere(jobs, jobs', first)
    ensures jobs'.Keys == jobs.Keys
  {
  }

  /** It puts its first n jobs into the heap. */
  lemma {:induction false} PushSome(c: Config, base: Trace, r: Trace, s: Pool, t: Tid, items: seq<JobId>, n: nat)
    returns (r': Trace, s': Pool)
    requires Goes(c, base, r, s) && t in s.threads && s.threads[t] == Replay(items, ReplayLoop) && n <= |items|
    requires !s.life.heapClosed && |s.q.heap| + n <= c.queueSize && forall j | j in items :: j in s.jobs
    ensures Goes(c, base, r', s') && PutThere(s.jobs, s'.jobs, items[..n])
    ensures s' == s.(threads := s.threads[t := Replay(items[n..], ReplayLoop)], jobs := s'.jobs, n := s'.n,
                     q := s.q.(heap := s'.q.heap)) && |s'.q.heap| == |s.q.heap| + n
  {
    hide Goes, PutThere;
    r', s' := r, s;
    if n == 0 {
      NothingPut(s, t, items);
    } else {
      var s1;
      r', s1 := PushSome(c, base, r, s, t, items, n - 1);
      PutKeys(s.jobs, s1.jobs, items[..n - 1]);
      r', s' := PushNext(c, base, r', s1, t, items[n - 1..]);
      PutAnother(s.jobs, s1.jobs, s'.jobs, items, n - 1);
    }
  }

  // ---- Running one of them again ----

  /** A replayed job is run from the heap by worker w. */
  lemma RunReplayed(c: Config, base: Trace, r: Trace, s: Pool, w: Tid, it: Item) returns (r': Trace, s': Pool)
    requires Goes(c, base, r, s) && s.life == UP && s.q == EMPTY.(heap := multiset{it}) && AtLoop(s, w, Top)
    requires it.runAt <= s.now && it.value in s.jobs && Runnable(s, s.jobs[it.value])
    ensures Goes(c, base, r', s') && s'.q == EMPTY && s'.life == s.life && s'.sh.idemp == s.sh.idemp
    ensures w in s'.threads && s'.threads[w] == Exec(it.value, Run)
    ensures it.value in s'.jobs && s'.jobs[it.value].opts == s.jobs[it.value].opts
  {
    hide Goes, Admits, Acquired;
    r', s' := LoopTo(c, base, r, s, w, TryHeap);
    r', s' := TakeHeapIt(c, base, r', s', w, it);
    r', s' := StartIt(c, base, r', s', w, it.value, false);
  }

  /** The replay of client t goes on with job j, which runs and dies again. */
  lemma OnceMore(c: Config, base: Trace, s: Pool, t: Tid, w: Tid, items: seq<JobId>) returns (r: Trace, s': Pool)
    requires Normal(c) && Goes(c, base, base, s) && s.life == UP && s.q == EMPTY && AtLoop(s, w, Top)
    requires t.Client? && t in s.threads && s.threads[t] == Replay(items, ReplayLoop) && items != []
    requires items[0] in s.jobs && Runnable(s, s.jobs[items[0]])
    ensures Goes(c, base, r, s') && s'.life == UP && s'.q == EMPTY.(dead := [items[0]])
    ensures items[0] in s'.jobs && s'.jobs[items[0]].opts == s.jobs[items[0]].opts
    ensures s'.sh.idemp == WithoutKey(s.sh.idemp, s.jobs[items[0]].opts.idempotency)
  {
    hide Goes, Admits, Acquired, WithoutKey;
    var j := items[0];
    r, s' := PushOne(c, base, base, s, t, items);
    var it := QueueItem(j, s.jobs[j].(attempt := 0, runAt := s.now));
    r, s' := RunReplayed(c, base, r, s', w, it);
    r, s' := DieIt(c, base, r, s', w, j);
  }
}

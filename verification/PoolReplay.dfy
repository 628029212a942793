/** When a replay makes two live jobs share a key: it never looks at the table. */
module PoolReplay {
  import opened KeyedSemaphore
  import opened PoolProtocol
  import opened PoolOwnership
  import opened PoolFuture
  import opened PoolIdempotency
  import opened PoolRuns
  import opened PoolReplayRuns

  /** Two live jobs share an idempotency key. */
  predicate Clash(s: Pool, j: JobId, k: JobId) {
    j != k && Live(s, j) && Live(s, k) && s.jobs[j].opts.idempotency == s.jobs[k].opts.idempotency != NO_KEY
  }

  // ---- What a replay brings back ----

  /** Live jobs stay live, and the first n of the dead list live again. */
  ghost predicate Revived(s: Pool, s': Pool, n: nat) {
    && (forall j | j in s.jobs :: j in s'.jobs && s'.jobs[j].opts == s.jobs[j].opts && (Live(s, j) ==> Live(s', j)))
    && n <= |s.q.dead| && forall i | 0 <= i < n :: s.q.dead[i] in s.jobs && Live(s', s.q.dead[i])
  }

  lemma MovedOne(jobs: Jobs, dead: seq<JobId>, p: Place, j: JobId)
    requires j in jobs
    ensures j in Moved(jobs, dead, p) && Moved(jobs, dead, p)[j].opts == jobs[j].opts
    ensures j !in dead ==> Moved(jobs, dead, p)[j] == jobs[j]
  {
  }

  lemma LivesOn(s: Pool, s1: Pool, s': Pool, t: Tid, n: nat, j: JobId)
    requires n <= |s.q.dead| && j in s.jobs && PcOf(s, t) == Idle && (j in s.q.dead <==> IsAt(s.jobs, j, InDead))
    requires s1.jobs == Moved(s.jobs, s.q.dead, Held(t)) && PutThere(s1.jobs, s'.jobs, s.q.dead[..n])
    requires t in s'.threads && s'.threads == s.threads[t := s'.threads[t]]
    ensures j in s'.jobs && s'.jobs[j].opts == s.jobs[j].opts && (Live(s, j) ==> Live(s', j))
  {
    assert j in s.q.dead[..n] ==> j in s.q.dead;
    MovedOne(s.jobs, s.q.dead, Held(t), j);
    hide Moved;
    assert Live(s, j) ==> s1.jobs[j] == s.jobs[j] && s'.jobs[j] == s1.jobs[j];
  }

  lemma ReplayRevives(s: Pool, s1: Pool, s': Pool, t: Tid, n: nat)
    requires Owned(s) && PcOf(s, t) == Idle && n <= |s.q.dead|
    requires s1.jobs == Moved(s.jobs, s.q.dead, Held(t)) && PutThere(s1.jobs, s'.jobs, s.q.dead[..n])
    requires t in s'.threads && s'.threads == s.threads[t := s'.threads[t]]
    ensures Revived(s, s', n)
  {
    forall j: JobId ensures j in s.q.dead <==> IsAt(s.jobs, j, InDead) { DeadIsDead(s, j); }
    hide Owned;
    forall j | j in s.jobs
      ensures j in s'.jobs && s'.jobs[j].opts == s.jobs[j].opts && (Live(s, j) ==> Live(s', j))
    {
      LivesOn(s, s1, s', t, n, j);
    }
    forall i | 0 <= i < n ensures s.q.dead[i] in s.jobs && Live(s', s.q.dead[i]) {
      BackAgain(s, s1, s', t, n, i);
    }
  }

  lemma BackAgain(s: Pool, s1: Pool, s': Pool, t: Tid, n: nat, i: nat)
    requires i < n <= |s.q.dead| && IsAt(s.jobs, s.q.dead[i], InDead)
    requires s1.jobs == Moved(s.jobs, s.q.dead, Held(t)) && PutThere(s1.jobs, s'.jobs, s.q.dead[..n])
    ensures Live(s', s.q.dead[i])
  {
    assert s.q.dead[i] in s.q.dead[..n];
  }

  /** Somebody replays the first n dead letters. */
  lemma ReplaySome(c: Config, base: Trace, r: Trace, s: Pool, n: nat) returns (r': Trace, s': Pool)
    requires Goes(c, base, r, s) && |base.states| == |base.events| + 1 && n <= |s.q.dead|
    requires !Closing(s.life.phase) && !s.life.heapClosed && |s.q.heap| + n <= c.queueSize
    ensures Reaches(c, r', s') && ReplaysOnly(base, r', s.q.dead) && Revived(s, s', n)
  {
    hide Goes, Reaches, ReplaysOnly, Moved, PutThere, Owned, Revived, Next, IsRun;
    var m := FreshClient(s.threads.Keys);
    var t := Client(m);
    var mid, s1 := DigUp(c, base, r, s, t);
    OwnedThen(c, base, r, s);
    DeadThere(s, s1, t);
    r', s' := PushSome(c, mid, mid, s1, t, s.q.dead, n);
    StillOnly(c, base, mid, r', s', s.q.dead);
    GoesReaches(c, mid, r', s');
    ReplayRevives(s, s1, s', t, n);
  }

  lemma DeadThere(s: Pool, s1: Pool, t: Tid)
    requires Owned(s) && s1.jobs == Moved(s.jobs, s.q.dead, Held(t))
    ensures forall j | j in s.q.dead :: j in s1.jobs
  {
    forall j | j in s.q.dead ensures j in s1.jobs { DeadIsDead(s, j); }
  }

  lemma OwnedThen(c: Config, base: Trace, r: Trace, s: Pool)
    requires Goes(c, base, r, s)
    ensures Owned(s)
  {
    hide Next, Init, Owned;
    RunOwned(c, r.states, r.events, |r.events|);
  }

  // ---- One replay that breaks it ----

  predicate KeyedDead(s: Pool, i: nat) {
    i < |s.q.dead| && s.q.dead[i] in s.jobs && s.jobs[s.q.dead[i]].opts.idempotency != NO_KEY
  }

  predicate Named(s: Pool, j: JobId, key: Key) {
    j in s.jobs && s.jobs[j].opts.idempotency == key
  }

  /** Somebody else has the key of dead letter i, will have it after the same replay, or may take it. */
  ghost predicate Contested(s: Pool, i: nat)
    requires KeyedDead(s, i)
  {
    var key := s.jobs[s.q.dead[i]].opts.idempotency;
    || key !in s.sh.idemp
    || (exists k :: Live(s, k) && Named(s, k, key))
    || (exists m: nat | m < i :: s.q.dead[m] != s.q.dead[i] && Named(s, s.q.dead[m], key))
    || (exists w, h :: w in s.threads && s.threads[w] == Unkeying(h) && Named(s, h, key))
  }

  lemma Clashes(s: Pool, s': Pool, i: nat, k: JobId)
    requires Owned(s) && Revived(s, s', i + 1) && KeyedDead(s, i) && Named(s, k, s.jobs[s.q.dead[i]].opts.idempotency)
    requires Live(s, k) || exists m: nat | m < i :: s.q.dead[m] == k != s.q.dead[i]
    ensures exists j, k :: Clash(s', j, k)
  {
    DeadIsDead(s, s.q.dead[i]);
    hide Owned;
    assert Clash(s', s.q.dead[i], k);
  }

  /** A submit of a new job that names a free key, up to its push. */
  lemma SubmitSame(c: Config, base: Trace, r: Trace, s: Pool, key: Key) returns (r': Trace, s': Pool, k: JobId)
    requires Goes(c, base, r, s) && !Closing(s.life.phase) && key != NO_KEY && key !in s.sh.idemp
    ensures Goes(c, base, r', s') && s'.q == s.q && s'.life == s.life && Live(s', k) && Named(s', k, key)
    ensures k !in s.jobs && forall j | j in s.jobs :: j in s'.jobs && s'.jobs[j] == s.jobs[j]
  {
    hide Goes;
    var n := FreshClient(s.threads.Keys);
    var t := Client(n);
    k := FreshJob(s.jobs.Keys);
    r', s' := SubmitUpToPush(c, base, r, s, t, k, PLAIN.(idempotency := key));
  }

  lemma ReplayAgainst(c: Config, base: Trace, r: Trace, s: Pool, i: nat, k: JobId) returns (r': Trace, s': Pool)
    requires Goes(c, base, r, s) && |base.states| == |base.events| + 1 && KeyedDead(s, i)
    requires Named(s, k, s.jobs[s.q.dead[i]].opts.idempotency)
    requires Live(s, k) || exists m: nat | m < i :: s.q.dead[m] == k != s.q.dead[i]
    requires !Closing(s.life.phase) && !s.life.heapClosed && |s.q.heap| + i < c.queueSize
    ensures Reaches(c, r', s') && ReplaysOnly(base, r', s.q.dead) && exists j, k :: Clash(s', j, k)
  {
    assert i < |s.q.dead|;
    hide Goes, Reaches, ReplaysOnly, Revived, Owned, KeyedDead, Clash, Live, Named;
    r', s' := ReplaySome(c, base, r, s, i + 1);
    OwnedThen(c, base, r, s);
    Clashes(s, s', i, k);
  }

  /** Replays break it: from any reachable state with a contested dead letter, in a pool that is
      open and whose heap has room for the list that far, one ReplayDeadLetters, which never
      consults the key table, and at most one submit make two live jobs share a key. */
  lemma ReplayBreaksIt(c: Config, base: Trace, s: Pool, i: nat) returns (r: Trace, s': Pool)
    requires Goes(c, base, base, s) && KeyedDead(s, i) && Contested(s, i)
    requires !Closing(s.life.phase) && !s.life.heapClosed && |s.q.heap| + i < c.queueSize
    ensures Reaches(c, r, s') && ReplaysOnly(base, r, s.q.dead) && exists j, k :: Clash(s', j, k)
  {
    Unfold(c, base, base, s);
    hide Goes, Reaches, ReplaysOnly, Clash, Live, IsRun;
    var key := s.jobs[s.q.dead[i]].opts.idempotency;
    if k :| Live(s, k) && Named(s, k, key) {
      r, s' := ReplayAgainst(c, base, base, s, i, k);
    } else if m: nat :| m < i && s.q.dead[m] != s.q.dead[i] && Named(s, s.q.dead[m], key) {
      r, s' := ReplayAgainst(c, base, base, s, i, s.q.dead[m]);
    } else {
      var s1, k;
      r, s1 := FreeIt(c, base, s, i);
      r, s1, k := SubmitSame(c, base, r, s1, key);
      r, s' := ReplayAgainst(c, base, r, s1, i, k);
    }
  }

  /** A worker that is about to delete the key does so. */
  lemma FreeIt(c: Config, base: Trace, s: Pool, i: nat) returns (r: Trace, s': Pool)
    requires Goes(c, base, base, s) && KeyedDead(s, i)
    requires var key := s.jobs[s.q.dead[i]].opts.idempotency;
             key !in s.sh.idemp || exists w, h :: w in s.threads && s.threads[w] == Unkeying(h) && Named(s, h, key)
    ensures Goes(c, base, r, s') && s'.q == s.q && s'.life == s.life && s'.jobs.Keys == s.jobs.Keys
    ensures s.jobs[s.q.dead[i]].opts.idempotency !in s'.sh.idemp
    ensures forall j | j in s.jobs :: s'.jobs[j].opts == s.jobs[j].opts
  {
    hide Goes;
    var key := s.jobs[s.q.dead[i]].opts.idempotency;
    if key in s.sh.idemp {
      var w, h :| w in s.threads && s.threads[w] == Unkeying(h) && Named(s, h, key);
      r, s' := LeaveIt(c, base, base, s, w, h);
    } else {
      r, s' := base, s;
    }
  }

  // ---- Exactly when a replay is harmful ----

  /** The key is lost to job h, which has ended without giving it back or is being refused. */
  predicate Loses(s: Pool, h: JobId) {
    && h in s.jobs && s.jobs[h].opts.idempotency in s.sh.idemp && s.sh.idemp[s.jobs[h].opts.idempotency] == h
    && match s.jobs[h].track.place
       case Held(t) => t in s.threads && s.threads[t].Submit? && s.threads[t].u.Rejecting?
       case _ => KeepsKey(s.jobs[h].track.place)
  }

  /** Unless it is lost, a key is free, in the hands of a live job, or about to be deleted. */
  lemma UnlessLost(s: Pool, key: Key)
    requires Owned(s) && Keys(s) && key in s.sh.idemp && key != NO_KEY
    requires forall h :: Loses(s, h) ==> !Named(s, h, key)
    ensures Named(s, s.sh.idemp[key], key)
    ensures Live(s, s.sh.idemp[key]) || exists w :: w in s.threads && s.threads[w] == Unkeying(s.sh.idemp[key])
  {
    var h := s.sh.idemp[key];
    assert JobKey(s.jobs[h]) && s.jobs[h].track.keyHeld && !Loses(s, h);
    if s.jobs[h].track.place.Held? {
      var t := s.jobs[h].track.place.t;
      assert QueueAt(s.jobs, HandsOf(s.threads, t), Held(t));
      assert multiset(HandsOf(s.threads, t))[h] == 1;
      hide Owned, Table;
      assert ThreadKey(s.jobs, s.threads[t]);
      assert h in Hands(s.threads[t]);
    } else {
      hide Owned, Table;
      match s.jobs[h].track.place
      case Gone(end) =>
        match end {
          case Succeeded => assert AboutToUnkey(s.threads, h);
          case _ =>
        }
      case _ =>
    }
  }

  lemma NotLostContested(s: Pool, i: nat)
    requires Owned(s) && Keys(s) && KeyedDead(s, i)
    requires forall h :: Loses(s, h) ==> !Named(s, h, s.jobs[s.q.dead[i]].opts.idempotency)
    ensures Contested(s, i)
  {
    hide Owned, Keys, Live;
    var key := s.jobs[s.q.dead[i]].opts.idempotency;
    if key in s.sh.idemp { UnlessLost(s, key); }
  }

  /** In a run whose replays were harmless so far, in an open pool with room for its dead list and
      none of whose dead letters names a lost key: replaying the list as it is now can make two
      live jobs share a key if and only if some job on it has a key. */
  lemma HarmfulExactly(c: Config, base: Trace, s: Pool)
    requires Goes(c, base, base, s) && KeylessReplays(base.states, base.events)
    requires !Closing(s.life.phase) && !s.life.heapClosed && |s.q.heap| + |s.q.dead| <= c.queueSize
    requires forall h: JobId, i: nat :: Loses(s, h) && KeyedDead(s, i) ==>
               !Named(s, h, s.jobs[s.q.dead[i]].opts.idempotency)
    ensures !DeadKeyless(s) <==>
              exists r, s', j, k :: Reaches(c, r, s') && ReplaysOnly(base, r, s.q.dead) && Clash(s', j, k)
  {
    hide Next, Init, Owned, Keys, Loses, Clash;
    OwnedThen(c, base, base, s);
    Unfold(c, base, base, s);
    RunKeys(c, base.states, base.events, |base.events|);
    hide Goes, Reaches, ReplaysOnly, IsRun, KeylessReplays;
    if DeadKeyless(s) {
      forall r, s', j, k | Reaches(c, r, s') && ReplaysOnly(base, r, s.q.dead) ensures !Clash(s', j, k) {
        HarmlessRuns(c, base, s, r, s', j, k);
      }
    } else {
      var i := SomeKeyed(s);
      NotLostContested(s, i);
      var r, s' := ReplayBreaksIt(c, base, s, i);
    }
  }

  lemma SomeKeyed(s: Pool) returns (i: nat)
    requires Owned(s) && !DeadKeyless(s)
    ensures KeyedDead(s, i)
  {
    var j :| j in s.q.dead && !Keyless(s.jobs, j);
    i :| i < |s.q.dead| && s.q.dead[i] == j;
    DeadIsDead(s, j);
  }

  lemma HarmlessRuns(c: Config, base: Trace, s: Pool, r: Trace, s': Pool, j: JobId, k: JobId)
    requires Goes(c, base, base, s) && KeylessReplays(base.states, base.events) && DeadKeyless(s)
    requires Reaches(c, r, s') && ReplaysOnly(base, r, s.q.dead)
    ensures !Clash(s', j, k)
  {
    hide Next, Init, Live;
    var n := |base.events|;
    assert r.states[n] == base.states[n];
    forall i | 0 <= i < |r.events| && r.events[i].step == TakeDead ensures DeadKeyless(r.states[i]) {
      if i < n {
        assert r.states[i] == base.states[i] && r.events[i] == base.events[i];
      } else {
        StaysKeyless(c, r.states, r.events, n, i);
      }
    }
    if Clash(s', j, k) {
      OneLiveJobPerKey(c, r.states, r.events, |r.events|, j, k);
    }
  }

  lemma StaysKeyless(c: Config, states: seq<Pool>, events: seq<Event>, n: nat, i: nat)
    requires IsRun(c, states, events) && n <= i < |states| && DeadKeyless(states[n])
    requires states[i].q.dead == states[n].q.dead
    ensures DeadKeyless(states[i])
  {
    hide Next, Init;
    forall j | j in states[i].q.dead ensures Keyless(states[i].jobs, j) {
      GoneStays(c, states, events, n, i, j);
    }
  }

  // ---- Lost keys come back ----

  /** Nothing is queued, and worker w is about to look for work. */
  predicate Quiet(s: Pool, w: Tid) {
    s.life == UP && s.q == EMPTY.(dead := s.q.dead) && AtLoop(s, w, Top)
  }

  /** Even a lost key does not help: in a quiet pool that can run its first dead letter, the first
      replay lets it run and die again, which deletes the key whoever has it, and the second one
      makes it share the key with a new job. */
  lemma LostKeysBreakToo(c: Config, base: Trace, s: Pool, w: Tid) returns (r: Trace, s': Pool)
    requires Normal(c) && Goes(c, base, base, s) && Quiet(s, w) && KeyedDead(s, 0) && Runnable(s, s.jobs[s.q.dead[0]])
    ensures Reaches(c, r, s') && base.states <= r.states && base.events <= r.events && exists j, k :: Clash(s', j, k)
  {
    var n := FreshClient(s.threads.Keys);
    var t, j := Client(n), s.q.dead[0];
    Unfold(c, base, base, s);
    hide Goes, Clash, IsRun, Reaches, Live;
    var r1, s1 := DigUp(c, base, base, s, t);
    Unfold(c, r1, r1, s1);
    var r2, s2 := OnceMore(c, r1, s1, t, w, s.q.dead);
    var k;
    r, s', k := SubmitSame(c, r1, r2, s2, s.jobs[j].opts.idempotency);
    hide Runnable, Moved;
    r, s' := ReplayAgainst(c, r1, r, s', 0, k);
  }

  // ---- A run that does it, in any configuration ----

  const KEY: Key := "key"

  /** Job 0 took the key, ran once and is a dead letter. */
  lemma OneDies(c: Config) returns (base: Trace, r: Trace, s: Pool)
    requires Normal(c)
    ensures Goes(c, base, r, s) && s.life == UP && s.q == EMPTY.(dead := [0]) && KEY !in s.sh.idemp
    ensures KeyedDead(s, 0) && s.jobs[0].opts.idempotency == KEY
  {
    hide Goes;
    base, r, s := Boot(c, map[]);
    r, s := SubmitAndStart(c, base, r, s, Client(1), W, 0, PLAIN.(idempotency := KEY));
    r, s := DieIt(c, base, r, s, W, 0);
  }

  /** In every configuration some run has two live jobs with one key. */
  lemma TwoLiveJobsShareAKey(c: Config) returns (r: Trace, s: Pool)
    requires Normal(c)
    ensures Reaches(c, r, s) && exists j, k :: Clash(s, j, k)
  {
    hide Goes, Next, IsRun, Live;
    var base, r1, s1 := OneDies(c);
    var r2, s2 := Rebase(c, base, r1, s1);
    r, s := ReplayBreaksIt(c, r2, s2, 0);
  }

  lemma Rebase(c: Config, base: Trace, r: Trace, s: Pool) returns (r': Trace, s': Pool)
    requires Goes(c, base, r, s)
    ensures r' == r && s' == s && Goes(c, r', r', s')
  {
    hide Next, Init;
    r', s' := r, s;
  }
}

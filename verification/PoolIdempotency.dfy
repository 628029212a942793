/** Idempotency keys: who holds one, and for how long, in runs whose dead-letter replays find no job
    with a key.

    The table maps a key to the job that took it when its submit passed the duplicate test. The job
    holds it while it waits and runs; a success and a burial give it back. */
module PoolIdempotency {
  import opened Futures
  import opened KeyedSemaphore
  import opened TokenBucket
  import opened PoolProtocol
  import opened PoolThreads
  import opened PoolOwnership
  import opened PoolFuture

  /** The submitter is past the duplicate test. */
  predicate Admitted(u: SubmitPc) {
    u.Admitting? || u.AdmitCheck? || u.Creating? || u.FastPush? || u.HeapPush? || u.HeapCheck? || u.Spilling?
  }

  /** Admitted jobs hold their key while they wait, and also for ever after a cancellation or an
      eviction; dead ones do not. */
  predicate JobKey(job: Job) {
    && (job.track.keyHeld ==> job.opts.idempotency != NO_KEY)
    && (job.track.place == InDead || job.track.place == Gone(Purged) ==> !job.track.keyHeld)
    && (job.opts.idempotency != NO_KEY ==>
          && job.track.place != InBasic && job.track.place != Gone(FailedBasic)
          && (job.track.place in {InFast, InSpill, InHeap, Gone(End.Cancelled), Gone(Evicted)} ==> job.track.keyHeld))
  }

  predicate Keyless(jobs: Jobs, j: JobId) {
    j in jobs && jobs[j].opts.idempotency == NO_KEY
  }

  predicate ThreadKey(jobs: Jobs, pc: Pc) {
    && (pc.Replay? ==> forall j | j in pc.items :: Keyless(jobs, j))
    && (pc.Basic? && pc.j in jobs ==> jobs[pc.j].opts.idempotency == NO_KEY)
    && (pc.Exec? && pc.j in jobs && jobs[pc.j].opts.idempotency != NO_KEY ==> jobs[pc.j].track.keyHeld)
    && (pc.Submit? && pc.j in jobs ==>
          && (pc.u == BasicPush ==> jobs[pc.j].opts.idempotency == NO_KEY)
          && (pc.u == Entered || pc.u == Routing || pc.u == Keying ==> !jobs[pc.j].track.keyHeld)
          && (Admitted(pc.u) && jobs[pc.j].opts.idempotency != NO_KEY ==> jobs[pc.j].track.keyHeld))
    && (pc.Unkeying? ==> pc.j in jobs && jobs[pc.j].track.place == Gone(Succeeded)
                         && (jobs[pc.j].opts.idempotency != NO_KEY ==> jobs[pc.j].track.keyHeld))
  }

  /** A worker is about to delete the key of job j, which succeeded. */
  predicate AboutToUnkey(threads: map<Tid, Pc>, j: JobId) {
    exists t :: t in threads && threads[t] == Unkeying(j)
  }

  /** The table maps exactly the held keys, each to the job that holds it. */
  ghost predicate Table(jobs: Jobs, idemp: map<Key, JobId>) {
    && (forall k | k in idemp ::
          idemp[k] in jobs && jobs[idemp[k]].track.keyHeld && jobs[idemp[k]].opts.idempotency == k)
    && (forall j | j in jobs && jobs[j].track.keyHeld ::
          jobs[j].opts.idempotency in idemp && idemp[jobs[j].opts.idempotency] == j)
  }

  ghost predicate Keys(s: Pool) {
    && (forall j | j in s.jobs :: JobKey(s.jobs[j]))
    && (forall t | t in s.threads :: ThreadKey(s.jobs, s.threads[t]))
    && (forall t, u | t in s.threads && u in s.threads && s.threads[t].Unkeying? && s.threads[u] == s.threads[t] ::
          t == u)
    && (forall j | j in s.jobs && s.jobs[j].track.place == Gone(Succeeded) && s.jobs[j].track.keyHeld ::
          AboutToUnkey(s.threads, j))
    && Table(s.jobs, s.sh.idemp)
  }

  lemma TableStays(jobs: Jobs, idemp: map<Key, JobId>, j: JobId, job': Job)
    requires Table(jobs, idemp)
    requires if j in jobs then job'.opts == jobs[j].opts && job'.track.keyHeld == jobs[j].track.keyHeld
             else !job'.track.keyHeld
    ensures Table(jobs[j := job'], idemp)
  {
  }

  lemma TableGains(jobs: Jobs, idemp: map<Key, JobId>, j: JobId, job': Job)
    requires Table(jobs, idemp) && j in jobs && job'.opts == jobs[j].opts && job'.track.keyHeld
             && !jobs[j].track.keyHeld
    requires job'.opts.idempotency !in idemp
    ensures Table(jobs[j := job'], idemp[job'.opts.idempotency := j])
  {
  }

  lemma TableLoses(jobs: Jobs, idemp: map<Key, JobId>, j: JobId, job': Job)
    requires Table(jobs, idemp) && j in jobs && job'.opts == jobs[j].opts && !job'.track.keyHeld
    requires JobKey(jobs[j]) && (job'.opts.idempotency != NO_KEY ==> jobs[j].track.keyHeld)
    ensures Table(jobs[j := job'], WithoutKey(idemp, job'.opts.idempotency))
  {
  }

  /** A step of t on a job that nobody else is working on. */
  lemma JobStepKeys(s: Pool, s': Pool, t: Tid, j: JobId, pc': Pc, job': Job)
    requires Owned(s) && Keys(s) && Touches(s, s', t, j, pc', job')
    requires forall u | u != t :: !IsAt(s.jobs, j, Held(u))
    requires j in s.jobs ==> job'.opts == s.jobs[j].opts
    requires IsAt(s.jobs, j, Gone(Succeeded)) ==> PcOf(s, t) == Unkeying(j)
    requires PcOf(s, t).Unkeying? || pc'.Unkeying? ==> pc' == Unkeying(j) || PcOf(s, t) == Unkeying(j)
    requires pc'.Unkeying? ==> pc'.j == j && !PcOf(s, t).Unkeying?
    requires job'.track.place == Gone(Succeeded) && job'.track.keyHeld ==> pc' == Unkeying(j)
    requires JobKey(job') && ThreadKey(s'.jobs, pc') && Table(s'.jobs, s'.sh.idemp)
    ensures Keys(s')
  {
    hide Owned, JobKey, Table;
    forall u | u in s'.threads ensures ThreadKey(s'.jobs, s'.threads[u]) {
      if u != t {
        var pc := s.threads[u];
        assert ThreadKey(s.jobs, pc);
        if pc.Exec? || pc.Submit? || pc.Basic? { HandsApart(s, u, pc.j); }
      }
    }
    UnkeyersStay(s, s', t, j);
    hide ThreadKey, AboutToUnkey;
  }

  /** Where t moves on job j, the other successes whose key is still held still have their workers. */
  lemma UnkeyersStay(s: Pool, s': Pool, t: Tid, j: JobId)
    requires Keys(s) && t in s'.threads && s'.threads == s.threads[t := s'.threads[t]]
    requires j in s'.jobs && s'.jobs == s.jobs[j := s'.jobs[j]] && (PcOf(s, t).Unkeying? ==> PcOf(s, t) == Unkeying(j))
    requires IsAt(s'.jobs, j, Gone(Succeeded)) && s'.jobs[j].track.keyHeld ==> s'.threads[t] == Unkeying(j)
    ensures forall i | i in s'.jobs && s'.jobs[i].track.place == Gone(Succeeded) && s'.jobs[i].track.keyHeld ::
              AboutToUnkey(s'.threads, i)
  {
    hide JobKey, ThreadKey, Table;
    forall i | i in s'.jobs && s'.jobs[i].track.place == Gone(Succeeded) && s'.jobs[i].track.keyHeld
      ensures AboutToUnkey(s'.threads, i)
    {
      if i == j {
        assert s'.threads[t] == Unkeying(j);
      } else {
        var u :| u in s.threads && s.threads[u] == Unkeying(i);
        assert u != t && s'.threads[u] == Unkeying(i);
      }
    }
  }

  /** A step of t that changes no job and no key. */
  lemma ThreadStepKeys(s: Pool, s': Pool, t: Tid, pc': Pc)
    requires Keys(s) && s'.jobs == s.jobs && s'.threads == s.threads[t := pc'] && s'.sh.idemp == s.sh.idemp
    requires ThreadKey(s.jobs, pc') && !pc'.Unkeying? && !PcOf(s, t).Unkeying?
    ensures Keys(s')
  {
    hide JobKey, ThreadKey, Table;
    forall j | j in s'.jobs && s'.jobs[j].track.place == Gone(Succeeded) && s'.jobs[j].track.keyHeld
      ensures AboutToUnkey(s'.threads, j)
    {
      var u :| u in s.threads && s.threads[u] == Unkeying(j);
      assert u != t && s'.threads[u] == Unkeying(j);
    }
  }

  lemma KeyIs(s: Pool, t: Tid)
    requires Keys(s) && t in s.threads
    ensures ThreadKey(s.jobs, s.threads[t]) && Table(s.jobs, s.sh.idemp)
    ensures (s.threads[t].Exec? || s.threads[t].Submit? || s.threads[t].Basic? || s.threads[t].Unkeying?)
            && s.threads[t].j in s.jobs
            ==> JobKey(s.jobs[s.threads[t].j])
  {
  }

  lemma ControlKeys(c: Config, s: Pool, s': Pool, t: Tid, pc': Pc)
    requires Keys(s) && Control(c, s, s', t, pc')
    ensures Keys(s')
  {
    hide LoopMoves, Keys, HeapFull, SpillRefuses, FifoRefuses;
    if t in s.threads { KeyIs(s, t); }
    ThreadStepKeys(s, s', t, pc');
  }

  /** The record of a job taken from a queue says what its key does; nobody works on it. */
  lemma TakenKey(s: Pool, s': Pool, t: Tid, k: TakeStep)
    requires Owned(s) && Keys(s) && Takes(s, s', t, k)
    ensures var j := s'.threads[t].j;
            j in s.jobs && s.jobs[j].track.place in {InBasic, InFast, InSpill, InHeap} && JobKey(s.jobs[j])
            && (s.jobs[j].track.place == InBasic <==> k == TakeBasic)
  {
    hide QueueAt, HeapAt, HandsAt, Table, JobKey, ThreadKey;
    var j := s'.threads[t].j;
    match k {
      case TakeBasic => QueueLoses(s.jobs, s'.jobs[j], s.q.basic, InBasic);
      case TakeFast => QueueLoses(s.jobs, s'.jobs[j], s.q.fast, InFast);
      case TakeSpill => QueueLoses(s.jobs, s'.jobs[j], s.q.spill, InSpill);
      case TakeHeap(it) => HeapLoses(s.jobs, s'.jobs[j], s.q.heap, it);
    }
    assert JobKey(s.jobs[j]);
  }

  lemma TakesKeys(s: Pool, s': Pool, t: Tid, k: TakeStep)
    requires Owned(s) && Keys(s) && Takes(s, s', t, k)
    ensures Keys(s')
  {
    hide Owned, Table;
    TakenKey(s, s', t, k);
    var j := s'.threads[t].j;
    assert Table(s.jobs, s.sh.idemp);
    hide Keys;
    TableStays(s.jobs, s.sh.idemp, j, s'.jobs[j]);
    JobStepKeys(s, s', t, j, s'.threads[t], s'.jobs[j]);
  }

  lemma RunsBasicKeys(s: Pool, s': Pool, t: Tid, k: BasicStep)
    requires Owned(s) && Keys(s) && RunsBasic(s, s', t, k)
    ensures Keys(s')
  {
    hide Owned, Keys, Table;
    var j := s.threads[t].j;
    JobInHand(s, t);
    KeyIs(s, t);
    if k.StartBasic? || k == EndBasic(false) { ThreadStepKeys(s, s', t, s'.threads[t]); }
    else {
      TableStays(s.jobs, s.sh.idemp, j, s'.jobs[j]);
      JobStepKeys(s, s', t, j, s'.threads[t], s'.jobs[j]);
    }
  }

  lemma PreparesKeys(s: Pool, s': Pool, t: Tid, k: PrepareStep)
    requires Owned(s) && Keys(s) && Prepares(s, s', t, k)
    ensures Keys(s')
  {
    hide Owned, Keys, Table;
    var j := s.threads[t].j;
    JobInHand(s, t);
    KeyIs(s, t);
    if k == AcquireKey { ThreadStepKeys(s, s', t, s'.threads[t]); }
    else {
      TableStays(s.jobs, s.sh.idemp, j, s'.jobs[j]);
      JobStepKeys(s, s', t, j, s'.threads[t], s'.jobs[j]);
    }
  }

  lemma ReservesKeys(s: Pool, s': Pool, t: Tid, k: ReserveStep)
    requires Owned(s) && Keys(s) && Reserves(s, s', t, k)
    ensures Keys(s')
  {
    hide Owned, Keys, Table, Handed, Reserve, Truncated;
    var j := s.threads[t].j;
    JobInHand(s, t);
    KeyIs(s, t);
    if k == ReserveRate { ThreadStepKeys(s, s', t, s'.threads[t]); }
    else {
      TableStays(s.jobs, s.sh.idemp, j, s'.jobs[j]);
      JobStepKeys(s, s', t, j, s'.threads[t], s'.jobs[j]);
    }
  }

  lemma ConcludesKeys(s: Pool, s': Pool, t: Tid, k: ConcludeStep)
    requires Owned(s) && Keys(s) && Concludes(s, s', t, k)
    ensures Keys(s')
  {
    hide Owned, Keys, Table;
    var j := s.threads[t].j;
    JobInHand(s, t);
    KeyIs(s, t);
    if k.Succeed? || k.Fail? { ThreadStepKeys(s, s', t, s'.threads[t]); }
    else {
      TableStays(s.jobs, s.sh.idemp, j, s'.jobs[j]);
      JobStepKeys(s, s', t, j, s'.threads[t], s'.jobs[j]);
    }
  }

  lemma PutsBackKeys(c: Config, s: Pool, s': Pool, t: Tid, k: PutStep)
    requires Owned(s) && Keys(s) && PutsBack(c, s, s', t, k)
    ensures Keys(s')
  {
    hide Owned, Keys, Table, HeapFull;
    var j := s.threads[t].j;
    JobInHand(s, t);
    KeyIs(s, t);
    if k == Refuse { ThreadStepKeys(s, s', t, s'.threads[t]); }
    else {
      if k == Bury {
        TableLoses(s.jobs, s.sh.idemp, j, s'.jobs[j]);
      } else {
        TableStays(s.jobs, s.sh.idemp, j, s'.jobs[j]);
      }
      JobStepKeys(s, s', t, j, s'.threads[t], s'.jobs[j]);
    }
  }

  lemma LeavesKeys(s: Pool, s': Pool, t: Tid)
    requires Owned(s) && Keys(s) && Leaves(s, s', t)
    ensures Keys(s')
  {
    hide Owned, Keys, Table;
    var j := s.threads[t].j;
    KeyIs(s, t);
    if s.threads[t].Releasing? { ThreadStepKeys(s, s', t, s'.threads[t]); }
    else {
      TableLoses(s.jobs, s.sh.idemp, j, s'.jobs[j]);
      JobStepKeys(s, s', t, j, s'.threads[t], s'.jobs[j]);
    }
  }

  lemma BeginsKeys(c: Config, s: Pool, s': Pool, t: Tid, j: JobId, o: Opts)
    requires Owned(s) && Keys(s) && Begins(c, s, s', t, j, o)
    ensures Keys(s')
  {
    hide Owned, Table, Normalized;
    TableStays(s.jobs, s.sh.idemp, j, s'.jobs[j]);
    JobStepKeys(s, s', t, j, s'.threads[t], s'.jobs[j]);
  }

  lemma EvictedKeys(s: Pool, t: Tid, e: Item)
    requires Owned(s) && Keys(s) && t in s.threads && s.threads[t].Submit? && s.threads[t].j in s.jobs
    requires IsAt(s.jobs, e.value, InHeap) && IsAt(s.jobs, s.threads[t].j, Held(t))
    ensures Keys(Midway(s, t, e))
  {
    hide Owned, Table;
    var mid := Midway(s, t, e);
    assert JobKey(s.jobs[e.value]) && ThreadKey(s.jobs, s.threads[t]);
    hide Keys;
    TableStays(s.jobs, s.sh.idemp, e.value, mid.jobs[e.value]);
    JobStepKeys(s, mid, t, e.value, s.threads[t], mid.jobs[e.value]);
  }

  lemma EvictsKeys(c: Config, s: Pool, s': Pool, t: Tid, e: Item)
    requires Owned(s) && Keys(s) && Submits(c, s, s', t, PushEvicting(e))
    ensures Keys(s')
  {
    hide Owned, Table;
    MidwayOwned(c, s, s', t, e);
    hide Submits;
    var (j, mid) := (s.threads[t].j, Midway(s, t, e));
    assert JobKey(s.jobs[j]) && ThreadKey(s.jobs, s.threads[t]);
    hide Keys;
    EvictedKeys(s, t, e);
    TableStays(mid.jobs, s.sh.idemp, j, s'.jobs[j]);
    JobStepKeys(mid, s', t, j, Accepting(j), s'.jobs[j]);
  }

  lemma TakesKey(c: Config, s: Pool, s': Pool, t: Tid)
    requires Owned(s) && Keys(s) && Submits(c, s, s', t, TakeKey)
    ensures Keys(s')
  {
    hide Owned, Keys, Table;
    var j := s.threads[t].j;
    JobInHand(s, t);
    KeyIs(s, t);
    TableGains(s.jobs, s.sh.idemp, j, s'.jobs[j]);
    JobStepKeys(s, s', t, j, s'.threads[t], s'.jobs[j]);
  }

  /** What the other steps of a submit do to its job and its program counter. */
  lemma SubmitKept(c: Config, s: Pool, s': Pool, t: Tid, k: SubmitStep)
    requires Submits(c, s, s', t, k) && k != TakeKey && !k.PushEvicting? && !k.AdmitRate?
    ensures var (j, u) := (s.threads[t].j, s.threads[t].u);
            && j in s'.jobs && t in s'.threads && Touches(s, s', t, j, s'.threads[t], s'.jobs[j])
            && var (job, job', pc') := (s.jobs[j], s'.jobs[j], s'.threads[t]);
            && s'.sh.idemp == s.sh.idemp && job'.opts == job.opts && job'.track.keyHeld == job.track.keyHeld
            && if u == Creating then pc'.Submit? && pc'.j == j && (pc'.u == FastPush || pc'.u == HeapPush)
              && job'.track.place == job.track.place
               else
                 && !pc'.Unkeying? && Hands(pc') == [] && !pc'.Replay? && !pc'.ReplayTake?
                 && (job'.track.place == Gone(Rejected) || (job'.track.place == InBasic && u == BasicPush)
                     || (job'.track.place in {InFast, InHeap, InSpill} && Admitted(u)))
  {
    hide Reserve, FirstRunAt, UseFastQueue, HeapFull, SpillRefuses;
  }

  /** The job and the submitter after such a step. */
  lemma SubmittedKeys(jobs: Jobs, j: JobId, job': Job, u: SubmitPc, pc': Pc)
    requires j in jobs && JobKey(jobs[j]) && ThreadKey(jobs, Submit(j, u)) && jobs[j].track.place.Held?
    requires job'.opts == jobs[j].opts && job'.track.keyHeld == jobs[j].track.keyHeld
    requires if u == Creating then
               && pc'.Submit? && pc'.j == j && (pc'.u == FastPush || pc'.u == HeapPush)
               && job'.track.place == jobs[j].track.place
             else
               && !pc'.Unkeying? && Hands(pc') == [] && !pc'.Replay?
               && (job'.track.place == Gone(Rejected) || (job'.track.place == InBasic && u == BasicPush)
                   || (job'.track.place in {InFast, InHeap, InSpill} && Admitted(u)))
    ensures JobKey(job') && ThreadKey(jobs[j := job'], pc') && !pc'.Unkeying? && job'.track.place != Gone(Succeeded)
  {
  }

  lemma SubmitsKeys(c: Config, s: Pool, s': Pool, t: Tid, k: SubmitStep)
    requires Owned(s) && Keys(s) && Submits(c, s, s', t, k)
    ensures Keys(s')
  {
    hide Owned, Keys, Table;
    if k.PushEvicting? { EvictsKeys(c, s, s', t, k.e); return; }
    if k == TakeKey { TakesKey(c, s, s', t); return; }
    var j := s.threads[t].j;
    JobInHand(s, t);
    KeyIs(s, t);
    if k.AdmitRate? { ThreadStepKeys(s, s', t, s'.threads[t]); return; }
    SubmitKept(c, s, s', t, k);
    hide Submits;
    KeyOf(s, j);
    SubmittedKeys(s.jobs, j, s'.jobs[j], s.threads[t].u, s'.threads[t]);
    hide JobKey, ThreadKey, Admitted;
    TableStays(s.jobs, s.sh.idemp, j, s'.jobs[j]);
    JobStepKeys(s, s', t, j, s'.threads[t], s'.jobs[j]);
  }

  /** Jobs keep their options and their keys; only dead ones may move, to be purged or, without a
      key, anywhere. */
  ghost predicate KeepRecords(jobs: Jobs, jobs': Jobs) {
    && jobs'.Keys == jobs.Keys
    && forall j | j in jobs ::
         && jobs'[j].opts == jobs[j].opts && jobs'[j].track.keyHeld == jobs[j].track.keyHeld
         && (jobs'[j].track.place == jobs[j].track.place
             || (jobs[j].track.place == InDead
                 && (jobs'[j].track.place == Gone(Purged) || (Keyless(jobs, j) && jobs'[j].track.place.Held?))))
  }

  /** Threads that deal with jobs stay where they are, or come to hold jobs without keys. */
  ghost predicate KeepThreads(s: Pool, s': Pool) {
    && (forall u | u in s'.threads ::
          || (u in s.threads && s'.threads[u] == s.threads[u])
          || s'.threads[u].Life? || s'.threads[u] == Idle || s'.threads[u] == Loop(Top)
          || (s'.threads[u].Replay? && forall j | j in s'.threads[u].items :: Keyless(s.jobs, j)))
    && (forall u | u in s.threads && s.threads[u].Unkeying? :: u in s'.threads && s'.threads[u] == s.threads[u])
  }

  lemma KeptTable(jobs: Jobs, jobs': Jobs, idemp: map<Key, JobId>)
    requires Table(jobs, idemp) && KeepRecords(jobs, jobs')
    ensures Table(jobs', idemp)
  {
  }

  lemma KeptJob(jobs: Jobs, jobs': Jobs, j: JobId)
    requires KeepRecords(jobs, jobs') && j in jobs && JobKey(jobs[j])
    ensures JobKey(jobs'[j])
  {
  }

  lemma KeptThread(jobs: Jobs, jobs': Jobs, pc: Pc)
    requires KeepRecords(jobs, jobs') && ThreadKey(jobs, pc)
    ensures ThreadKey(jobs', pc)
  {
  }

  lemma SameKeys(s: Pool, s': Pool)
    requires Keys(s) && s'.sh.idemp == s.sh.idemp && KeepRecords(s.jobs, s'.jobs) && KeepThreads(s, s')
    ensures Keys(s')
  {
    KeptTable(s.jobs, s'.jobs, s.sh.idemp);
    hide Table;
    forall j | j in s'.jobs ensures JobKey(s'.jobs[j]) { KeptJob(s.jobs, s'.jobs, j); }
    hide JobKey;
    forall u | u in s'.threads ensures ThreadKey(s'.jobs, s'.threads[u]) {
      assert ThreadKey(s.jobs, s'.threads[u]);
      KeptThread(s.jobs, s'.jobs, s'.threads[u]);
    }
    hide ThreadKey;
    forall i | i in s'.jobs && s'.jobs[i].track.place == Gone(Succeeded) && s'.jobs[i].track.keyHeld
      ensures AboutToUnkey(s'.threads, i)
    {
      var u :| u in s.threads && s.threads[u] == Unkeying(i);
    }
  }

  lemma OutsideKeys(s: Pool, s': Pool, k: EnvStep)
    requires Keys(s) && Outside(s, s', k)
    ensures Keys(s')
  {
    hide Keys;
    SameKeys(s, s');
  }

  lemma NoRecordChanges(jobs: Jobs)
    ensures KeepRecords(jobs, jobs)
  {
  }

  lemma CallsKeys(s: Pool, s': Pool, t: Tid, k: CallStep)
    requires Keys(s) && Calls(s, s', t, k)
    ensures Keys(s')
  {
    hide Keys, KeepRecords;
    NoRecordChanges(s.jobs);
    SameKeys(s, s');
  }

  lemma LivesKeep(c: Config, s: Pool, s': Pool, t: Tid, k: LifeStep)
    requires Staffed(c, s) && Lives(c, s, s', t, k)
    ensures KeepThreads(s, s') && s'.jobs == s.jobs && s'.sh == s.sh
  {
    LivesFrame(c, s, s', t, k);
    hide Lives, Staffed;
  }

  lemma LivesKeys(c: Config, s: Pool, s': Pool, t: Tid, k: LifeStep)
    requires Keys(s) && Staffed(c, s) && Lives(c, s, s', t, k)
    ensures Keys(s')
  {
    hide Keys, KeepRecords, KeepThreads, Lives;
    LivesKeep(c, s, s', t, k);
    NoRecordChanges(s.jobs);
    SameKeys(s, s');
  }

  /** Whoever takes the dead list finds no job with a key on it. */
  predicate DeadKeyless(s: Pool) {
    forall j | j in s.q.dead :: Keyless(s.jobs, j)
  }

  /** The dead list is emptied, without a key being touched. */
  lemma MovedRecords(s: Pool, p: Place)
    requires Owned(s) && (p == Gone(Purged) || (p.Held? && DeadKeyless(s)))
    ensures KeepRecords(s.jobs, Moved(s.jobs, s.q.dead, p))
  {
    forall j: JobId ensures j in s.q.dead <==> IsAt(s.jobs, j, InDead) { DeadIsDead(s, j); }
    hide Owned;
  }

  lemma TakesDeadKeys(s: Pool, s': Pool, t: Tid)
    requires Owned(s) && Keys(s) && TakesDead(s, s', t) && DeadKeyless(s)
    ensures Keys(s')
  {
    MovedRecords(s, Held(t));
    hide Owned, Keys, KeepRecords, Moved;
    SameKeys(s, s');
  }

  lemma PurgesKeys(s: Pool, s': Pool)
    requires Owned(s) && Keys(s) && Purges(s, s')
    ensures Keys(s')
  {
    MovedRecords(s, Gone(Purged));
    hide Owned, Keys, KeepRecords, Moved;
    SameKeys(s, s');
  }

  lemma TailKeyless(jobs: Jobs, items: seq<JobId>)
    requires items != [] && forall j | j in items :: Keyless(jobs, j)
    ensures Keyless(jobs, items[0]) && forall j | j in items[1..] :: Keyless(jobs, j)
  {
  }

  /** What a replay does to the job it works on, and to what it has left. */
  lemma ReplayKept(c: Config, s: Pool, s': Pool, t: Tid, k: ReplayStep)
    requires Replays(c, s, s', t, k) && !k.PushFails? && !k.CountReplay?
    ensures var items := s.threads[t].items;
            && items != [] && items[0] in s.jobs && items[0] in s'.jobs && t in s'.threads
            && Touches(s, s', t, items[0], s'.threads[t], s'.jobs[items[0]]) && s'.sh.idemp == s.sh.idemp
            && s'.threads[t].Replay? && (s'.threads[t].items == items || s'.threads[t].items == items[1..])
            && s'.jobs[items[0]].opts == s.jobs[items[0]].opts
            && s'.jobs[items[0]].track.keyHeld == s.jobs[items[0]].track.keyHeld
            && (s'.jobs[items[0]].track.place in {s.jobs[items[0]].track.place, InHeap, InDead})
  {
    hide HeapFull;
  }

  lemma KeylessJob(job: Job, job': Job)
    requires JobKey(job) && job.opts.idempotency == NO_KEY && job'.opts == job.opts
             && job'.track.keyHeld == job.track.keyHeld
    ensures JobKey(job') && !job'.track.keyHeld
  {
  }

  /** A replay works on jobs without keys only. */
  lemma ReplaysKeys(c: Config, s: Pool, s': Pool, t: Tid, k: ReplayStep)
    requires Owned(s) && Keys(s) && Replays(c, s, s', t, k)
    ensures Keys(s')
  {
    hide Keys, Table, HeapFull, JobKey, QueueAt, HandsAt, HeapAt;
    KeyIs(s, t);
    if k.PushFails? || k.CountReplay? { ThreadStepKeys(s, s', t, s'.threads[t]); return; }
    ReplayKept(c, s, s', t, k);
    hide Replays;
    var items := s.threads[t].items;
    var (j, job') := (items[0], s'.jobs[items[0]]);
    ReplayInHand(s, t);
    hide Owned;
    TailKeyless(s.jobs, items);
    KeyOf(s, j);
    KeylessJob(s.jobs[j], job');
    TableStays(s.jobs, s.sh.idemp, j, job');
    KeylessItems(s.jobs, j, job', s'.threads[t].items);
    hide Keyless;
    JobStepKeys(s, s', t, j, s'.threads[t], job');
  }

  lemma KeylessItems(jobs: Jobs, j: JobId, job': Job, items: seq<JobId>)
    requires j in jobs && job'.opts == jobs[j].opts && forall i | i in items :: Keyless(jobs, i)
    ensures forall i | i in items :: Keyless(jobs[j := job'], i)
  {
  }

  lemma KeyOf(s: Pool, j: JobId)
    requires Keys(s) && j in s.jobs
    ensures JobKey(s.jobs[j])
  {
  }

  lemma StepKeys(c: Config, s: Pool, s': Pool, t: Tid, step: Step)
    requires Owned(s) && Staffed(c, s) && Keys(s) && Next(c, s, s', t, step) && (step == TakeDead ==> DeadKeyless(s))
    ensures Keys(s')
  {
    hide Owned, Keys, Staffed, Takes, RunsBasic, Prepares, Reserves, Concludes, PutsBack, Submits, Replays, Lives,
      Calls;
    hide Leaves, Begins, Control, Outside, Moved, DeadKeyless, TakesDead, Purges;
    if t in s.threads { KeyIs(s, t); }
    match step
    case Moves(pc) => ControlKeys(c, s, s', t, pc);
    case Taking(k) => TakesKeys(s, s', t, k);
    case Basics(k) => RunsBasicKeys(s, s', t, k);
    case Preparing(k) => PreparesKeys(s, s', t, k);
    case Reserving(k) => ReservesKeys(s, s', t, k);
    case Concluding(k) => ConcludesKeys(s, s', t, k);
    case Putting(k) => PutsBackKeys(c, s, s', t, k);
    case Leaving => LeavesKeys(s, s', t);
    case Beginning(j, o) => BeginsKeys(c, s, s', t, j, o);
    case Submitting(k) => SubmitsKeys(c, s, s', t, k);
    case Accept => ThreadStepKeys(s, s', t, s'.threads[t]);
    case TakeDead => TakesDeadKeys(s, s', t);
    case Purge => PurgesKeys(s, s');
    case Replaying(k) => ReplaysKeys(c, s, s', t, k);
    case Calling(k) => CallsKeys(s, s', t, k);
    case Living(k) => LivesKeys(c, s, s', t, k);
    case Environment(k) => OutsideKeys(s, s', k);
  }

  /** Every replay finds only jobs without an idempotency key on the dead list. */
  ghost predicate KeylessReplays(states: seq<Pool>, events: seq<Event>) {
    |states| == |events| + 1 && forall i | 0 <= i < |events| && events[i].step == TakeDead :: DeadKeyless(states[i])
  }

  lemma InitKeys(c: Config, s: Pool)
    requires Init(c, s)
    ensures Keys(s)
  {
  }

  lemma {:induction false} RunKeys(c: Config, states: seq<Pool>, events: seq<Event>, i: nat)
    requires IsRun(c, states, events) && KeylessReplays(states, events) && i < |states|
    ensures Keys(states[i])
  {
    hide Next, Init, Keys, Owned, Staffed, DeadKeyless;
    if i == 0 {
      InitKeys(c, states[0]);
    } else {
      var s, s', t, step := states[i - 1], states[i], events[i - 1].t, events[i - 1].step;
      assert Next(c, s, s', t, step);
      RunKeys(c, states, events, i - 1);
      RunOwned(c, states, events, i - 1);
      RunStaffed(c, states, events, i - 1);
      StepKeys(c, s, s', t, step);
    }
  }

  // ---- Main results ----

  /** A job past the duplicate test that has not finished: queued, or in the hands of a worker or
      of its submitter. */
  predicate Live(s: Pool, j: JobId) {
    && j in s.jobs
    && match s.jobs[j].track.place
       case InFast => true
       case InSpill => true
       case InHeap => true
       case Held(t) => t in s.threads && (s.threads[t].Exec? || (s.threads[t].Submit? && Admitted(s.threads[t].u)))
       case _ => false
  }

  /** If replays find only jobs without a key, two live jobs never share an idempotency key. */
  lemma OneLiveJobPerKey(c: Config, states: seq<Pool>, events: seq<Event>, i: nat, j: JobId, k: JobId)
    requires IsRun(c, states, events) && KeylessReplays(states, events) && i < |states|
    requires Live(states[i], j) && Live(states[i], k)
             && states[i].jobs[j].opts.idempotency == states[i].jobs[k].opts.idempotency != NO_KEY
    ensures j == k
  {
    hide Next;
    RunKeys(c, states, events, i);
    RunOwned(c, states, events, i);
    LiveHolds(states[i], j);
    LiveHolds(states[i], k);
  }

  lemma LiveHolds(s: Pool, j: JobId)
    requires Keys(s) && Owned(s) && Live(s, j) && s.jobs[j].opts.idempotency != NO_KEY
    ensures s.jobs[j].opts.idempotency in s.sh.idemp && s.sh.idemp[s.jobs[j].opts.idempotency] == j
  {
    if s.jobs[j].track.place.Held? {
      var t := s.jobs[j].track.place.t;
      assert QueueAt(s.jobs, HandsOf(s.threads, t), Held(t));
      assert multiset(HandsOf(s.threads, t))[j] == 1;
      assert ThreadKey(s.jobs, s.threads[t]);
    } else {
      assert JobKey(s.jobs[j]);
    }
  }
}

/** Conservation and single ownership: in every reachable state each job is in exactly one place. */
module PoolOwnership {
  import opened Futures
  import opened KeyedSemaphore
  import opened TokenBucket
  import opened PoolProtocol
  import opened PoolThreads

  /** The jobs in a thread's hands at a program counter. */
  function Hands(pc: Pc): seq<JobId> {
    if pc.Basic? || pc.Exec? || pc.Submit? then [pc.j] else if pc.Replay? then pc.items else []
  }

  type Jobs = map<JobId, Job>

  /** Whether job j is at place p. */
  predicate IsAt(jobs: Jobs, j: JobId, p: Place) {
    j in jobs && jobs[j].track.place == p
  }

  /** The queue lists the jobs at place p, each once, and nothing else. */
  ghost predicate QueueAt(jobs: Jobs, q: seq<JobId>, p: Place) {
    forall j: JobId :: multiset(q)[j] == One(IsAt(jobs, j, p))
  }

  function HandsOf(threads: map<Tid, Pc>, t: Tid): seq<JobId> {
    if t in threads then Hands(threads[t]) else []
  }

  ghost predicate HandsAt(jobs: Jobs, threads: map<Tid, Pc>) {
    forall t :: QueueAt(jobs, HandsOf(threads, t), Held(t))
  }

  /** The heap holds one item per job at InHeap: the item that job stands for now, so that its
      RunAt is the job's runAt. */
  ghost predicate HeapAt(jobs: Jobs, heap: multiset<Item>) {
    forall it: Item :: heap[it] == One(IsAt(jobs, it.value, InHeap) && it == QueueItem(it.value, jobs[it.value]))
  }

  ghost predicate Owned(s: Pool) {
    && QueueAt(s.jobs, s.q.basic, InBasic) && QueueAt(s.jobs, s.q.fast, InFast)
    && QueueAt(s.jobs, s.q.spill, InSpill) && QueueAt(s.jobs, s.q.dead, InDead)
    && HandsAt(s.jobs, s.threads) && HeapAt(s.jobs, s.q.heap)
  }

  // ---- One job changes its record and perhaps its place ----

  lemma QueueStays(jobs: Jobs, j: JobId, job': Job, q: seq<JobId>, p: Place)
    requires QueueAt(jobs, q, p) && (IsAt(jobs, j, p) <==> job'.track.place == p)
    ensures QueueAt(jobs[j := job'], q, p)
  {
    forall x: JobId ensures multiset(q)[x] == One(IsAt(jobs[j := job'], x, p)) {
      assert multiset(q)[x] == One(IsAt(jobs, x, p));
    }
  }

  lemma QueueGains(jobs: Jobs, j: JobId, job': Job, q: seq<JobId>, p: Place)
    requires QueueAt(jobs, q, p) && !IsAt(jobs, j, p) && job'.track.place == p
    ensures QueueAt(jobs[j := job'], q + [j], p)
  {
    forall x: JobId ensures multiset(q + [j])[x] == One(IsAt(jobs[j := job'], x, p)) {
      assert multiset(q)[x] == One(IsAt(jobs, x, p));
    }
  }

  lemma QueueLoses(jobs: Jobs, job': Job, q: seq<JobId>, p: Place)
    requires QueueAt(jobs, q, p) && q != [] && job'.track.place != p
    ensures IsAt(jobs, q[0], p) && QueueAt(jobs[q[0] := job'], q[1..], p)
  {
    assert q == [q[0]] + q[1..];
    assert multiset(q)[q[0]] == 1 + multiset(q[1..])[q[0]];
    assert multiset(q)[q[0]] == One(IsAt(jobs, q[0], p));
    forall x: JobId ensures multiset(q[1..])[x] == One(IsAt(jobs[q[0] := job'], x, p)) {
      assert multiset(q)[x] == One(IsAt(jobs, x, p));
    }
  }

  lemma HeapStays(jobs: Jobs, j: JobId, job': Job, heap: multiset<Item>)
    requires HeapAt(jobs, heap) && !IsAt(jobs, j, InHeap) && job'.track.place != InHeap
    ensures HeapAt(jobs[j := job'], heap)
  {
    var jobs' := jobs[j := job'];
    forall it: Item
      ensures heap[it] == One(IsAt(jobs', it.value, InHeap) && it == QueueItem(it.value, jobs'[it.value]))
    {
      assert heap[it] == One(IsAt(jobs, it.value, InHeap) && it == QueueItem(it.value, jobs[it.value]));
    }
  }

  lemma HeapGains(jobs: Jobs, j: JobId, job': Job, heap: multiset<Item>)
    requires HeapAt(jobs, heap) && !IsAt(jobs, j, InHeap) && job'.track.place == InHeap
    ensures HeapAt(jobs[j := job'], heap + multiset{QueueItem(j, job')})
  {
    var jobs', heap' := jobs[j := job'], heap + multiset{QueueItem(j, job')};
    forall it: Item
      ensures heap'[it] == One(IsAt(jobs', it.value, InHeap) && it == QueueItem(it.value, jobs'[it.value]))
    {
      assert heap[it] == One(IsAt(jobs, it.value, InHeap) && it == QueueItem(it.value, jobs[it.value]));
    }
  }

  lemma HeapLoses(jobs: Jobs, job': Job, heap: multiset<Item>, gone: Item)
    requires HeapAt(jobs, heap) && gone in heap && job'.track.place != InHeap
    ensures IsAt(jobs, gone.value, InHeap) && gone == QueueItem(gone.value, jobs[gone.value])
    ensures HeapAt(jobs[gone.value := job'], heap - multiset{gone})
  {
    assert heap[gone] == One(IsAt(jobs, gone.value, InHeap) && gone == QueueItem(gone.value, jobs[gone.value]));
    var jobs', heap' := jobs[gone.value := job'], heap - multiset{gone};
    forall it: Item
      ensures heap'[it] == One(IsAt(jobs', it.value, InHeap) && it == QueueItem(it.value, jobs'[it.value]))
    {
      assert heap[it] == One(IsAt(jobs, it.value, InHeap) && it == QueueItem(it.value, jobs[it.value]));
    }
  }

  /** Job j moves within, into or out of t's hands; everybody else's hands stay. */
  lemma HandsMove(jobs: Jobs, j: JobId, job': Job, threads: map<Tid, Pc>, t: Tid, pc': Pc)
    requires HandsAt(jobs, threads) && QueueAt(jobs[j := job'], Hands(pc'), Held(t))
    requires forall u | u != t :: job'.track.place != Held(u) && !IsAt(jobs, j, Held(u))
    ensures HandsAt(jobs[j := job'], threads[t := pc'])
  {
    forall u ensures QueueAt(jobs[j := job'], HandsOf(threads[t := pc'], u), Held(u)) {
      assert QueueAt(jobs, HandsOf(threads, u), Held(u));
      if u != t {
        QueueStays(jobs, j, job', HandsOf(threads, u), Held(u));
      }
    }
  }

  /** What is in t's hands is at Held(t), and t holds nothing else. */
  lemma InHand(jobs: Jobs, threads: map<Tid, Pc>, t: Tid, j: JobId)
    requires HandsAt(jobs, threads) && HandsOf(threads, t) == [j]
    ensures j in jobs && jobs[j].track.place == Held(t)
    ensures QueueAt(jobs, [j], Held(t))
  {
    assert QueueAt(jobs, HandsOf(threads, t), Held(t));
    assert multiset([j])[j] == 1;
  }

  /** A step of t that moves no job. */
  lemma ThreadOwned(s: Pool, s': Pool, t: Tid)
    requires Owned(s) && s'.q == s.q && s'.jobs == s.jobs && t in s'.threads
    requires s'.threads == s.threads[t := s'.threads[t]]
    requires Hands(s'.threads[t]) == HandsOf(s.threads, t)
    ensures Owned(s')
  {
    forall u ensures QueueAt(s'.jobs, HandsOf(s'.threads, u), Held(u)) {
      assert QueueAt(s.jobs, HandsOf(s.threads, u), Held(u));
    }
  }

  /** A record changes but the job stays where it is, and its queue item, if any, stays the same. */
  lemma RecordOwned(s: Pool, s': Pool, j: JobId)
    requires Owned(s) && s'.q == s.q && j in s.jobs && j in s'.jobs && s'.jobs == s.jobs[j := s'.jobs[j]]
    requires s'.jobs[j].track.place == s.jobs[j].track.place
    requires s.jobs[j].track.place == InHeap ==> QueueItem(j, s'.jobs[j]) == QueueItem(j, s.jobs[j])
    requires forall u :: HandsOf(s'.threads, u) == HandsOf(s.threads, u)
    ensures Owned(s')
  {
    forall p: Place, q: seq<JobId> | QueueAt(s.jobs, q, p) ensures QueueAt(s'.jobs, q, p) {
      forall x: JobId ensures multiset(q)[x] == One(IsAt(s'.jobs, x, p)) {
        assert multiset(q)[x] == One(IsAt(s.jobs, x, p));
      }
    }
    forall it: Item
      ensures s.q.heap[it] == One(IsAt(s'.jobs, it.value, InHeap) && it == QueueItem(it.value, s'.jobs[it.value]))
    {
      assert s.q.heap[it] == One(IsAt(s.jobs, it.value, InHeap) && it == QueueItem(it.value, s.jobs[it.value]));
    }
    assert HandsAt(s'.jobs, s'.threads);
  }

  /** What every step of t on one job looks like. */
  predicate Touches(s: Pool, s': Pool, t: Tid, j: JobId, pc': Pc, job': Job) {
    s'.jobs == s.jobs[j := job'] && s'.threads == s.threads[t := pc']
  }

  /** The queue for place p is neither where j was nor where it goes. */
  predicate Untouched(jobs: Jobs, j: JobId, job': Job, p: Place, q: seq<JobId>, q': seq<JobId>) {
    q' == q && !IsAt(jobs, j, p) && job'.track.place != p
  }

  lemma OnlyOne(j: JobId)
    ensures [j][1..] == []
  {
  }

  /** A step on one job keeps ownership if it does so in the containers it touches. */
  lemma MoveOwned(s: Pool, s': Pool, t: Tid, j: JobId, pc': Pc, job': Job)
    requires Owned(s) && Touches(s, s', t, j, pc', job')
    requires Untouched(s.jobs, j, job', InBasic, s.q.basic, s'.q.basic) || QueueAt(s'.jobs, s'.q.basic, InBasic)
    requires Untouched(s.jobs, j, job', InFast, s.q.fast, s'.q.fast) || QueueAt(s'.jobs, s'.q.fast, InFast)
    requires Untouched(s.jobs, j, job', InSpill, s.q.spill, s'.q.spill) || QueueAt(s'.jobs, s'.q.spill, InSpill)
    requires Untouched(s.jobs, j, job', InDead, s.q.dead, s'.q.dead) || QueueAt(s'.jobs, s'.q.dead, InDead)
    requires (s'.q.heap == s.q.heap && !IsAt(s.jobs, j, InHeap) && job'.track.place != InHeap)
             || HeapAt(s'.jobs, s'.q.heap)
    requires QueueAt(s'.jobs, Hands(pc'), Held(t))
    requires forall u | u != t :: job'.track.place != Held(u) && !IsAt(s.jobs, j, Held(u))
    ensures Owned(s')
  {
    hide QueueAt, HandsAt, HeapAt;
    if !QueueAt(s'.jobs, s'.q.basic, InBasic) { QueueStays(s.jobs, j, job', s.q.basic, InBasic); }
    if !QueueAt(s'.jobs, s'.q.fast, InFast) { QueueStays(s.jobs, j, job', s.q.fast, InFast); }
    if !QueueAt(s'.jobs, s'.q.spill, InSpill) { QueueStays(s.jobs, j, job', s.q.spill, InSpill); }
    if !QueueAt(s'.jobs, s'.q.dead, InDead) { QueueStays(s.jobs, j, job', s.q.dead, InDead); }
    if !HeapAt(s'.jobs, s'.q.heap) { HeapStays(s.jobs, j, job', s.q.heap); }
    HandsMove(s.jobs, j, job', s.threads, t, pc');
  }

  /** A job in t's hands stays there, or is gone afterwards. */
  lemma HandOwned(s: Pool, s': Pool, t: Tid, j: JobId, pc': Pc, job': Job)
    requires Owned(s) && s'.q == s.q && HandsOf(s.threads, t) == [j] && Touches(s, s', t, j, pc', job')
    requires (job'.track.place == Held(t) && Hands(pc') == [j]) || (job'.track.place.Gone? && Hands(pc') == [])
    ensures Owned(s')
  {
    hide QueueAt, HandsAt, HeapAt;
    InHand(s.jobs, s.threads, t, j);
    OnlyOne(j);
    if job'.track.place.Gone? {
      QueueLoses(s.jobs, job', [j], Held(t));
    } else {
      QueueStays(s.jobs, j, job', [j], Held(t));
    }
    MoveOwned(s, s', t, j, pc', job');
  }

  /** A job goes from t's hands to the end of a queue or into the heap. */
  lemma GiveOwned(s: Pool, s': Pool, t: Tid, j: JobId, pc': Pc, job': Job)
    requires Owned(s) && HandsOf(s.threads, t) == [j] && Touches(s, s', t, j, pc', job') && Hands(pc') == []
    requires match job'.track.place
      case InBasic => s'.q == s.q.(basic := s.q.basic + [j])
      case InFast => s'.q == s.q.(fast := s.q.fast + [j])
      case InSpill => s'.q == s.q.(spill := s.q.spill + [j])
      case InDead => s'.q == s.q.(dead := s.q.dead + [j])
      case InHeap => s'.q == s.q.(heap := s.q.heap + multiset{QueueItem(j, job')})
      case _ => false
    ensures Owned(s')
  {
    hide QueueAt, HandsAt, HeapAt;
    InHand(s.jobs, s.threads, t, j);
    OnlyOne(j);
    QueueLoses(s.jobs, job', [j], Held(t));
    match job'.track.place
    case InBasic => QueueGains(s.jobs, j, job', s.q.basic, InBasic); MoveOwned(s, s', t, j, pc', job');
    case InFast => QueueGains(s.jobs, j, job', s.q.fast, InFast); MoveOwned(s, s', t, j, pc', job');
    case InSpill => QueueGains(s.jobs, j, job', s.q.spill, InSpill); MoveOwned(s, s', t, j, pc', job');
    case InDead => QueueGains(s.jobs, j, job', s.q.dead, InDead); MoveOwned(s, s', t, j, pc', job');
    case InHeap => HeapGains(s.jobs, j, job', s.q.heap); MoveOwned(s, s', t, j, pc', job');
    case _ =>
  }

  /** Empty hands close on a job that was at another place. */
  lemma GraspHand(jobs: Jobs, threads: map<Tid, Pc>, t: Tid, j: JobId, job': Job)
    requires HandsAt(jobs, threads) && HandsOf(threads, t) == [] && job'.track.place == Held(t)
             && !IsAt(jobs, j, Held(t))
    ensures QueueAt(jobs[j := job'], [j], Held(t))
  {
    QueueGains(jobs, j, job', [], Held(t));
    assert [] + [j] == [j];
  }

  /** Where the job was that a worker takes. */
  lemma TakenFrom(s: Pool, s': Pool, t: Tid, k: TakeStep)
    requires Owned(s) && Takes(s, s', t, k)
    ensures var j := s'.threads[t].j;
            j in s.jobs && match k
                           case TakeBasic => s.jobs[j].track.place == InBasic
                           case TakeFast => s.jobs[j].track.place == InFast
                           case TakeSpill => s.jobs[j].track.place == InSpill
                           case TakeHeap(it) => s.jobs[j].track.place == InHeap && it == QueueItem(j, s.jobs[j])
  {
    hide QueueAt, HeapAt, HandsAt;
    var j := s'.threads[t].j;
    match k {
      case TakeBasic => QueueLoses(s.jobs, s'.jobs[j], s.q.basic, InBasic);
      case TakeFast => QueueLoses(s.jobs, s'.jobs[j], s.q.fast, InFast);
      case TakeSpill => QueueLoses(s.jobs, s'.jobs[j], s.q.spill, InSpill);
      case TakeHeap(it) => HeapLoses(s.jobs, s'.jobs[j], s.q.heap, it);
    }
  }

  lemma TakesOwned(s: Pool, s': Pool, t: Tid, w: TakeStep)
    requires Owned(s) && Takes(s, s', t, w)
    ensures Owned(s')
  {
    hide QueueAt, HandsAt, HeapAt;
    var pc' := s'.threads[t];
    var j := pc'.j;
    var job' := s'.jobs[j];
    match w {
    case TakeBasic => QueueLoses(s.jobs, job', s.q.basic, InBasic); GraspHand(s.jobs, s.threads, t, j, job');
    case TakeFast => QueueLoses(s.jobs, job', s.q.fast, InFast); GraspHand(s.jobs, s.threads, t, j, job');
    case TakeSpill => QueueLoses(s.jobs, job', s.q.spill, InSpill); GraspHand(s.jobs, s.threads, t, j, job');
    case TakeHeap(it) => HeapLoses(s.jobs, job', s.q.heap, it); GraspHand(s.jobs, s.threads, t, j, job');
    }
    MoveOwned(s, s', t, j, pc', job');
  }

  lemma RunsBasicOwned(s: Pool, s': Pool, t: Tid, k: BasicStep)
    requires Owned(s) && RunsBasic(s, s', t, k)
    ensures Owned(s')
  {
    hide Owned;
    var j := s.threads[t].j;
    match k
    case StartBasic => ThreadOwned(s, s', t);
    case EndBasic(ok) => if ok { HandOwned(s, s', t, j, Loop(Top), s'.jobs[j]); } else { ThreadOwned(s, s', t); }
    case CountBasic => HandOwned(s, s', t, j, Loop(Top), s'.jobs[j]);
  }

  /** In execute and submit the job is held by the thread. */
  lemma JobInHand(s: Pool, t: Tid)
    requires Owned(s) && t in s.threads && (s.threads[t].Exec? || s.threads[t].Submit? || s.threads[t].Basic?)
    ensures s.threads[t].j in s.jobs && s.jobs[s.threads[t].j].track.place == Held(t)
  {
    InHand(s.jobs, s.threads, t, s.threads[t].j);
  }

  /** What is in somebody's hands is there alone. */
  lemma HandsApart(s: Pool, u: Tid, j: JobId)
    requires Owned(s) && j in HandsOf(s.threads, u)
    ensures IsAt(s.jobs, j, Held(u))
  {
    assert QueueAt(s.jobs, HandsOf(s.threads, u), Held(u));
    assert multiset(HandsOf(s.threads, u))[j] == One(IsAt(s.jobs, j, Held(u)));
  }

  /** The dead list is what it claims to be. */
  lemma DeadIsDead(s: Pool, j: JobId)
    requires Owned(s)
    ensures j in s.q.dead <==> IsAt(s.jobs, j, InDead)
  {
    assert multiset(s.q.dead)[j] == One(IsAt(s.jobs, j, InDead));
  }

  lemma PreparesOwned(s: Pool, s': Pool, t: Tid, k: PrepareStep)
    requires Owned(s) && Prepares(s, s', t, k)
    ensures Owned(s')
  {
    hide Owned;
    JobInHand(s, t);
    var j := s.threads[t].j;
    if k == AcquireKey { ThreadOwned(s, s', t); } else { HandOwned(s, s', t, j, s'.threads[t], s'.jobs[j]); }
  }

  lemma ReservesOwned(s: Pool, s': Pool, t: Tid, k: ReserveStep)
    requires Owned(s) && Reserves(s, s', t, k)
    ensures Owned(s')
  {
    hide Owned, Handed, Reserve, Truncated;
    JobInHand(s, t);
    var j := s.threads[t].j;
    if k == ReserveRate { ThreadOwned(s, s', t); } else { HandOwned(s, s', t, j, s'.threads[t], s'.jobs[j]); }
  }

  lemma ConcludesOwned(s: Pool, s': Pool, t: Tid, k: ConcludeStep)
    requires Owned(s) && Concludes(s, s', t, k)
    ensures Owned(s')
  {
    hide Owned;
    JobInHand(s, t);
    var j := s.threads[t].j;
    if k.Succeed? || k.Fail? { ThreadOwned(s, s', t); } else { HandOwned(s, s', t, j, s'.threads[t], s'.jobs[j]); }
  }

  lemma PutsBackOwned(c: Config, s: Pool, s': Pool, t: Tid, k: PutStep)
    requires Owned(s) && PutsBack(c, s, s', t, k)
    ensures Owned(s')
  {
    hide Owned, HeapFull;
    var j := s.threads[t].j;
    match k
    case Refuse => ThreadOwned(s, s', t);
    case RequeueOk => GiveOwned(s, s', t, j, s'.threads[t], At(s.jobs[j], InHeap));
    case Bury => GiveOwned(s, s', t, j, s'.threads[t], s'.jobs[j]);
  }

  lemma LeavesOwned(s: Pool, s': Pool, t: Tid)
    requires Owned(s) && Leaves(s, s', t)
    ensures Owned(s')
  {
    hide Owned;
    if s.threads[t].Unkeying? { RecordOwned(s, s', s.threads[t].j); } else { ThreadOwned(s, s', t); }
  }

  lemma ControlOwned(c: Config, s: Pool, s': Pool, t: Tid, pc': Pc)
    requires Owned(s) && Control(c, s, s', t, pc')
    ensures Owned(s')
  {
    hide Owned, LoopMoves, ExecMoves, SubmitMoves;
    ThreadOwned(s, s', t);
  }

  lemma BeginsOwned(c: Config, s: Pool, s': Pool, t: Tid, j: JobId, o: Opts)
    requires Owned(s) && Begins(c, s, s', t, j, o)
    ensures Owned(s')
  {
    hide QueueAt, HandsAt, HeapAt, Normalized;
    GraspHand(s.jobs, s.threads, t, j, s'.jobs[j]);
    MoveOwned(s, s', t, j, Submit(j, Entered), s'.jobs[j]);
  }

  /** Eviction is two moves in one step; this is the state between them. */
  function Midway(s: Pool, t: Tid, e: Item): Pool
    requires e.value in s.jobs && t in s.threads
  {
    s.(jobs := s.jobs[e.value := At(s.jobs[e.value], Gone(Evicted))], q := s.q.(heap := s.q.heap - multiset{e}),
       threads := s.threads[t := s.threads[t]])
  }

  lemma MidwayOwned(c: Config, s: Pool, s': Pool, t: Tid, e: Item)
    requires Owned(s) && Submits(c, s, s', t, PushEvicting(e))
    ensures Owned(Midway(s, t, e)) && IsAt(s.jobs, e.value, InHeap) && IsAt(s.jobs, s.threads[t].j, Held(t))
    ensures s.threads[t] == Submit(s.threads[t].j, HeapPush) && EvictsFrom(s, Midway(s, t, e), s', t)
  {
    hide QueueAt, HandsAt, HeapAt, HeapFull, EvictsFrom;
    var j := s.threads[t].j;
    var out := At(s.jobs[e.value], Gone(Evicted));
    EvictsInTwo(c, s, s', t, e);
    InHand(s.jobs, s.threads, t, j);
    HeapLoses(s.jobs, out, s.q.heap, e);
    hide Submits;
    QueueStays(s.jobs, e.value, out, [j], Held(t));
    MoveOwned(s, Midway(s, t, e), t, e.value, s.threads[t], out);
  }

  /** The second of the two moves: the new job goes into the heap. */
  ghost predicate EvictsFrom(s: Pool, mid: Pool, s': Pool, t: Tid) {
    && t in s.threads && s.threads[t].Submit? && s.threads[t].j in s.jobs
    && var j := s.threads[t].j;
       && Touches(mid, s', t, j, Accepting(j), At(s.jobs[j], InHeap))
       && s'.q == mid.q.(heap := mid.q.heap + multiset{QueueItem(j, s.jobs[j])})
       && s' == mid.(jobs := s'.jobs, threads := s'.threads, q := s'.q)
  }

  lemma EvictsInTwo(c: Config, s: Pool, s': Pool, t: Tid, e: Item)
    requires Submits(c, s, s', t, PushEvicting(e))
    ensures EvictsFrom(s, Midway(s, t, e), s', t)
  {
    hide HeapFull;
  }

  lemma EvictOwned(c: Config, s: Pool, s': Pool, t: Tid, e: Item)
    requires Owned(s) && Submits(c, s, s', t, PushEvicting(e))
    ensures Owned(s')
  {
    MidwayOwned(c, s, s', t, e);
    hide Owned, Submits;
    var j := s.threads[t].j;
    GiveOwned(Midway(s, t, e), s', t, j, Accepting(j), At(s.jobs[j], InHeap));
  }

  lemma SubmitsOwned(c: Config, s: Pool, s': Pool, t: Tid, k: SubmitStep)
    requires Owned(s) && Submits(c, s, s', t, k)
    ensures Owned(s')
  {
    hide Owned, Reserve, FirstRunAt, UseFastQueue, HeapFull, SpillRefuses;
    JobInHand(s, t);
    var j := s.threads[t].j;
    match k
    case PushBasic => GiveOwned(s, s', t, j, Accepting(j), At(s.jobs[j], InBasic));
    case PushFast => GiveOwned(s, s', t, j, Accepting(j), At(s.jobs[j], InFast));
    case PushHeap => GiveOwned(s, s', t, j, Accepting(j), At(s.jobs[j], InHeap));
    case Spill => GiveOwned(s, s', t, j, Accepting(j), At(s.jobs[j], InSpill));
    case PushEvicting(e) => EvictOwned(c, s, s', t, e);
    case AdmitRate => ThreadOwned(s, s', t);
    case _ => HandOwned(s, s', t, j, s'.threads[t], s'.jobs[j]);
  }

  // ---- Dead letters: one job out of several in hand, or all of them at once ----

  lemma ReplayInHand(s: Pool, t: Tid)
    requires Owned(s) && t in s.threads && s.threads[t].Replay?
    ensures QueueAt(s.jobs, s.threads[t].items, Held(t))
    ensures s.threads[t].items != [] ==> IsAt(s.jobs, s.threads[t].items[0], Held(t))
  {
    var items := s.threads[t].items;
    assert QueueAt(s.jobs, HandsOf(s.threads, t), Held(t));
    assert items != [] ==> multiset(items)[items[0]] == One(IsAt(s.jobs, items[0], Held(t)));
  }

  lemma ReplaysOwned(c: Config, s: Pool, s': Pool, t: Tid, k: ReplayStep)
    requires Owned(s) && Replays(c, s, s', t, k)
    ensures Owned(s')
  {
    hide QueueAt, HandsAt, HeapAt, HeapFull;
    ReplayInHand(s, t);
    var items := s.threads[t].items;
    match k
    case PushFails => ThreadOwned(s, s', t);
    case CountReplay => ThreadOwned(s, s', t);
    case Reset =>
      QueueStays(s.jobs, items[0], s'.jobs[items[0]], items, Held(t));
      MoveOwned(s, s', t, items[0], s'.threads[t], s'.jobs[items[0]]);
    case PushBack =>
      var job' := At(s.jobs[items[0]], InHeap);
      QueueLoses(s.jobs, job', items, Held(t));
      HeapGains(s.jobs, items[0], job', s.q.heap);
      MoveOwned(s, s', t, items[0], s'.threads[t], job');
    case Keep =>
      var job' := At(s.jobs[items[0]], InDead);
      QueueLoses(s.jobs, job', items, Held(t));
      QueueGains(s.jobs, items[0], job', s.q.dead, InDead);
      MoveOwned(s, s', t, items[0], s'.threads[t], job');
  }

  /** All of `listed`, which is what is at place p, moves to place p': queues elsewhere stay. */
  lemma ListMoves(jobs: Jobs, listed: seq<JobId>, p: Place, p': Place, q: seq<JobId>, at: Place)
    requires QueueAt(jobs, listed, p) && QueueAt(jobs, q, at) && at != p && at != p'
    ensures QueueAt(Moved(jobs, listed, p'), q, at)
  {
    forall x: JobId ensures multiset(q)[x] == One(IsAt(Moved(jobs, listed, p'), x, at)) {
      assert multiset(q)[x] == One(IsAt(jobs, x, at)) && multiset(listed)[x] == One(IsAt(jobs, x, p));
    }
  }

  /** The list is what is at p' now, where nothing was before, and p is empty. */
  lemma ListArrives(jobs: Jobs, listed: seq<JobId>, p: Place, p': Place)
    requires QueueAt(jobs, listed, p) && p != p'
    ensures QueueAt(Moved(jobs, listed, p'), [], p)
    ensures QueueAt(jobs, [], p') ==> QueueAt(Moved(jobs, listed, p'), listed, p')
  {
    var jobs' := Moved(jobs, listed, p');
    forall x: JobId ensures multiset([])[x] == One(IsAt(jobs', x, p)) {
      assert multiset(listed)[x] == One(IsAt(jobs, x, p));
    }
    if QueueAt(jobs, [], p') {
      forall x: JobId ensures multiset(listed)[x] == One(IsAt(jobs', x, p')) {
        assert multiset([])[x] == One(IsAt(jobs, x, p')) && multiset(listed)[x] == One(IsAt(jobs, x, p));
      }
    }
  }

  lemma ListLeavesHeap(jobs: Jobs, listed: seq<JobId>, p: Place, p': Place, heap: multiset<Item>)
    requires QueueAt(jobs, listed, p) && HeapAt(jobs, heap) && p != InHeap && p' != InHeap
    ensures HeapAt(Moved(jobs, listed, p'), heap)
  {
    var jobs' := Moved(jobs, listed, p');
    forall it: Item
      ensures heap[it] == One(IsAt(jobs', it.value, InHeap) && it == QueueItem(it.value, jobs'[it.value]))
    {
      assert heap[it] == One(IsAt(jobs, it.value, InHeap) && it == QueueItem(it.value, jobs[it.value]));
      assert multiset(listed)[it.value] == One(IsAt(jobs, it.value, p));
    }
  }

  /** Emptying the dead list moves its jobs to p', into t's hands or away. */
  lemma DeadMoves(s: Pool, s': Pool, t: Tid, pc': Pc, p': Place)
    requires Owned(s) && s'.q == s.q.(dead := []) && s'.jobs == Moved(s.jobs, s.q.dead, p')
    requires s'.threads == s.threads[t := pc'] && HandsOf(s.threads, t) == []
    requires (p' == Held(t) && Hands(pc') == s.q.dead) || (p'.Gone? && Hands(pc') == [])
    ensures Owned(s')
  {
    hide QueueAt, HeapAt;
    ListMoves(s.jobs, s.q.dead, InDead, p', s.q.basic, InBasic);
    ListMoves(s.jobs, s.q.dead, InDead, p', s.q.fast, InFast);
    ListMoves(s.jobs, s.q.dead, InDead, p', s.q.spill, InSpill);
    ListArrives(s.jobs, s.q.dead, InDead, p');
    ListLeavesHeap(s.jobs, s.q.dead, InDead, p', s.q.heap);
    forall u ensures QueueAt(s'.jobs, HandsOf(s'.threads, u), Held(u)) {
      assert QueueAt(s.jobs, HandsOf(s.threads, u), Held(u));
      if p' != Held(u) { ListMoves(s.jobs, s.q.dead, InDead, p', HandsOf(s.threads, u), Held(u)); }
    }
  }

  lemma PurgesOwned(s: Pool, s': Pool)
    requires Owned(s) && Purges(s, s')
    ensures Owned(s')
  {
    hide QueueAt, HeapAt;
    var p' := Gone(Purged);
    ListMoves(s.jobs, s.q.dead, InDead, p', s.q.basic, InBasic);
    ListMoves(s.jobs, s.q.dead, InDead, p', s.q.fast, InFast);
    ListMoves(s.jobs, s.q.dead, InDead, p', s.q.spill, InSpill);
    ListArrives(s.jobs, s.q.dead, InDead, p');
    ListLeavesHeap(s.jobs, s.q.dead, InDead, p', s.q.heap);
    forall u ensures QueueAt(s'.jobs, HandsOf(s'.threads, u), Held(u)) {
      assert QueueAt(s.jobs, HandsOf(s.threads, u), Held(u));
      ListMoves(s.jobs, s.q.dead, InDead, p', HandsOf(s.threads, u), Held(u));
    }
  }

  /** Threads that come, go or move without a job leave ownership alone. */
  lemma HandsSame(s: Pool, s': Pool)
    requires Owned(s) && s'.q == s.q && s'.jobs == s.jobs
    requires forall u :: HandsOf(s'.threads, u) == HandsOf(s.threads, u)
    ensures Owned(s')
  {
    forall u ensures QueueAt(s'.jobs, HandsOf(s'.threads, u), Held(u)) {
      assert QueueAt(s.jobs, HandsOf(s.threads, u), Held(u));
    }
  }

  lemma LivesOwned(c: Config, s: Pool, s': Pool, t: Tid, k: LifeStep)
    requires Owned(s) && Staffed(c, s) && Lives(c, s, s', t, k)
    ensures Owned(s')
  {
    hide Owned, WaitOver;
    HandsSame(s, s');
  }

  lemma CallsOwned(s: Pool, s': Pool, t: Tid, k: CallStep)
    requires Owned(s) && Calls(s, s', t, k)
    ensures Owned(s')
  {
    hide Owned;
    HandsSame(s, s');
  }

  lemma OutsideOwned(s: Pool, s': Pool, k: EnvStep)
    requires Owned(s) && Outside(s, s', k)
    ensures Owned(s')
  {
    hide QueueAt, HeapAt, HandsAt;
    if k.CancelJob? || k.CancelFuture? { RecordOwned(s, s', k.j); }
  }

  lemma TakesDeadOwned(s: Pool, s': Pool, t: Tid)
    requires Owned(s) && TakesDead(s, s', t)
    ensures Owned(s')
  {
    hide Owned, Moved;
    DeadMoves(s, s', t, Replay(s.q.dead, ReplayLoop), Held(t));
  }

  lemma StepOwned(c: Config, s: Pool, s': Pool, t: Tid, step: Step)
    requires Owned(s) && Staffed(c, s) && Next(c, s, s', t, step)
    ensures Owned(s')
  {
    hide Owned, Staffed, Takes, RunsBasic, Prepares, Reserves, Concludes, PutsBack, Submits, Replays, Lives, Calls;
    hide Leaves, Begins, TakesDead, Control, Purges, Outside;
    match step
    case Moves(pc) => ControlOwned(c, s, s', t, pc);
    case Taking(k) => TakesOwned(s, s', t, k);
    case Basics(k) => RunsBasicOwned(s, s', t, k);
    case Preparing(k) => PreparesOwned(s, s', t, k);
    case Reserving(k) => ReservesOwned(s, s', t, k);
    case Concluding(k) => ConcludesOwned(s, s', t, k);
    case Putting(k) => PutsBackOwned(c, s, s', t, k);
    case Leaving => LeavesOwned(s, s', t);
    case Beginning(j, o) => BeginsOwned(c, s, s', t, j, o);
    case Submitting(k) => SubmitsOwned(c, s, s', t, k);
    case Accept => ThreadOwned(s, s', t);
    case TakeDead => TakesDeadOwned(s, s', t);
    case Purge => PurgesOwned(s, s');
    case Replaying(k) => ReplaysOwned(c, s, s', t, k);
    case Calling(k) => CallsOwned(s, s', t, k);
    case Living(k) => LivesOwned(c, s, s', t, k);
    case Environment(k) => OutsideOwned(s, s', k);
  }

  lemma InitOwned(c: Config, s: Pool)
    requires Init(c, s)
    ensures Owned(s)
  {
  }

  lemma {:induction false} RunOwned(c: Config, states: seq<Pool>, events: seq<Event>, i: nat)
    requires IsRun(c, states, events) && i < |states|
    ensures Owned(states[i])
  {
    hide Next, Init, Owned, Staffed;
    if i == 0 {
      InitOwned(c, states[0]);
    } else {
      var s, s', t, step := states[i - 1], states[i], events[i - 1].t, events[i - 1].step;
      assert Next(c, s, s', t, step);
      RunOwned(c, states, events, i - 1);
      RunStaffed(c, states, events, i - 1);
      StepOwned(c, s, s', t, step);
    }
  }

  // ---- Main results ----

  /** One slot that can hold a job. */
  datatype Site =
    | BasicSlot(i: nat) | FastSlot(i: nat) | SpillSlot(i: nat) | DeadSlot(i: nat) | HeapSlot(it: Item, copy: nat)
                | HandSlot(t: Tid, i: nat)

  predicate Lists(q: seq<JobId>, i: nat, j: JobId) {
    i < |q| && q[i] == j
  }

  /** Slot x holds job j. It speaks of the containers and the threads only. */
  ghost predicate Holds(s: Pool, x: Site, j: JobId) {
    match x
    case BasicSlot(i) => Lists(s.q.basic, i, j)
    case FastSlot(i) => Lists(s.q.fast, i, j)
    case SpillSlot(i) => Lists(s.q.spill, i, j)
    case DeadSlot(i) => Lists(s.q.dead, i, j)
    case HeapSlot(it, copy) => it.value == j && copy < s.q.heap[it]
    case HandSlot(t, i) => Lists(HandsOf(s.threads, t), i, j)
  }

  /** The place a slot belongs to. */
  function PlaceOf(x: Site): Place {
    match x
    case BasicSlot(_) => InBasic case FastSlot(_) => InFast case SpillSlot(_) => InSpill
    case DeadSlot(_) => InDead case HeapSlot(_, _) => InHeap case HandSlot(t, _) => Held(t)
  }

  lemma ListedOnce(jobs: Jobs, q: seq<JobId>, p: Place, i: nat, j: JobId)
    requires QueueAt(jobs, q, p) && Lists(q, i, j)
    ensures IsAt(jobs, j, p) && forall k: nat | Lists(q, k, j) :: k == i
  {
    assert multiset(q)[j] == One(IsAt(jobs, j, p));
    forall k: nat | Lists(q, k, j) ensures k == i {
      if k != i { TwiceListed(q, if i < k then i else k, if i < k then k else i); }
    }
  }

  lemma TwiceListed(q: seq<JobId>, i: nat, k: nat)
    requires i < k < |q| && q[i] == q[k]
    ensures multiset(q)[q[i]] >= 2
  {
    assert q == q[..i] + [q[i]] + q[i + 1..k] + [q[k]] + q[k + 1..];
  }

  /** Where a slot holds a job, that is the job's place, and the slot is the only one there. */
  lemma HoldsAt(s: Pool, x: Site, j: JobId)
    requires Owned(s) && Holds(s, x, j)
    ensures IsAt(s.jobs, j, PlaceOf(x))
    ensures forall y: Site | Holds(s, y, j) && PlaceOf(y) == PlaceOf(x) :: y == x
  {
    hide QueueAt, HeapAt;
    match x
    case BasicSlot(i) => ListedOnce(s.jobs, s.q.basic, InBasic, i, j);
    case FastSlot(i) => ListedOnce(s.jobs, s.q.fast, InFast, i, j);
    case SpillSlot(i) => ListedOnce(s.jobs, s.q.spill, InSpill, i, j);
    case DeadSlot(i) => ListedOnce(s.jobs, s.q.dead, InDead, i, j);
    case HandSlot(t, i) => ListedOnce(s.jobs, HandsOf(s.threads, t), Held(t), i, j);
    case HeapSlot(it, copy) => HeapOnce(s.jobs, s.q.heap, it);
  }

  lemma HeapOnce(jobs: Jobs, heap: multiset<Item>, it: Item)
    requires HeapAt(jobs, heap) && it in heap
    ensures IsAt(jobs, it.value, InHeap) && heap[it] == 1
    ensures forall y: Item | y in heap && y.value == it.value :: y == it
  {
    assert heap[it] == One(IsAt(jobs, it.value, InHeap) && it == QueueItem(it.value, jobs[it.value]));
    forall y: Item | y in heap && y.value == it.value ensures y == it {
      assert heap[y] == One(IsAt(jobs, y.value, InHeap) && y == QueueItem(y.value, jobs[y.value]));
    }
  }

  lemma IsListed(jobs: Jobs, q: seq<JobId>, p: Place, j: JobId) returns (i: nat)
    requires QueueAt(jobs, q, p) && IsAt(jobs, j, p)
    ensures Lists(q, i, j)
  {
    assert multiset(q)[j] == One(IsAt(jobs, j, p));
    assert j in q;
    i :| 0 <= i < |q| && q[i] == j;
  }

  /** The slot that holds a job that is not gone. */
  lemma SlotOf(s: Pool, j: JobId) returns (x: Site)
    requires Owned(s) && j in s.jobs && !s.jobs[j].track.place.Gone?
    ensures Holds(s, x, j) && PlaceOf(x) == s.jobs[j].track.place
  {
    hide QueueAt;
    match s.jobs[j].track.place
    case InBasic => var i := IsListed(s.jobs, s.q.basic, InBasic, j); x := BasicSlot(i);
    case InFast => var i := IsListed(s.jobs, s.q.fast, InFast, j); x := FastSlot(i);
    case InSpill => var i := IsListed(s.jobs, s.q.spill, InSpill, j); x := SpillSlot(i);
    case InDead => var i := IsListed(s.jobs, s.q.dead, InDead, j); x := DeadSlot(i);
    case Held(t) => var i := IsListed(s.jobs, HandsOf(s.threads, t), Held(t), j); x := HandSlot(t, i);
    case InHeap =>
      var it := QueueItem(j, s.jobs[j]);
      assert s.q.heap[it] == One(IsAt(s.jobs, it.value, InHeap) && it == QueueItem(it.value, s.jobs[it.value]));
      x := HeapSlot(it, 0);
  }

  /** Conservation: in every reachable state each job ever submitted fills exactly one slot of
      the queues, the heap, the spill, the dead list or a thread's hands if it is still live, and
      none once it has succeeded, been cancelled, evicted, purged or rejected. So no job runs on
      two workers, none is duplicated, and none is lost, through replays and evictions alike. */
  lemma Conservation(c: Config, states: seq<Pool>, events: seq<Event>, i: nat, j: JobId)
    requires IsRun(c, states, events) && i < |states| && j in states[i].jobs
    ensures !states[i].jobs[j].track.place.Gone? ==>
              exists x :: Holds(states[i], x, j) && forall y | Holds(states[i], y, j) :: y == x
    ensures states[i].jobs[j].track.place.Gone? ==> forall x :: !Holds(states[i], x, j)
  {
    RunOwned(c, states, events, i);
    var s := states[i];
    forall y | Holds(s, y, j) ensures PlaceOf(y) == s.jobs[j].track.place {
      HoldsAt(s, y, j);
    }
    if !s.jobs[j].track.place.Gone? {
      var x := SlotOf(s, j);
      HoldsAt(s, x, j);
    }
  }
}

/** ReplayDeadLetters and PurgeDeadLetters of dlq.go, as one caller alone with the pool sees them. */
module DeadLetters {
  import opened Options
  import PQ = PriorityQueue

  datatype ReplayError = Closed | QueueFull

  class QueuedJob {
    const seqno: nat
    const priority: int
    var attempt: nat
    var runAt: int

    constructor (seqno: nat, priority: int, attempt: nat, runAt: int)
      ensures this.seqno == seqno && this.priority == priority && this.attempt == attempt && this.runAt == runAt
    {
      this.seqno, this.priority, this.attempt, this.runAt := seqno, priority, attempt, runAt;
    }
  }

  type Item = PQ.Item<QueuedJob>

  function Entry(j: QueuedJob, at: int): Item {
    PQ.Item(j, j.priority, j.seqno, at)
  }

  /** The queue items of jobs replayed one after another, the i-th at times[i]. */
  function Entries(jobs: seq<QueuedJob>, times: seq<int>): multiset<Item>
    requires |jobs| <= |times|
  {
    if jobs == [] then multiset{}
    else Entries(jobs[..|jobs| - 1], times) + multiset{Entry(jobs[|jobs| - 1], times[|jobs| - 1])}
  }

  /** How many of n pushes a queue takes. */
  function Room(q: PQ.Queue<QueuedJob>, n: nat): nat {
    if q.closed then 0
    else if q.capacity <= 0 || q.capacity - |q.items| >= n then n
    else if q.capacity <= |q.items| then 0
    else q.capacity - |q.items|
  }

  lemma {:induction false} EntriesCount(jobs: seq<QueuedJob>, times: seq<int>)
    requires |jobs| <= |times|
    ensures |Entries(jobs, times)| == |jobs|
  {
    if jobs != [] {
      EntriesCount(jobs[..|jobs| - 1], times);
    }
  }

  /** The push after i others succeeds exactly when there is room for one more. */
  lemma RoomStep(q: PQ.Queue<QueuedJob>, i: nat, taken: multiset<Item>)
    requires |taken| == Room(q, i)
    ensures !q.closed && !PQ.Full(q.(items := q.items + taken)) <==> Room(q, i + 1) == Room(q, i) + 1
    ensures Room(q, i + 1) > Room(q, i) <==> !q.closed && (q.capacity <= 0 || |q.items| + Room(q, i) < q.capacity)
    ensures Room(q, i + 1) == Room(q, i) || (Room(q, i + 1) == Room(q, i) + 1 && Room(q, i) == i)
  {
  }

  lemma EntriesExtend(jobs: seq<QueuedJob>, i: nat, times: seq<int>, base: multiset<Item>)
    requires i < |jobs| <= |times|
    ensures base + Entries(jobs[..i + 1], times)
            == base + Entries(jobs[..i], times) + multiset{Entry(jobs[i], times[i])}
  {
    assert jobs[..i + 1][..i] == jobs[..i];
  }

  lemma SliceGrows(jobs: seq<QueuedJob>, from: nat, i: nat)
    requires from <= i < |jobs|
    ensures jobs[from..i + 1] == jobs[from..i] + [jobs[i]] && jobs[i + 1..i + 1] == [] && jobs[i..i] == []
  {
  }

  /** Every replayed job gets an item that carries its own options. */
  lemma {:induction false} EntriesAre(jobs: seq<QueuedJob>, times: seq<int>, it: Item)
    requires |jobs| <= |times|
    ensures it in Entries(jobs, times) <==>
              exists i: nat :: i < |jobs| && it.value == jobs[i] && it.priority == jobs[i].priority
                               && it.seqno == jobs[i].seqno && it.runAt == times[i]
  {
    if jobs != [] {
      var n := |jobs| - 1;
      EntriesAre(jobs[..n], times, it);
      assert forall i: nat | i < n :: jobs[..n][i] == jobs[i];
    }
  }

  ghost predicate Distinct(jobs: seq<QueuedJob>) {
    forall i, j | 0 <= i < j < |jobs| :: jobs[i] != jobs[j]
  }

  lemma Apart(jobs: seq<QueuedJob>, i: nat)
    requires Distinct(jobs) && i < |jobs|
    ensures forall k | 0 <= k < i :: jobs[k] != jobs[i]
  {
  }

  lemma DistinctTails(jobs: seq<QueuedJob>)
    requires Distinct(jobs)
    ensures forall i | 0 <= i <= |jobs| :: Distinct(jobs[i..|jobs|])
  {
  }

  ghost predicate Renewed(jobs: seq<QueuedJob>, times: seq<int>, n: nat)
    requires n <= |jobs| && n <= |times|
    reads jobs
  {
    forall i | 0 <= i < n :: jobs[i].attempt == 0 && jobs[i].runAt == times[i]
  }

  /** The first i jobs are dealt with: as many pushed as there was room for, the rest listed. */
  ghost predicate Dealt(before: PQ.Queue<QueuedJob>, items: seq<QueuedJob>, times: seq<int>, i: nat, accepted: nat,
                        listed: seq<QueuedJob>, view: PQ.Queue<QueuedJob>)
    requires i <= |items| == |times|
  {
    && accepted == Room(before, i) <= i && listed == items[accepted..i]
    && view == before.(items := before.items + Entries(items[..accepted], times))
  }

  lemma Advance(before: PQ.Queue<QueuedJob>, items: seq<QueuedJob>, times: seq<int>, i: nat, accepted: nat,
                listed: seq<QueuedJob>, view: PQ.Queue<QueuedJob>, ok: bool)
    requires i < |items| == |times| && Dealt(before, items, times, i, accepted, listed, view)
    requires ok <==> !view.closed && !PQ.Full(view)
    ensures ok ==> Dealt(before, items, times, i + 1, accepted + 1, listed,
                         view.(items := view.items + multiset{Entry(items[i], times[i])}))
    ensures !ok ==> Dealt(before, items, times, i + 1, accepted, listed + [items[i]], view)
  {
    EntriesCount(items[..accepted], times);
    RoomStep(before, i, Entries(items[..accepted], times));
    EntriesExtend(items, accepted, times, before.items);
    SliceGrows(items, accepted, i);
    hide Entries, Room;
  }

  class DeadLetterQueue {
    var closing: bool  // the pool's state is stopping or later
    var dlq: seq<QueuedJob>
    const q: PQ.PriorityQueue<QueuedJob>

    ghost predicate Valid()
      reads this, q
    {
      q.Valid() && Distinct(dlq)
    }

    constructor (q: PQ.PriorityQueue<QueuedJob>)
      requires q.Valid()
      ensures Valid() && this.q == q && dlq == [] && !closing
    {
      this.q, dlq, closing := q, [], false;
    }

    /** The first jobs go back to the queue as long as it has room, fresh and due at once; the
        others stay listed in their order, and all of them have lost their attempt count. */
    method ReplayDeadLetters(times: seq<int>) returns (accepted: nat, err: Option<ReplayError>)
      requires Valid() && |times| == |dlq|
      modifies this`dlq, q`items, dlq
      ensures Valid()
      ensures old(closing) ==> accepted == 0 && err == Some(Closed) && dlq == old(dlq) && q.View() == old(q.View())
                               && forall j | j in dlq :: j.attempt == old(j.attempt) && j.runAt == old(j.runAt)
      ensures !old(closing) ==>
                && accepted == Room(old(q.View()), |old(dlq)|) <= |old(dlq)| && dlq == old(dlq)[accepted..]
                && q.View() == old(q.View()).(items := old(q.View()).items + Entries(old(dlq)[..accepted], times))
                && Renewed(old(dlq), times, |old(dlq)|)
                && err == (if accepted == |old(dlq)| then None else Some(QueueFull))
    {
      if closing {
        return 0, Some(Closed);
      }
      var items := dlq;
      dlq := [];
      DistinctTails(items);
      accepted := ReplayAll(items, times);
      err := if accepted == |items| then None else Some(QueueFull);
    }

    ghost predicate Done(before: PQ.Queue<QueuedJob>, items: seq<QueuedJob>, times: seq<int>, i: nat, accepted: nat)
      requires i <= |items| == |times|
      reads this, q, items
    {
      q.Valid() && Dealt(before, items, times, i, accepted, dlq, q.View()) && Renewed(items, times, i)
    }

    /** The loop, over the list it took. */
    method ReplayAll(items: seq<QueuedJob>, times: seq<int>) returns (accepted: nat)
      requires q.Valid() && dlq == [] && |times| == |items| && Distinct(items)
      modifies this`dlq, q`items, items
      ensures Done(old(q.View()), items, times, |items|, accepted)
    {
      ghost var before := q.View();
      accepted := 0;
      assert Done(before, items, times, 0, 0);
      hide Done, Distinct;
      for i := 0 to |items|
        invariant Done(before, items, times, i, accepted)
      {
        accepted := ReplayNext(before, items, times, i, accepted);
      }
    }

    method ReplayNext(ghost before: PQ.Queue<QueuedJob>, items: seq<QueuedJob>, times: seq<int>, i: nat, accepted: nat)
      returns (accepted': nat)
      requires i < |items| == |times| && Distinct(items) && Done(before, items, times, i, accepted)
      modifies this`dlq, q`items, items[i]
      ensures Done(before, items, times, i + 1, accepted')
    {
      ghost var (listed, view) := (dlq, q.View());
      Apart(items, i);
      hide Distinct, Dealt;
      var ok := Replay(items[i], times[i]);
      accepted' := if ok then accepted + 1 else accepted;
      Advance(before, items, times, i, accepted, listed, view, ok);
    }

    /** One job is made fresh and pushed, or listed again. */
    method Replay(j: QueuedJob, now: int) returns (ok: bool)
      requires q.Valid()
      modifies j, q`items, this`dlq
      ensures q.Valid() && j.attempt == 0 && j.runAt == now
      ensures ok == (!q.closed && !PQ.Full(old(q.View())))
      ensures q.View() == if ok then old(q.View()).(items := old(q.View()).items + multiset{Entry(j, now)})
              else old(q.View())
      ensures ok ==> multiset(q.items) == old(multiset(q.items)) + multiset{PQ.Item(j, j.priority, j.seqno, now)}
      ensures dlq == if ok then old(dlq) else old(dlq) + [j]
    {
      j.attempt := 0;
      j.runAt := now;
      ok := q.Push(PQ.Item(j, j.priority, j.seqno, j.runAt));
      if !ok {
        dlq := dlq + [j];
      }
    }

    method PurgeDeadLetters() returns (n: nat)
      requires Valid()
      modifies this`dlq
      ensures Valid() && dlq == [] && n == |old(dlq)|
    {
      n := |dlq|;
      dlq := [];
    }
  }
}

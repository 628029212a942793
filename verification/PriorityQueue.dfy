/** The delayed priority queue of queue/priority.go: a binary heap kept in a slice. */
module PriorityQueue {
  import opened Options

  /** Times are nanoseconds on one clock. */
  datatype Item<V> = Item(value: V, priority: int, seqno: nat, runAt: int)

  /** Earlier RunAt first, then higher priority, then lower sequence number. */
  predicate Less<V>(a: Item<V>, b: Item<V>) {
    if a.runAt != b.runAt then a.runAt < b.runAt
    else if a.priority != b.priority then a.priority > b.priority
    else a.seqno < b.seqno
  }

  /** Less is a strict order, total on items with distinct sequence numbers, and "not less" is
      transitive, which is what a heap needs of it. */
  lemma LessIsStrictTotal<V>(a: Item<V>, b: Item<V>, c: Item<V>)
    ensures !Less(a, a)
    ensures Less(a, b) && Less(b, c) ==> Less(a, c)
    ensures Less(a, b) ==> !Less(b, a)
    ensures a.seqno != b.seqno ==> Less(a, b) || Less(b, a)
    ensures !Less(b, a) && !Less(c, b) ==> !Less(c, a)
  {
  }

  /** What a queue means: a bag of items, a capacity (none when not positive), a closed flag. */
  datatype Queue<V(==)> = Queue(items: multiset<Item<V>>, capacity: int, closed: bool)

  predicate Full<V>(q: Queue<V>) {
    q.capacity > 0 && |q.items| >= q.capacity
  }

  ghost predicate IsLeast<V>(it: Item<V>, items: multiset<Item<V>>) {
    it in items && forall x | x in items :: !Less(x, it)
  }

  /** The least item of a bag is due first; of those due with it, it has the highest priority, and
      of those it came first. */
  lemma LeastMeans<V>(it: Item<V>, items: multiset<Item<V>>)
    requires it in items
    ensures IsLeast(it, items) <==> forall x | x in items ::
              x.runAt > it.runAt
              || (x.runAt == it.runAt
                  && (x.priority < it.priority || (x.priority == it.priority && x.seqno >= it.seqno)))
  {
  }

  // ---- Heap order on a slice ----

  function Parent(i: int): int
  {
    (i - 1) / 2
  }

  /** Heap order everywhere except possibly between i and its parent. */
  ghost predicate HeapUp<V>(a: seq<Item<V>>, i: nat) {
    && (forall k | 0 < k < |a| && k != i :: !Less(a[k], a[Parent(k)]))
    && (forall k | 0 < k < |a| && Parent(k) == i && i > 0 :: !Less(a[k], a[Parent(i)]))
  }

  /** Heap order everywhere except possibly between i and its children. */
  ghost predicate HeapDown<V>(a: seq<Item<V>>, i: nat) {
    && (forall k | 0 < k < |a| && Parent(k) != i :: !Less(a[k], a[Parent(k)]))
    && (forall k | 0 < k < |a| && Parent(k) == i && 0 < i < |a| :: !Less(a[k], a[Parent(i)]))
  }

  ghost predicate IsHeap<V>(a: seq<Item<V>>) {
    forall k | 0 < k < |a| :: !Less(a[k], a[Parent(k)])
  }

  lemma {:induction false} RootBelow<V>(a: seq<Item<V>>, k: nat)
    requires IsHeap(a) && k < |a|
    ensures !Less(a[k], a[0])
  {
    if k > 0 {
      RootBelow(a, Parent(k));
      LessIsStrictTotal(a[0], a[Parent(k)], a[k]);
    }
  }

  lemma RootIsLeast<V>(a: seq<Item<V>>)
    requires IsHeap(a) && a != []
    ensures IsLeast(a[0], multiset(a))
  {
    forall x | x in multiset(a) ensures !Less(x, a[0]) {
      var k :| 0 <= k < |a| && a[k] == x;
      RootBelow(a, k);
    }
  }

  function Swap<V>(a: seq<Item<V>>, i: nat, j: nat): (b: seq<Item<V>>)
    requires i < |a| && j < |a|
    ensures |b| == |a| && b[i] == a[j] && b[j] == a[i]
    ensures multiset(b) == multiset(a)
  {
    a[i := a[j]][j := a[i]]
  }

  lemma SwapUp<V>(a: seq<Item<V>>, i: nat)
    requires 0 < i < |a| && HeapUp(a, i) && Less(a[i], a[Parent(i)])
    ensures HeapUp(Swap(a, i, Parent(i)), Parent(i))
  {
    var p := Parent(i);
    var b := Swap(a, i, p);
    forall k | 0 < k < |b| && k != p ensures !Less(b[k], b[Parent(k)]) {
      LessIsStrictTotal(a[i], a[p], a[k]);
    }
    forall k | 0 < k < |b| && Parent(k) == p && p > 0 ensures !Less(b[k], b[Parent(p)]) {
      LessIsStrictTotal(a[Parent(p)], a[p], a[k]);
    }
  }

  lemma SwapDown<V>(a: seq<Item<V>>, i: nat, child: nat)
    requires 0 <= i < |a| && 0 < child < |a| && Parent(child) == i && HeapDown(a, i) && Less(a[child], a[i])
    requires forall k | 0 < k < |a| && Parent(k) == i :: !Less(a[k], a[child])
    ensures HeapDown(Swap(a, i, child), child)
  {
    var b := Swap(a, i, child);
    forall k | 0 < k < |b| && Parent(k) != child ensures !Less(b[k], b[Parent(k)]) {
      LessIsStrictTotal(a[child], a[i], a[k]);
    }
  }

  /** The child the loop picks is not above its sibling. */
  lemma LeastChild<V>(a: seq<Item<V>>, i: nat, child: nat)
    requires 2 * i + 1 < |a|
    requires child == if 2 * i + 2 < |a| && Less(a[2 * i + 2], a[2 * i + 1]) then 2 * i + 2 else 2 * i + 1
    ensures forall k | 0 < k < |a| && Parent(k) == i :: !Less(a[k], a[child])
  {
    forall k | 0 < k < |a| && Parent(k) == i ensures !Less(a[k], a[child]) {
      assert k == 2 * i + 1 || k == 2 * i + 2;
      LessIsStrictTotal(a[k], a[child], a[k]);
    }
  }

  lemma NoLessChild<V>(a: seq<Item<V>>, i: nat, child: nat)
    requires i < |a| && child < |a| && HeapDown(a, i) && !Less(a[child], a[i])
    requires forall k | 0 < k < |a| && Parent(k) == i :: !Less(a[k], a[child])
    ensures IsHeap(a)
  {
    forall k | 0 < k < |a| ensures !Less(a[k], a[Parent(k)]) {
      LessIsStrictTotal(a[i], a[child], a[k]);
    }
  }

  /** out lists, in order, what repeated pops take from a bag. */
  ghost predicate Drains<V>(items: multiset<Item<V>>, out: seq<Item<V>>) {
    if out == [] then items == multiset{}
    else IsLeast(out[0], items) && Drains(items - multiset{out[0]}, out[1..])
  }

  // ---- The queue ----

  class PriorityQueue<V(==)> {
    var items: seq<Item<V>>
    const capacity: int
    var closed: bool

    ghost predicate Valid()
      reads this
    {
      IsHeap(items) && (capacity > 0 ==> |items| <= capacity)
    }

    ghost function View(): Queue<V>
      reads this
    {
      Queue(multiset(items), capacity, closed)
    }

    constructor (capacity: int)
      ensures Valid() && View() == Queue(multiset{}, capacity, false)
    {
      this.capacity := capacity;
      items, closed := [], false;
    }

    method Close()
      requires Valid()
      modifies this`closed
      ensures Valid() && View() == old(View()).(closed := true)
    {
      closed := true;
    }

    /** pq.push: append and sift up. */
    method HeapPush(it: Item<V>)
      requires IsHeap(items)
      modifies this`items
      ensures IsHeap(items) && multiset(items) == old(multiset(items)) + multiset{it}
    {
      var a := items + [it];
      var i := |a| - 1;
      while i > 0
        invariant 0 <= i < |a| && HeapUp(a, i) && multiset(a) == old(multiset(items)) + multiset{it}
      {
        var parent := Parent(i);
        if !Less(a[i], a[parent]) {
          break;
        }
        SwapUp(a, i);
        a := Swap(a, i, parent);
        i := parent;
      }
      items := a;
    }

    /** pq.pop: take the root, move the last item there and sift it down. */
    method HeapPop() returns (out: Item<V>)
      requires IsHeap(items) && items != []
      modifies this`items
      ensures IsHeap(items) && IsLeast(out, old(multiset(items)))
      ensures multiset(items) == old(multiset(items)) - multiset{out}
      ensures forall x | x in old(multiset(items)) ::
                x.runAt > out.runAt
                || (x.runAt == out.runAt
                    && (x.priority < out.priority || (x.priority == out.priority && x.seqno >= out.seqno)))
    {
      RootIsLeast(items);
      LeastMeans(items[0], multiset(items));
      var n := |items| - 1;
      out := items[0];
      var last := items[n];
      assert items == items[..n] + [last];
      var a := items[..n];
      if n > 0 {
        assert a == [out] + a[1..] && a[0 := last] == [last] + a[1..];
        a := SiftDown(a[0 := last]);
      }
      items := a;
    }

    /** Pops to exhaustion, as the workers of an idle pool do once everything is due. */
    method PopAll() returns (out: seq<Item<V>>)
      requires IsHeap(items)
      modifies this`items
      ensures items == [] && Drains(old(multiset(items)), out)
      decreases |items|
    {
      if items == [] {
        return [];
      }
      assert |items| == |multiset(items)|;
      var first := HeapPop();
      assert |items| == |multiset(items)|;
      var rest := PopAll();
      out := [first] + rest;
    }

    static method SiftDown(start: seq<Item<V>>) returns (a: seq<Item<V>>)
      requires start != [] && HeapDown(start, 0)
      ensures IsHeap(a) && multiset(a) == multiset(start)
    {
      a := start;
      var i, n := 0, |a|;
      while true
        invariant 0 <= i < |a| == n && HeapDown(a, i) && multiset(a) == multiset(start)
        decreases n - i
      {
        var left := i * 2 + 1;
        if left >= n {
          break;
        }
        var child := left;
        var right := left + 1;
        if right < n && Less(a[right], a[left]) {
          child := right;
        }
        LeastChild(a, i, child);
        if !Less(a[child], a[i]) {
          NoLessChild(a, i, child);
          break;
        }
        SwapDown(a, i, child);
        a := Swap(a, i, child);
        i := child;
      }
    }

    /** Push refuses when closed or at capacity. */
    method Push(it: Item<V>) returns (ok: bool)
      requires Valid()
      modifies this`items
      ensures Valid() && ok == (!closed && !Full(old(View())))
      ensures ok <==> !closed && (capacity <= 0 || |old(items)| < capacity)
      ensures multiset(items) == old(multiset(items)) + (if ok then multiset{it} else multiset{})
    {
      if closed || (capacity > 0 && |items| >= capacity) {
        return false;
      }
      HeapPush(it);
      assert |items| == |multiset(items)|;
      return true;
    }

    /** DropOldestPush: at capacity the least item is evicted, never the new one. */
    method DropOldestPush(it: Item<V>) returns (ok: bool, ghost evicted: Option<Item<V>>)
      requires Valid()
      modifies this`items
      ensures Valid() && ok == !closed
      ensures evicted.Some? == (ok && Full(old(View())))
      ensures evicted.Some? <==> !closed && capacity > 0 && |old(items)| >= capacity
      ensures evicted.Some? ==> IsLeast(evicted.value, old(multiset(items)))
      ensures evicted.Some? ==> forall x | x in old(multiset(items)) ::
                x.runAt > evicted.value.runAt
                || (x.runAt == evicted.value.runAt
                    && (x.priority < evicted.value.priority
                        || (x.priority == evicted.value.priority && x.seqno >= evicted.value.seqno)))
      ensures multiset(items) ==
        old(multiset(items)) - (if evicted.Some? then multiset{evicted.value} else multiset{})
                             + (if ok then multiset{it} else multiset{})
      ensures ok ==> it in items
    {
      evicted := None;
      if closed {
        return false, None;
      }
      if capacity > 0 && |items| >= capacity {
        var e := HeapPop();
        evicted := Some(e);
        assert |items| == |multiset(items)|;
      }
      HeapPush(it);
      assert |items| == |multiset(items)|;
      assert it in multiset(items);
      ok := true;
    }

    /** TryPop hands out the least item, and only when its RunAt has come. */
    method TryPop(now: int) returns (r: Option<Item<V>>)
      requires Valid()
      modifies this`items
      ensures Valid()
      ensures r.None? ==> items == old(items) && forall x | x in items :: x.runAt > now
      ensures r.Some? ==> r.value.runAt <= now && IsLeast(r.value, old(multiset(items)))
      ensures r.Some? ==> multiset(items) == old(multiset(items)) - multiset{r.value}
      ensures r.Some? ==> forall x | x in old(multiset(items)) ::
                x.runAt > r.value.runAt
                || (x.runAt == r.value.runAt
                    && (x.priority < r.value.priority || (x.priority == r.value.priority && x.seqno >= r.value.seqno)))
    {
      if items != [] {
        RootIsLeast(items);
        assert forall x | x in items :: x in multiset(items);
      }
      if items == [] || items[0].runAt > now {
        return None;
      }
      var it := HeapPop();
      assert |items| == |multiset(items)|;
      return Some(it);
    }
  }

  // ---- What a drain is worth ----

  lemma {:induction false} DrainInOrder<V>(items: multiset<Item<V>>, out: seq<Item<V>>)
    requires Drains(items, out)
    ensures multiset(out) == items
    ensures forall i, j | 0 <= i < j < |out| :: !Less(out[j], out[i])
    decreases |out|
  {
    hide Less;
    if out != [] {
      DrainInOrder(items - multiset{out[0]}, out[1..]);
      assert out == [out[0]] + out[1..];
      forall i, j | 0 <= i < j < |out| ensures !Less(out[j], out[i]) {
        assert out[j] == out[1..][j - 1] && out[j] in multiset(out[1..]);
        if i > 0 {
          assert out[i] == out[1..][i - 1];
        }
      }
    }
  }

  /** Any drain is a sorted permutation of the bag. */
  lemma DrainIsSorted<V>(items: multiset<Item<V>>, out: seq<Item<V>>)
    requires Drains(items, out)
    ensures multiset(out) == items
    ensures forall i, j | 0 <= i < j < |out| ::
              out[j].runAt > out[i].runAt
              || (out[j].runAt == out[i].runAt
                  && (out[j].priority < out[i].priority
                      || (out[j].priority == out[i].priority && out[j].seqno >= out[i].seqno)))
  {
    DrainInOrder(items, out);
    hide Drains;
    forall i, j | 0 <= i < j < |out|
      ensures out[j].runAt > out[i].runAt
              || (out[j].runAt == out[i].runAt
                  && (out[j].priority < out[i].priority
                      || (out[j].priority == out[i].priority && out[j].seqno >= out[i].seqno)))
    {
      assert !Less(out[j], out[i]);
    }
  }

  /** With distinct sequence numbers the order of a drain is determined by the bag alone. */
  lemma {:induction false} DrainIsUnique<V>(items: multiset<Item<V>>, out: seq<Item<V>>, out': seq<Item<V>>)
    requires Drains(items, out) && Drains(items, out')
    requires forall x, y | x in items && y in items && x != y :: x.seqno != y.seqno
    ensures out == out'
    decreases |out|
  {
    if out != [] && out' != [] {
      LessIsStrictTotal(out[0], out'[0], out[0]);
      assert out[0] == out'[0];
      DrainIsUnique(items - multiset{out[0]}, out[1..], out'[1..]);
      assert out == [out[0]] + out[1..] && out' == [out'[0]] + out'[1..];
    }
  }
}

/** The bounded blocking queue of queue/fifo.go. */
module Fifo {
  import opened Options

  /** What a FIFO means: the queued values, oldest first, its capacity, and whether it is closed. */
  datatype Queue<T> = Queue(items: seq<T>, capacity: nat, closed: bool)

  /** The outcome of one mutex-protected push: refused when closed or full. */
  function Offer<T>(q: Queue<T>, v: T): (Queue<T>, bool) {
    if q.closed || |q.items| >= q.capacity then (q, false) else (q.(items := q.items + [v]), true)
  }

  /** The outcome of one mutex-protected pop; a closed queue still hands out what it holds. */
  function Take<T>(q: Queue<T>): (Queue<T>, Option<T>) {
    if q.items == [] then (q, None) else (q.(items := q.items[1..]), Some(q.items[0]))
  }

  /** The cell of the i-th value after head in a buffer of n cells. */
  function Cell(head: nat, i: nat, n: nat): (c: nat)
    requires head < n && i <= n
    ensures c < n
  {
    if head + i < n then head + i else head + i - n
  }

  /** The circular buffer. */
  class FIFO<T> {
    const zero: T
    const buf: array<T>
    var head: nat
    var tail: nat
    var len: nat
    var closed: bool

    ghost predicate Valid()
      reads this, buf
    {
      && head < buf.Length && len <= buf.Length && tail == Cell(head, len, buf.Length)
      && forall i | len <= i < buf.Length :: buf[Cell(head, i, buf.Length)] == zero
    }

    ghost function View(): Queue<T>
      reads this, buf
      requires Valid()
    {
      Queue(seq(len, i requires 0 <= i < len reads this, buf requires Valid() => buf[Cell(head, i, buf.Length)]),
            buf.Length, closed)
    }

    constructor (capacity: int, zero: T)
      ensures Valid() && fresh(buf)
      ensures View() == Queue([], if capacity <= 0 then 1 else capacity, false)
    {
      var size := if capacity <= 0 then 1 else capacity;
      this.zero := zero;
      buf := new T[size](_ => zero);
      head, tail, len, closed := 0, 0, 0, false;
    }

    method Close()
      requires Valid()
      modifies this`closed
      ensures Valid() && View() == old(View()).(closed := true)
    {
      closed := true;
    }

    /** TryPush, and Push once its wait loop has ended. */
    method TryPush(v: T) returns (ok: bool)
      requires Valid()
      modifies this`tail, this`len, buf
      ensures Valid() && (View(), ok) == Offer(old(View()), v)
      ensures ok <==> !closed && |old(View()).items| < buf.Length
      ensures View().items == old(View()).items + if ok then [v] else []
    {
      if closed || len == buf.Length {
        return false;
      }
      buf[tail] := v;
      tail := tail + 1;
      if tail == buf.Length {
        tail := 0;
      }
      len := len + 1;
      assert View().items == old(View().items) + [v];
      return true;
    }

    /** TryPop, and Pop once its wait loop has ended: whether or not the queue is closed, it hands
        out the oldest value if there is one. The emptied cell is cleared. */
    method TryPop() returns (r: Option<T>)
      requires Valid()
      modifies this`head, this`len, buf
      ensures Valid() && (View(), r) == Take(old(View()))
      ensures r.None? <==> old(View()).items == []
      ensures old(View()).items != [] ==> r == Some(old(View()).items[0]) && View().items == old(View()).items[1..]
    {
      if len == 0 {
        return None;
      }
      var v := PopLocked();
      return Some(v);
    }

    method PopLocked() returns (v: T)
      requires Valid() && len > 0
      modifies this`head, this`len, buf
      ensures Valid()
      ensures View() == old(View()).(items := old(View().items[1..])) && v == old(View().items[0])
    {
      v := buf[head];
      buf[head] := zero;
      head := head + 1;
      if head == buf.Length {
        head := 0;
      }
      len := len - 1;
      assert forall i | 0 <= i < buf.Length - 1 :: Cell(head, i, buf.Length) == Cell(old(head), i + 1, buf.Length);
      assert Cell(head, buf.Length - 1, buf.Length) == old(head);
      assert View().items == old(View().items[1..]);
    }
  }
}

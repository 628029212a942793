/** The result future of future.go: a value slot, an error, and a completion that happens once. */
module Futures {
  import opened Options

  datatype Error = Cancelled | QueueFull | JobError(code: int)

  /** done stands for the fired once and the closed channel; cancelled for the job's context. */
  datatype Future<V> = Future(done: bool, value: Option<V>, err: Option<Error>)

  datatype Outcome<V> = Failed(err: Error) | Returned(value: Option<V>)

  function NewFuture<V>(): Future<V> {
    Future(false, None, None)
  }

  /** setValue: written by the running job, whether or not the future is done. */
  function WithValue<V>(f: Future<V>, v: V): Future<V> {
    f.(value := Some(v))
  }

  /** complete: the first call wins. */
  function Completed<V>(f: Future<V>, v: Option<V>, err: Option<Error>): Future<V> {
    if f.done then f else Future(true, if v.Some? then v else f.value, err)
  }

  /** What Get returns once the future is done; a missing value is the zero value. */
  function Answer<V>(f: Future<V>): Outcome<V> {
    if f.err.Some? then Failed(f.err.value) else Returned(f.value)
  }

  class FutureAny<V> {
    var done: bool
    var value: Option<V>
    var err: Option<Error>
    var cancelled: bool  // the context of the job, which `cancel` ends

    ghost function View(): Future<V>
      reads this
    {
      Future(done, value, err)
    }

    constructor ()
      ensures View() == NewFuture() && !done && value.None? && err.None? && !cancelled
    {
      done, value, err, cancelled := false, None, None, false;
    }

    method SetValue(v: V)
      modifies this`value
      ensures value == Some(v) && View() == WithValue(old(View()), v)
    {
      value := Some(v);
    }

    method Complete(v: Option<V>, e: Option<Error>)
      modifies this`done, this`value, this`err
      ensures done && View() == Completed(old(View()), v, e)
      ensures !old(done) ==> err == e && value == if v.Some? then v else old(value)
      ensures old(done) ==> err == old(err) && value == old(value)
    {
      if !done {
        if v.Some? {
          value := v;
        }
        err := e;
        done := true;
      }
    }

    /** Cancel ends the job's context even when the future is done, and reports whether it was the
        call that completed the future. */
    method Cancel() returns (ok: bool)
      modifies this
      ensures cancelled && done && ok == !old(done)
      ensures View() == Completed(old(View()), None, Some(Cancelled))
      ensures value == old(value) && err == if old(done) then old(err) else Some(Cancelled)
    {
      cancelled := true;
      ok := false;
      if !done {
        ok := true;
        err := Some(Cancelled);
        done := true;
      }
    }

    /** Get once its select has something to choose: the future is done, or the caller's context
        ended with an error. With both, either may be chosen. */
    method Get(ctxErr: Option<Error>, takeCtx: bool) returns (r: Outcome<V>)
      requires done || ctxErr.Some?
      ensures ctxErr.None? || (done && !takeCtx) ==> r == if err.Some? then Failed(err.value) else Returned(value)
      ensures ctxErr.None? || (done && !takeCtx) ==> r == Answer(View())
      ensures ctxErr.Some? && (!done || takeCtx) ==> r == Failed(ctxErr.value)
    {
      if ctxErr.Some? && (!done || takeCtx) {
        return Failed(ctxErr.value);
      }
      if err.Some? {
        return Failed(err.value);
      }
      return Returned(value);
    }
  }

  datatype Call<V> = Set(v: V) | Finish(given: Option<V>, err: Option<Error>)

  function Apply<V>(f: Future<V>, c: Call<V>): Future<V> {
    match c
    case Set(v) => WithValue(f, v)
    case Finish(given, err) => Completed(f, given, err)
  }

  function ApplyAll<V>(f: Future<V>, calls: seq<Call<V>>): Future<V>
    decreases |calls|
  {
    if calls == [] then f else ApplyAll(Apply(f, calls[0]), calls[1..])
  }

  /** A call changes what a done future answers exactly when the future succeeded and the call
      sets another value. */
  lemma AnswerChanges<V>(f: Future<V>, c: Call<V>)
    requires f.done
    ensures Answer(Apply(f, c)) == Answer(f) <==> f.err.Some? || !c.Set? || f.value == Some(c.v)
  {
  }

  /** A failed future is settled for ever; a successful one as long as no later call sets another
      value, a condition the pool keeps to (module PoolFuture). */
  lemma {:induction false} AnswerSettled<V>(f: Future<V>, calls: seq<Call<V>>)
    requires f.done
    ensures ApplyAll(f, calls).done && ApplyAll(f, calls).err == f.err
    ensures f.err.Some? ==> Answer(ApplyAll(f, calls)) == Answer(f)
    ensures f.err.None? && (forall c | c in calls && c.Set? :: f.value == Some(c.v)) ==> ApplyAll(f, calls) == f
    decreases |calls|
  {
    if calls != [] {
      AnswerSettled(Apply(f, calls[0]), calls[1..]);
    }
  }
}

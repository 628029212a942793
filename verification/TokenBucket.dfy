/** The token bucket of rate_limiter.go. */
module TokenBucket {

  // Tokens are reals; times are nanoseconds on one monotonic clock. The only rounding kept is the final
  // truncation of a wait to nanoseconds.

  const SECOND: int := 1_000_000_000

  datatype Bucket = Bucket(rate: int, burst: int, tokens: real, last: int)

  /** A grant carries the wait in seconds before truncation. */
  datatype Outcome = Denied | Granted(wait: real)

  function Seconds(ns: int): real {
    ns as real / SECOND as real
  }

  /** `time.Duration(waitSeconds * float64(time.Second))`. */
  function Truncated(wait: real): int {
    (wait * SECOND as real).Floor
  }

  /** newBucket: a burst that is not positive means rate. */
  function NewBucket(rate: int, burst: int, now: int): Bucket {
    var b := if burst <= 0 then rate else burst;
    Bucket(rate, b, b as real, now)
  }

  function Refilled(b: Bucket, now: int): Bucket {
    if now <= b.last then b
    else
      var t := b.tokens + Seconds(now - b.last) * b.rate as real;
      b.(tokens := if t > b.burst as real then b.burst as real else t, last := now)
  }

  /** reserveDelay at time now. In queue mode the bucket may go into debt. */
  function Reserve(b: Bucket, now: int, queueMode: bool): (Bucket, Outcome) {
    if b.rate <= 0 then (b, Granted(0.0))
    else
      var r := Refilled(b, now);
      if r.tokens >= 1.0 then (r.(tokens := r.tokens - 1.0), Granted(0.0))
      else if !queueMode then (r, Denied)
      else (r.(tokens := r.tokens - 1.0), Granted((1.0 - r.tokens) / b.rate as real))
  }

  /** What a reservation does to the fields of a bucket. */
  lemma ReserveMeans(b: Bucket, rate: real, burst: real, now: int, queueMode: bool)
    requires rate == b.rate as real && burst == b.burst as real && b.tokens <= burst
    ensures rate <= 0.0 ==> Reserve(b, now, queueMode) == (b, Granted(0.0))
    ensures rate > 0.0 ==>
      var (b', out) := Reserve(b, now, queueMode);
      var elapsed := if now > b.last then (now - b.last) as real / 1_000_000_000.0 else 0.0;
      var raised := b.tokens + elapsed * rate;
      var there := if raised > burst then burst else raised;
      && b'.rate == b.rate && b'.burst == b.burst && b'.last == (if now > b.last then now else b.last)
      && b'.tokens == there - (if out.Granted? then 1.0 else 0.0)
      && (out.Granted? <==> there >= 1.0 || queueMode)
      && (out.Granted? ==> out.wait == if there >= 1.0 then 0.0 else (1.0 - there) / rate)
  {
    if now <= b.last {
      assert 0.0 * rate == 0.0;
    }
  }

  lemma ReserveWaits(b: Bucket, now: int, queueMode: bool)
    ensures Truncated(0.0) == 0
    ensures var out := Reserve(b, now, queueMode).1;
            out.Granted? ==> Truncated(out.wait) == (out.wait * 1_000_000_000.0).Floor
  {
    hide Reserve;
  }

  lemma WaitIsPositive(tokens: real, rate: real)
    requires tokens < 1.0 && rate > 0.0
    ensures (1.0 - tokens) / rate > 0.0
  {
  }

  class TokenBucket {
    const rate: real
    const burst: real
    var tokens: real
    var last: int
    ghost const rateInt: int
    ghost const burstInt: int

    ghost predicate Valid()
      reads this
    {
      rate == rateInt as real && burst == burstInt as real && tokens <= burst
    }

    ghost function View(): Bucket
      reads this
    {
      Bucket(rateInt, burstInt, tokens, last)
    }

    constructor (rate: int, burst: int, now: int)
      ensures Valid() && View() == NewBucket(rate, burst, now)
      ensures this.rate == rate as real && this.burst == (if burst > 0 then burst else rate) as real
      ensures tokens == this.burst && last == now
    {
      var b := if burst <= 0 then rate else burst;
      this.rate, this.burst, tokens, last := rate as real, b as real, b as real, now;
      rateInt, burstInt := rate, b;
    }

    /** There are the old tokens and what the clock has produced since, up to burst. With one there
        it is taken at once. Otherwise allow refuses and leaves them; queue mode goes into debt and
        waits until the missing part has been produced. Without a rate everything is granted. */
    method ReserveDelay(now: int, queueMode: bool) returns (delay: int, ok: bool, ghost there: real)
      requires Valid()
      modifies this
      ensures Valid() && View() == Reserve(old(View()), now, queueMode).0
      ensures ok == Reserve(old(View()), now, queueMode).1.Granted?
      ensures delay == if ok then Truncated(Reserve(old(View()), now, queueMode).1.wait) else 0
      ensures rate <= 0.0 ==> ok && delay == 0 && tokens == old(tokens) && last == old(last)
      ensures rate > 0.0 ==>
        var elapsed := if now > old(last) then (now - old(last)) as real / 1_000_000_000.0 else 0.0;
        var raised := old(tokens) + elapsed * rate;
        && there == (if raised > burst then burst else raised)
        && last == (if now > old(last) then now else old(last))
        && (ok <==> there >= 1.0 || queueMode) && tokens == there - (if ok then 1.0 else 0.0)
        && delay == if there >= 1.0 || !ok then 0 else ((1.0 - there) / rate * 1_000_000_000.0).Floor
    {
      ReserveMeans(View(), rate, burst, now, queueMode);
      ReserveWaits(View(), now, queueMode);
      hide Reserve, Refilled, Truncated, Seconds;
      if rate <= 0.0 {
        return 0, true, tokens;
      }
      Refill(now);
      there := tokens;
      delay, ok := TakeToken(queueMode);
    }

    /** The part of reserveDelay that takes a token, or reserves a future one. */
    method TakeToken(queueMode: bool) returns (delay: int, ok: bool)
      requires Valid() && rate > 0.0
      modifies this`tokens
      ensures (ok <==> old(tokens) >= 1.0 || queueMode) && tokens == old(tokens) - (if ok then 1.0 else 0.0)
      ensures delay == if old(tokens) >= 1.0 || !ok then 0 else ((1.0 - old(tokens)) / rate * 1_000_000_000.0).Floor
    {
      if tokens >= 1.0 {
        tokens := tokens - 1.0;
        return 0, true;
      }
      if !queueMode {
        return 0, false;
      }
      WaitIsPositive(tokens, rate);
      var waitSeconds := (1.0 - tokens) / rate;
      tokens := tokens - 1.0;
      if waitSeconds < 0.0 {
        waitSeconds := 0.0;
      }
      return Truncated(waitSeconds), true;
    }

    /** The part of reserveDelay that looks at the clock. */
    method Refill(now: int)
      requires Valid() && rate > 0.0
      modifies this`tokens, this`last
      ensures last == if now > old(last) then now else old(last)
      ensures var elapsed := if now > old(last) then (now - old(last)) as real / 1_000_000_000.0 else 0.0;
        var raised := old(tokens) + elapsed * rate;
        tokens == if raised > burst then burst else raised
    {
      var elapsed := Seconds(now - last);
      if elapsed > 0.0 {
        tokens := tokens + elapsed * rate;
        last := now;
        if tokens > burst {
          tokens := burst;
        }
      }
    }

    method Allow(now: int) returns (ok: bool)
      requires Valid()
      modifies this
      ensures Valid() && View() == Reserve(old(View()), now, false).0
      ensures ok == Reserve(old(View()), now, false).1.Granted?
      ensures rate <= 0.0 ==> ok
      ensures rate > 0.0 ==>
        var elapsed := if now > old(last) then (now - old(last)) as real / 1_000_000_000.0 else 0.0;
        var raised := old(tokens) + elapsed * rate;
        var there := if raised > burst then burst else raised;
        ok <==> there >= 1.0
    {
      var delay, granted, there := ReserveDelay(now, false);
      return granted && delay <= 0;
    }
  }

  // ---- Sequences of operations ----

  datatype Op = Op(at: int, queueMode: bool)

  /** The bucket before each operation, and after the last one. */
  ghost predicate History(bs: seq<Bucket>, ops: seq<Op>) {
    && |bs| == |ops| + 1 && bs[0].rate > 0 && bs[0].burst >= 1 && bs[0].tokens <= bs[0].burst as real
    && (forall i | 0 <= i < |ops| :: bs[i + 1] == Reserve(bs[i], ops[i].at, ops[i].queueMode).0)
    && (forall i | 0 <= i < |ops| :: bs[0].last <= ops[i].at)
    && (forall i, j | 0 <= i <= j < |ops| :: ops[i].at <= ops[j].at)
  }

  ghost predicate Grants(b: Bucket, op: Op) {
    Reserve(b, op.at, op.queueMode).1.Granted?
  }

  /** The instant, in seconds, at which a grant may be used. */
  ghost function ReadyExact(b: Bucket, op: Op): real
    requires Grants(b, op)
  {
    Seconds(op.at) + Reserve(b, op.at, op.queueMode).1.wait
  }

  /** The same instant as the caller computes it, in nanoseconds. */
  ghost function Ready(b: Bucket, op: Op): int
    requires Grants(b, op)
  {
    op.at + Truncated(Reserve(b, op.at, op.queueMode).1.wait)
  }

  ghost function CountGrants(bs: seq<Bucket>, ops: seq<Op>, i: nat, j: nat): (n: nat)
    requires |bs| == |ops| + 1 && i <= j <= |ops|
    ensures n <= j - i
    decreases j - i
  {
    if i == j then 0 else CountGrants(bs, ops, i, j - 1) + (if Grants(bs[j - 1], ops[j - 1]) then 1 else 0)
  }

  /** Tokens less what the clock has produced so far: refilling never raises it, a grant lowers
      it by one. */
  ghost function Potential(b: Bucket): real {
    b.tokens - b.rate as real * Seconds(b.last)
  }

  /** The potential with a debt written off. */
  ghost function Level(b: Bucket): real {
    (if b.tokens < 0.0 then 0.0 else b.tokens) - Potential(b)
  }

  lemma RefillLowers(b: Bucket, now: int)
    requires b.rate > 0 && b.last <= now && b.tokens <= b.burst as real
    ensures var r := Refilled(b, now);
      r.last == now && r.tokens <= r.burst as real && r.rate == b.rate && r.burst == b.burst
      && Potential(r) <= Potential(b)
      && (r.tokens < r.burst as real ==> Potential(r) == Potential(b))
  {
    var rate := b.rate as real;
    assert Seconds(now - b.last) == Seconds(now) - Seconds(b.last);
    assert rate * Seconds(now - b.last) == rate * Seconds(now) - rate * Seconds(b.last);
  }

  /** What one operation does: the potential pays for the grant, and fixes its ready time up to
      the tokens left over. */
  lemma ReservePays(b: Bucket, now: int, queueMode: bool)
    requires b.rate > 0 && b.burst >= 1 && b.last <= now && b.tokens <= b.burst as real
    ensures var (b', out) := Reserve(b, now, queueMode);
      && b'.last == now && b'.tokens <= b'.burst as real && b'.rate == b.rate && b'.burst == b.burst
      && Potential(b') <= Potential(b) - (if out.Granted? then 1.0 else 0.0)
      && (out.Granted? ==>
            && out.wait >= 0.0 && b'.tokens <= b.burst as real - 1.0
            && (b'.tokens >= 0.0 ==> out.wait == 0.0)
            && b.rate as real * (Seconds(now) + out.wait) == Level(b'))
      && (out.Granted? && b'.tokens < 0.0 ==> Potential(b') == Potential(b) - 1.0)
  {
    RefillLowers(b, now);
    var r := Refilled(b, now);
    var (b', out) := Reserve(b, now, queueMode);
    var rate := b.rate as real;
    if r.tokens < 1.0 && queueMode {
      assert rate * out.wait == 1.0 - r.tokens;
      assert out.wait >= 0.0;
      assert rate * (Seconds(now) + out.wait) == rate * Seconds(now) + rate * out.wait;
    }
  }

  lemma {:induction false} HistoryKeeps(bs: seq<Bucket>, ops: seq<Op>, k: nat)
    requires History(bs, ops) && k <= |ops|
    ensures bs[k].rate == bs[0].rate && bs[k].burst == bs[0].burst && bs[k].tokens <= bs[k].burst as real
    ensures k > 0 ==> bs[k].last == ops[k - 1].at
    ensures forall i | k <= i < |ops| :: bs[k].last <= ops[i].at
  {
    if k > 0 {
      HistoryKeeps(bs, ops, k - 1);
      ReservePays(bs[k - 1], ops[k - 1].at, ops[k - 1].queueMode);
    }
  }

  lemma {:induction false} PotentialPays(bs: seq<Bucket>, ops: seq<Op>, i: nat, j: nat)
    requires History(bs, ops) && i <= j <= |ops|
    ensures Potential(bs[j]) <= Potential(bs[i]) - CountGrants(bs, ops, i, j) as real
    decreases j - i
  {
    if i < j {
      PotentialPays(bs, ops, i, j - 1);
      HistoryKeeps(bs, ops, j - 1);
      ReservePays(bs[j - 1], ops[j - 1].at, ops[j - 1].queueMode);
    }
  }

  lemma {:induction false} CountSplits(bs: seq<Bucket>, ops: seq<Op>, i: nat, j: nat)
    requires |bs| == |ops| + 1 && i < j <= |ops|
    ensures CountGrants(bs, ops, i, j) == (if Grants(bs[i], ops[i]) then 1 else 0) + CountGrants(bs, ops, i + 1, j)
    decreases j - i
  {
    if i + 1 < j {
      CountSplits(bs, ops, i, j - 1);
    }
  }

  /** The k-th operation's ready instant, measured in tokens: what is left in the bucket then,
      less the potential. */
  lemma ReadyInTokens(bs: seq<Bucket>, ops: seq<Op>, k: nat)
    requires History(bs, ops) && k < |ops| && Grants(bs[k], ops[k])
    ensures bs[k + 1].tokens <= bs[0].burst as real - 1.0
    ensures bs[0].rate as real * ReadyExact(bs[k], ops[k]) == Level(bs[k + 1])
    ensures ReadyExact(bs[k], ops[k]) >= Seconds(ops[k].at)
    ensures bs[k + 1].tokens >= 0.0 ==> ReadyExact(bs[k], ops[k]) == Seconds(ops[k].at)
    ensures bs[k + 1].tokens < 0.0 ==> Potential(bs[k + 1]) == Potential(bs[k]) - 1.0
  {
    hide Reserve, Potential, Seconds;
    HistoryKeeps(bs, ops, k);
    ReservePays(bs[k], ops[k].at, ops[k].queueMode);
  }

  lemma Distribute(rate: real, x: real, y: real)
    ensures rate * (y - x) == rate * y - rate * x
  {
  }

  lemma ScaledOrder(rate: real, x: real, y: real)
    requires rate > 0.0
    ensures rate * x <= rate * y <==> x <= y
  {
    Distribute(rate, x, y);
  }

  // ---- Main results ----

  /** The window bound: between any two grants i and j, those included, at most burst plus rate
      times the time between their ready instants were granted. It covers queue-mode
      reservations, `allow` grants, and any mixture of the two. */
  lemma WindowBound(bs: seq<Bucket>, ops: seq<Op>, i: nat, j: nat)
    requires History(bs, ops) && i <= j < |ops| && Grants(bs[i], ops[i]) && Grants(bs[j], ops[j])
    ensures CountGrants(bs, ops, i, j + 1) as real
         <= bs[0].burst as real + bs[0].rate as real * (ReadyExact(bs[j], ops[j]) - ReadyExact(bs[i], ops[i]))
  {
    hide Reserve, Seconds, ReadyExact, Potential;
    ReadyInTokens(bs, ops, i);
    ReadyInTokens(bs, ops, j);
    PotentialPays(bs, ops, i + 1, j + 1);
    CountSplits(bs, ops, i, j + 1);
    Distribute(bs[0].rate as real, ReadyExact(bs[i], ops[i]), ReadyExact(bs[j], ops[j]));
    hide History, Grants, CountGrants;
  }

  /** The tokens an operation finds: the bucket was full at some operation j, and since then every
      nanosecond counts and so does every grant. */
  lemma {:induction false} FullSince(bs: seq<Bucket>, ops: seq<Op>, i: nat) returns (j: nat)
    requires History(bs, ops) && bs[0].tokens == bs[0].burst as real && i < |ops|
    ensures j <= i
    ensures Potential(Refilled(bs[i], ops[i].at))
            == bs[0].burst as real - bs[0].rate as real * Seconds(ops[j].at) - CountGrants(bs, ops, j, i) as real
  {
    hide Reserve, Refilled, Seconds;
    HistoryKeeps(bs, ops, i);
    RefillLowers(bs[i], ops[i].at);
    var r := Refilled(bs[i], ops[i].at);
    if r.tokens == r.burst as real {
      j := i;
    } else {
      assert i > 0 by { if i == 0 { FullStaysFull(bs[0], ops[0].at); } }
      hide Potential;
      j := FullSince(bs, ops, i - 1);
      HistoryKeeps(bs, ops, i - 1);
      GrantCosts(bs[i - 1], ops[i - 1].at, ops[i - 1].queueMode);
    }
  }

  lemma FullStaysFull(b: Bucket, now: int)
    requires b.rate > 0 && b.last <= now && b.tokens == b.burst as real
    ensures Refilled(b, now).tokens == b.burst as real
  {
    SecondsOrder(0, now - b.last);
    ScaledOrder(b.rate as real, 0.0, Seconds(now - b.last));
  }

  lemma GrantCosts(b: Bucket, now: int, queueMode: bool)
    requires b.rate > 0
    ensures var (b', out) := Reserve(b, now, queueMode);
            Potential(b') == Potential(Refilled(b, now)) - (if out.Granted? then 1.0 else 0.0)
  {
    var (b', out) := Reserve(b, now, queueMode);
    var r := Refilled(b, now);
    assert b' == r.(tokens := r.tokens - (if out.Granted? then 1.0 else 0.0));
  }

  lemma PotentialAtMost(b: Bucket)
    requires b.tokens <= b.burst as real
    ensures Potential(b) <= b.burst as real - b.rate as real * Seconds(b.last)
  {
  }

  lemma CountAfter(bs: seq<Bucket>, ops: seq<Op>, j: nat, i: nat)
    requires History(bs, ops) && j <= i < |ops|
    ensures Potential(bs[i]) <= Potential(Refilled(bs[j], ops[j].at)) - CountGrants(bs, ops, j, i) as real
            || (j == i && CountGrants(bs, ops, j, i) == 0)
  {
    hide Reserve, Refilled, Potential;
    HistoryKeeps(bs, ops, j);
    if j < i {
      GrantCosts(bs[j], ops[j].at, ops[j].queueMode);
      PotentialPays(bs, ops, j + 1, i);
      CountSplits(bs, ops, j, i);
    }
  }

  /** No window is too short for the tokens that are there. */
  lemma NoMoreThere(bs: seq<Bucket>, ops: seq<Op>, j: nat, i: nat)
    requires History(bs, ops) && j <= i < |ops|
    ensures Potential(Refilled(bs[i], ops[i].at))
            <= bs[0].burst as real - bs[0].rate as real * Seconds(ops[j].at) - CountGrants(bs, ops, j, i) as real
  {
    hide Reserve, Refilled, Seconds, Potential, CountGrants;
    HistoryKeeps(bs, ops, i);
    HistoryKeeps(bs, ops, j);
    RefillLowers(bs[i], ops[i].at);
    RefillLowers(bs[j], ops[j].at);
    PotentialAtMost(Refilled(bs[j], ops[j].at));
    CountAfter(bs, ops, j, i);
    hide History, Grants;
  }

  /** Granting operation i after a wait of w seconds keeps within the window that opened with
      operation j. */
  ghost predicate Fits(bs: seq<Bucket>, ops: seq<Op>, j: nat, i: nat, w: real)
    requires History(bs, ops) && j <= i < |ops|
  {
    CountGrants(bs, ops, j, i) as real + 1.0
    <= bs[0].burst as real + bs[0].rate as real * (Seconds(ops[i].at - ops[j].at) + w)
  }

  lemma FitsInTokens(bs: seq<Bucket>, ops: seq<Op>, j: nat, i: nat, w: real)
    requires History(bs, ops) && j <= i < |ops|
    ensures var rate := bs[0].rate as real;
            Fits(bs, ops, j, i, w) <==>
              bs[0].burst as real - rate * Seconds(ops[j].at) - CountGrants(bs, ops, j, i) as real
              + rate * Seconds(ops[i].at) + rate * w >= 1.0
  {
    SecondsDiff(ops[i].at, ops[j].at);
    hide Seconds, CountGrants, History;
    Distribute(bs[0].rate as real, Seconds(ops[j].at), Seconds(ops[i].at) + w);
    Distribute(bs[0].rate as real, -w, Seconds(ops[i].at));
    Distribute(bs[0].rate as real, w, 0.0);
  }

  lemma EnoughThere(bs: seq<Bucket>, ops: seq<Op>, i: nat, w: real)
    requires History(bs, ops) && bs[0].tokens == bs[0].burst as real && i < |ops|
    ensures Refilled(bs[i], ops[i].at).tokens + bs[0].rate as real * w >= 1.0 <==>
              forall j | 0 <= j <= i :: Fits(bs, ops, j, i, w)
  {
    hide Seconds, Reserve, CountGrants, Fits, Refilled;
    HistoryKeeps(bs, ops, i);
    RefillLowers(bs[i], ops[i].at);
    forall j | 0 <= j <= i
      ensures Refilled(bs[i], ops[i].at).tokens + bs[0].rate as real * w >= 1.0 ==> Fits(bs, ops, j, i, w)
    {
      NoMoreThere(bs, ops, j, i);
      FitsInTokens(bs, ops, j, i, w);
    }
    var j := FullSince(bs, ops, i);
    FitsInTokens(bs, ops, j, i, w);
  }

  /** allow refuses no more than it must: on a bucket that was full at first, whatever mixture of
      operations came before, it grants exactly if that keeps within every window. */
  lemma AllowExactly(bs: seq<Bucket>, ops: seq<Op>, i: nat)
    requires History(bs, ops) && bs[0].tokens == bs[0].burst as real && i < |ops| && !ops[i].queueMode
    ensures Grants(bs[i], ops[i]) <==> forall j | 0 <= j <= i :: Fits(bs, ops, j, i, 0.0)
  {
    hide Seconds, CountGrants, Refilled, Fits;
    HistoryKeeps(bs, ops, i);
    EnoughThere(bs, ops, i, 0.0);
  }

  /** Queue mode delays no more than it must: the wait is the least one that keeps within every
      window. */
  lemma QueueExactly(bs: seq<Bucket>, ops: seq<Op>, i: nat, w: real)
    requires History(bs, ops) && bs[0].tokens == bs[0].burst as real && i < |ops| && ops[i].queueMode && w >= 0.0
    ensures Grants(bs[i], ops[i])
    ensures Reserve(bs[i], ops[i].at, true).1.wait <= w <==> forall j | 0 <= j <= i :: Fits(bs, ops, j, i, w)
  {
    hide Seconds, CountGrants, Fits;
    HistoryKeeps(bs, ops, i);
    RefillLowers(bs[i], ops[i].at);
    EnoughThere(bs, ops, i, w);
    WaitsLeast(Refilled(bs[i], ops[i].at).tokens, bs[0].rate as real, w);
    hide Refilled, History;
  }

  lemma WaitsLeast(tokens: real, rate: real, w: real)
    requires rate > 0.0 && w >= 0.0
    ensures (if tokens >= 1.0 then 0.0 else (1.0 - tokens) / rate) <= w <==> tokens + rate * w >= 1.0
  {
    ScaledOrder(rate, 0.0, w);
    if tokens < 1.0 {
      var wait := (1.0 - tokens) / rate;
      assert rate * wait == 1.0 - tokens;
      ScaledOrder(rate, wait, w);
    }
  }

  /** In queue mode nothing is denied, so the bound counts all j - i reservations. */
  lemma {:induction false} QueueModeGrantsAll(bs: seq<Bucket>, ops: seq<Op>, i: nat, j: nat)
    requires History(bs, ops) && i <= j <= |ops| && forall k | i <= k < j :: ops[k].queueMode
    ensures CountGrants(bs, ops, i, j) == j - i
    decreases j - i
  {
    if i < j {
      QueueModeGrantsAll(bs, ops, i, j - 1);
    }
  }

  lemma SecondsOrder(a: int, b: int)
    ensures Seconds(a) < Seconds(b) <==> a < b
  {
  }

  lemma SecondsDiff(a: int, b: int)
    ensures Seconds(a - b) == Seconds(a) - Seconds(b)
  {
  }

  /** A bound for a window is one for any wider window. */
  lemma Widen(n: real, burst: real, rate: real, d: real, w: real)
    requires rate > 0.0 && d <= w && n <= burst + rate * d
    ensures n <= burst + rate * w
  {
    ScaledOrder(rate, d, w);
  }

  lemma TruncationCost(b: Bucket, op: Op)
    requires Grants(b, op)
    ensures Seconds(Ready(b, op)) <= ReadyExact(b, op) < Seconds(Ready(b, op) + 1)
  {
    var wait := Reserve(b, op.at, op.queueMode).1.wait;
    var s := SECOND as real;
    var t := Truncated(wait);
    assert t as real <= wait * s < t as real + 1.0;
    assert Seconds(op.at + t) == Seconds(op.at) + t as real / s;
    assert Seconds(op.at + t + 1) == Seconds(op.at) + (t as real + 1.0) / s;
    assert wait == wait * s / s;
  }

  /** With the truncated ready times the bound costs at most one nanosecond of window. */
  lemma WindowBoundTruncated(bs: seq<Bucket>, ops: seq<Op>, i: nat, j: nat)
    requires History(bs, ops) && i <= j < |ops| && Grants(bs[i], ops[i]) && Grants(bs[j], ops[j])
    ensures CountGrants(bs, ops, i, j + 1) as real
         <= bs[0].burst as real + bs[0].rate as real * Seconds(Ready(bs[j], ops[j]) - Ready(bs[i], ops[i]) + 1)
  {
    hide Reserve, Ready, ReadyExact, CountGrants, Seconds;
    WindowBound(bs, ops, i, j);
    TruncationCost(bs[i], ops[i]);
    TruncationCost(bs[j], ops[j]);
    var (from, to) := (Ready(bs[i], ops[i]), Ready(bs[j], ops[j]));
    SecondsDiff(to + 1, from);
    Widen(CountGrants(bs, ops, i, j + 1) as real, bs[0].burst as real, bs[0].rate as real,
          ReadyExact(bs[j], ops[j]) - ReadyExact(bs[i], ops[i]), Seconds(to - from + 1));
  }

  lemma DebtLevel(bs: seq<Bucket>, ops: seq<Op>, i: nat, j: nat)
    requires History(bs, ops) && i <= j <= |ops| && bs[i].tokens < 0.0
    ensures Level(bs[i]) <= Level(bs[j])
  {
    hide Reserve, Potential;
    PotentialPays(bs, ops, i, j);
  }

  /** Ready times never decrease, exactly and after truncation. */
  lemma ReadyMonotone(bs: seq<Bucket>, ops: seq<Op>, i: nat, j: nat)
    requires History(bs, ops) && i <= j < |ops| && Grants(bs[i], ops[i]) && Grants(bs[j], ops[j])
    ensures ReadyExact(bs[i], ops[i]) <= ReadyExact(bs[j], ops[j])
    ensures Ready(bs[i], ops[i]) <= Ready(bs[j], ops[j])
  {
    hide Reserve, Ready, ReadyExact, Seconds, Level;
    var x, y := ReadyExact(bs[i], ops[i]), ReadyExact(bs[j], ops[j]);
    ReadyInTokens(bs, ops, i);
    ReadyInTokens(bs, ops, j);
    if bs[i + 1].tokens < 0.0 {
      DebtLevel(bs, ops, i + 1, j + 1);
      ScaledOrder(bs[0].rate as real, x, y);
    } else {
      assert ops[i].at <= ops[j].at;
      SecondsOrder(ops[j].at, ops[i].at);
    }
    TruncationCost(bs[i], ops[i]);
    TruncationCost(bs[j], ops[j]);
    SecondsOrder(Ready(bs[i], ops[i]), Ready(bs[j], ops[j]) + 1);
  }

  /** While the bucket stays in debt, reservations are exactly 1 / rate apart. */
  lemma DebtSpacing(bs: seq<Bucket>, ops: seq<Op>, k: nat)
    requires History(bs, ops) && k + 1 < |ops| && Grants(bs[k], ops[k]) && Grants(bs[k + 1], ops[k + 1])
    requires bs[k + 1].tokens < 0.0 && bs[k + 2].tokens < 0.0
    ensures bs[0].rate as real * (ReadyExact(bs[k + 1], ops[k + 1]) - ReadyExact(bs[k], ops[k])) == 1.0
  {
    ReadyInTokens(bs, ops, k);
    ReadyInTokens(bs, ops, k + 1);
    Distribute(bs[0].rate as real, ReadyExact(bs[k], ops[k]), ReadyExact(bs[k + 1], ops[k + 1]));
  }
}

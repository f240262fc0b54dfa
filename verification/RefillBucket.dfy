/** The token bucket that paces a pool's replacement creates, in real
    arithmetic over a clock of whole nanoseconds. */
module RefillBucket {
  import opened Common

  const SECOND: real := 1000000000.0

  datatype Bucket = Bucket(tokens: real, last: int)

  function Capacity(rate: real): real { if rate > 1.0 then rate else 1.0 }

  function Capped(tokens: real, rate: real): real {
    if tokens < Capacity(rate) then tokens else Capacity(rate)
  }

  // What accrues in a span of nanoseconds.
  function Accrued(rate: real, span: int): real { rate * (span as real / SECOND) }

  function Ceiling(x: real): (n: int)
    ensures n as real >= x && (n - 1) as real < x
  {
    -((-x).Floor)
  }

  // A bucket not seen before starts full.
  function Refilled(b: Option<Bucket>, rate: real, now: int): Bucket {
    match b
    case None => Bucket(Capacity(rate), now)
    case Some(c) =>
      if now > c.last then Bucket(Capped(c.tokens + Accrued(rate, now - c.last), rate), now) else c
  }

  // How many are granted, how long until the next token, and the bucket left.
  function Taken(b: Option<Bucket>, rate: real, want: int, now: int): (r: (int, int, Option<Bucket>)) {
    if rate <= 0.0 || want <= 0 then (want, 0, b)
    else
      var full := Refilled(b, rate, now);
      var granted := if full.tokens < want as real then full.tokens.Floor else want;
      var left := full.(tokens := full.tokens - granted as real);
      var wait := if granted >= want then 0 else Ceiling((1.0 - left.tokens) / rate * SECOND);
      (granted, wait, Some(left))
  }

  function Refunded(b: Option<Bucket>, rate: real, n: int): Option<Bucket> {
    if rate <= 0.0 || n <= 0 || b.None? then b
    else Some(b.value.(tokens := Capped(b.value.tokens + n as real, rate)))
  }

  // ----- One call -----

  ghost predicate Within(b: Option<Bucket>, rate: real) {
    b.Some? ==> 0.0 <= b.value.tokens <= Capacity(rate)
  }

  lemma {:induction false} AccruedGrows(rate: real, a: int, b: int)
    requires rate > 0.0 && a <= b
    ensures Accrued(rate, a) <= Accrued(rate, b)
  {
    var x, y := a as real / SECOND, b as real / SECOND;
    assert x <= y;
    assert rate * (y - x) >= 0.0;
  }

  lemma {:induction false} AccruedAdds(rate: real, a: int, b: int)
    ensures Accrued(rate, a + b) == Accrued(rate, a) + Accrued(rate, b)
  {
    var x, y := a as real / SECOND, b as real / SECOND;
    assert (a + b) as real / SECOND == x + y;
  }

  lemma {:induction false} RefilledKeeps(b: Option<Bucket>, rate: real, now: int)
    requires rate > 0.0 && Within(b, rate)
    ensures 0.0 <= Refilled(b, rate, now).tokens <= Capacity(rate)
  {
    if b.Some? && now > b.value.last {
      AccruedGrows(rate, 0, now - b.value.last);
    }
  }

  /** A grant is at most what was wanted and at most what the bucket held,
      and what is left stays within the bucket. A grant falls short only when
      less than one token is left. */
  lemma {:induction false} TakenKeeps(b: Option<Bucket>, rate: real, want: int, now: int)
    requires rate > 0.0 && want > 0 && Within(b, rate)
    ensures var (granted, wait, left) := Taken(b, rate, want, now);
      && 0 <= granted <= want && Within(left, rate)
      && left.Some? && left.value.tokens == Refilled(b, rate, now).tokens - granted as real
      && left.value.last == Refilled(b, rate, now).last
      && (granted < want ==> left.value.tokens < 1.0 && wait > 0)
  {
    RefilledKeeps(b, rate, now);
    var (granted, wait, left) := Taken(b, rate, want, now);
    if granted < want {
      var x := (1.0 - left.value.tokens) / rate;
      assert x > 0.0;
      assert x * SECOND > 0.0;
    }
  }

  // What a bucket holds at some moment: what it held, and what came in since, up to its capacity.
  function Level(b: Option<Bucket>, rate: real, now: int): real {
    var capacity := if rate > 1.0 then rate else 1.0;
    if b.None? then capacity
    else if now <= b.value.last then b.value.tokens
    else
      var level := b.value.tokens + rate * ((now - b.value.last) as real / 1000000000.0);
      if level < capacity then level else capacity
  }

  /** A grant, exactly: all that is wanted, or as many whole tokens as the
      bucket holds by now; without a rate, all that is wanted. */
  lemma {:induction false} GrantExact(b: Option<Bucket>, rate: real, want: int, now: int)
    ensures var (granted, wait, left) := Taken(b, rate, want, now);
      if rate <= 0.0 || want <= 0 then granted == want && wait == 0 && left == b
      else
        && (if want as real <= Level(b, rate, now) then granted == want && wait == 0
            else granted == Level(b, rate, now).Floor)
        && left.Some? && left.value.tokens == Level(b, rate, now) - granted as real
        && left.value.last == if b.Some? && now <= b.value.last then b.value.last else now
  {
  }

  /** Giving back what was granted undoes the grant: the bucket stands as it
      would have without it. */
  lemma {:induction false} RefundInverts(b: Option<Bucket>, rate: real, want: int, now: int)
    requires rate > 0.0 && want > 0 && Within(b, rate)
    ensures var (granted, _, left) := Taken(b, rate, want, now);
      && Refunded(left, rate, granted) == Some(Bucket(Level(b, rate, now), left.value.last))
      && forall n | 0 < n <= granted :: Refunded(left, rate, n) == Some(Bucket(left.value.tokens + n as real, left.value.last))
  {
    TakenKeeps(b, rate, want, now);
    RefilledKeeps(b, rate, now);
    var (granted, _, left) := Taken(b, rate, want, now);
    GrantExact(b, rate, want, now);
    assert granted >= 0;
  }

  // ----- No starvation -----

  lemma {:induction false} AccruedReaches(rate: real, missing: real, span: int)
    requires rate > 0.0
    ensures Accrued(rate, span) >= missing <==> span as real >= missing / rate * SECOND
  {
    var x, y := missing / rate, span as real / SECOND;
    assert missing == rate * x;
    assert span as real == y * SECOND;
    if y >= x {
      assert rate * (y - x) >= 0.0;
      assert (y - x) * SECOND >= 0.0;
    } else {
      assert rate * (x - y) > 0.0;
      assert (x - y) * SECOND > 0.0;
    }
  }

  /** After a short grant, the next call is granted something exactly when it
      comes no sooner than the wait that was returned. (The clock is not set
      back: the bucket was last refilled no later than the short grant.) */
  lemma {:induction false} WaitIsExact(b: Option<Bucket>, rate: real, want: int, now: int, again: int, later: int)
    requires rate > 0.0 && want > 0 && again > 0 && Within(b, rate)
    requires b.Some? ==> b.value.last <= now
    requires later >= now
    ensures var (granted, wait, left) := Taken(b, rate, want, now);
      granted < want ==> (Taken(left, rate, again, later).0 >= 1 <==> later >= now + wait)
  {
    TakenKeeps(b, rate, want, now);
    var (granted, wait, left) := Taken(b, rate, want, now);
    if granted < want {
      var tokens := left.value.tokens;
      AccruedReaches(rate, 1.0 - tokens, later - now);
      assert left.value.last == now;
      var full := Refilled(left, rate, later);
      RefilledKeeps(left, rate, later);
      assert full.tokens >= 1.0 <==> later >= now + wait;
    }
  }

  // ----- Runs -----

  datatype Call = Take(want: int, now: int) | Refund(n: int) | Forget

  function After(b: Option<Bucket>, rate: real, call: Call): Option<Bucket> {
    match call
    case Take(want, now) => Taken(b, rate, want, now).2
    case Refund(n) => Refunded(b, rate, n)
    case Forget => None
  }

  // What a call grants, less what it gives back.
  function Net(b: Option<Bucket>, rate: real, call: Call): int {
    match call
    case Take(want, now) => Taken(b, rate, want, now).0
    case Refund(n) => if n > 0 && b.Some? then -n else 0
    case Forget => 0
  }

  function Run(b: Option<Bucket>, rate: real, calls: seq<Call>): Option<Bucket>
    decreases |calls|
  {
    if calls == [] then b else Run(After(b, rate, calls[0]), rate, calls[1..])
  }

  function NetRun(b: Option<Bucket>, rate: real, calls: seq<Call>): int
    decreases |calls|
  {
    if calls == [] then 0 else Net(b, rate, calls[0]) + NetRun(After(b, rate, calls[0]), rate, calls[1..])
  }

  // One budget for each time the bucket was forgotten, with its pool.
  function Renewed(calls: seq<Call>, budget: real): real {
    if calls == [] then 0.0 else (if calls[0].Forget? then budget else 0.0) + Renewed(calls[1..], budget)
  }

  // Every call that takes does so in the window.
  predicate InWindow(calls: seq<Call>, from: int, to: int) {
    forall k | 0 <= k < |calls| :: calls[k].Take? ==> from <= calls[k].now <= to
  }

  /** The most that a window ending at to can still grant: what is there, and
      what accrues until its end. A bucket last refilled before the window
      can at best be full when the window begins. */
  function Budget(b: Option<Bucket>, rate: real, from: int, to: int): real {
    if b.None? || b.value.last < from then Capacity(rate) + Accrued(rate, to - from)
    else if b.value.last <= to then b.value.tokens + Accrued(rate, to - b.value.last)
    else b.value.tokens
  }

  lemma {:induction false} FullBudget(b: Option<Bucket>, rate: real, from: int, to: int)
    requires rate > 0.0 && Within(b, rate) && from <= to
    ensures 0.0 <= Budget(b, rate, from, to) <= Capacity(rate) + Accrued(rate, to - from)
  {
    AccruedGrows(rate, 0, to - from);
    if b.Some? && from <= b.value.last <= to {
      AccruedGrows(rate, to - b.value.last, to - from);
      AccruedGrows(rate, 0, to - b.value.last);
    }
  }

  lemma {:induction false} TakeSpends(b: Option<Bucket>, rate: real, want: int, now: int, from: int, to: int)
    requires rate > 0.0 && want > 0 && Within(b, rate) && from <= now <= to
    ensures var (granted, _, left) := Taken(b, rate, want, now);
      granted as real <= Budget(b, rate, from, to) - Budget(left, rate, from, to)
  {
    TakenKeeps(b, rate, want, now);
    var full := Refilled(b, rate, now);
    if b.None? || b.value.last < from {
      AccruedGrows(rate, to - now, to - from);
    } else if b.value.last < now {
      AccruedAdds(rate, now - b.value.last, to - now);
    }
  }

  lemma {:induction false} RefundReturns(b: Option<Bucket>, rate: real, n: int, from: int, to: int)
    requires rate > 0.0 && Within(b, rate) && from <= to
    ensures Within(Refunded(b, rate, n), rate)
    ensures Net(b, rate, Refund(n)) as real <= Budget(b, rate, from, to) - Budget(Refunded(b, rate, n), rate, from, to)
  {
  }

  lemma {:induction false} RunWithin(b: Option<Bucket>, rate: real, calls: seq<Call>, from: int, to: int)
    requires rate > 0.0 && Within(b, rate) && from <= to && InWindow(calls, from, to)
    ensures Within(Run(b, rate, calls), rate)
    ensures NetRun(b, rate, calls) as real
         <= Budget(b, rate, from, to) + Renewed(calls, Capacity(rate) + Accrued(rate, to - from))
    decreases |calls|
  {
    FullBudget(b, rate, from, to);
    if calls != [] {
      var next, rest := After(b, rate, calls[0]), calls[1..];
      match calls[0] {
        case Take(want, now) =>
          if want > 0 {
            TakenKeeps(b, rate, want, now);
            TakeSpends(b, rate, want, now, from, to);
          }
        case Refund(n) => RefundReturns(b, rate, n, from, to);
        case Forget =>
      }
      RunWithin(next, rate, rest, from, to);
    }
  }

  /** The refill rate bound: in every window, from any bucket and through any
      calls in any order, no more is granted, less refunds, than a bucket
      that is full when the window begins and what accrues in it; that much
      again for each time the pool was deleted in the window. */
  lemma {:induction false} RefillBound(b: Option<Bucket>, rate: real, calls: seq<Call>, from: int, to: int)
    requires rate > 0.0 && Within(b, rate) && from <= to && InWindow(calls, from, to)
    ensures var all := Capacity(rate) + Accrued(rate, to - from);
      NetRun(b, rate, calls) as real <= all + Renewed(calls, all)
    ensures Within(Run(b, rate, calls), rate)
  {
    RunWithin(b, rate, calls, from, to);
    FullBudget(b, rate, from, to);
  }

  // ----- The limiter -----

  class Limiter<Pool(==,!new)> {
    const rate: real
    var buckets: map<Pool, Bucket>

    constructor (rate: real)
      ensures this.rate == rate && buckets == map[]
    {
      this.rate := rate;
      buckets := map[];
    }

    function At(key: Pool): Option<Bucket>
      reads this
    {
      if key in buckets then Some(buckets[key]) else None
    }

    // Other pools' buckets are not touched.
    method Take(key: Pool, want: int, now: int) returns (granted: int, wait: int)
      modifies this
      ensures var (g, w, left) := Taken(old(At(key)), rate, want, now);
        granted == g && wait == w && At(key) == left
      ensures buckets - {key} == old(buckets) - {key}
    {
      if rate <= 0.0 || want <= 0 {
        return want, 0;
      }
      var b: Bucket;
      if key !in buckets {
        b := Bucket(Capacity(rate), now);
      } else {
        b := buckets[key];
        if now > b.last {
          b := Bucket(Capped(b.tokens + Accrued(rate, now - b.last), rate), now);
        }
      }
      granted := want;
      if b.tokens < want as real {
        granted := b.tokens.Floor;
      }
      b := b.(tokens := b.tokens - granted as real);
      buckets := buckets[key := b];
      if granted >= want {
        return granted, 0;
      }
      wait := Ceiling((1.0 - b.tokens) / rate * SECOND);
    }

    method Refund(key: Pool, n: int)
      modifies this
      ensures At(key) == Refunded(old(At(key)), rate, n)
      ensures buckets - {key} == old(buckets) - {key}
    {
      if rate <= 0.0 || n <= 0 {
        return;
      }
      if key in buckets {
        var b := buckets[key];
        buckets := buckets[key := b.(tokens := Capped(b.tokens + n as real, rate))];
      }
    }

    method Forget(key: Pool)
      modifies this
      ensures At(key) == None
      ensures buckets - {key} == old(buckets) - {key}
    {
      buckets := buckets - {key};
    }
  }
}

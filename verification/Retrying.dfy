/** The bounded retry loop of one collection, against an arbitrary collector,
    store, clock and cancellation. */
module Retrying {
  import opened Arithmetic

  datatype Backoff = Backoff(maxAttempts: int, initial: int, max: int, multiplier: real)

  predicate ValidBackoff(b: Backoff) {
    0 < b.maxAttempts <= 10 && 0 < b.initial <= b.max && b.multiplier > 1.0
  }

  /** `nextBackoff`: multiply, cap, and truncate to whole nanoseconds. */
  function NextBackoff(b: Backoff, delay: int): int {
    var next := delay as real * b.multiplier;
    if next >= b.max as real then b.max else next.Floor
  }

  /** What the environment does to one attempt: cancelled while it waits for a
      slot, or collected, with what then happened to the result. */
  datatype Attempt =
    | GivenUp
    | Made(collected: bool, published: bool, cancelled: bool, retryable: bool, backoffCancelled: bool)

  predicate Succeeds(a: Attempt) { a.Made? && a.collected && a.published }

  /** A failure that is not attributed to the cancellation. */
  predicate FailsVisibly(a: Attempt) { a.Made? && !Succeeds(a) && !a.cancelled }

  predicate BacksOff(a: Attempt) { FailsVisibly(a) && a.retryable }

  predicate Retries(a: Attempt) { BacksOff(a) && !a.backoffCancelled }

  ghost function Count(p: Attempt -> bool, env: nat -> Attempt, n: nat): nat {
    if n == 0 then 0 else Count(p, env, n - 1) + if p(env(n - 1)) then 1 else 0
  }

  /** The delay before the retry that follows the n-th attempt, counted from 0. */
  function DelayAfter(b: Backoff, n: nat): int {
    if n == 0 then b.initial else NextBackoff(b, DelayAfter(b, n - 1))
  }

  /** The retry loop itself, attempt by attempt; the out-parameters count what it did. */
  method RunAttempts(b: Backoff, env: nat -> Attempt)
    returns (attempts: nat, publishes: nat, records: nat, delays: seq<int>)
    requires ValidBackoff(b)
    ensures attempts <= b.maxAttempts
    ensures forall i :: 0 <= i < attempts ==> env(i).Made?
    ensures forall i :: 0 <= i < attempts - 1 ==> Retries(env(i))
    ensures attempts < b.maxAttempts ==>
              if attempts == 0 then env(0).GivenUp?
              else !Retries(env(attempts - 1)) || env(attempts).GivenUp?
    ensures publishes == Count(Succeeds, env, attempts)
    ensures records == Count(FailsVisibly, env, attempts)
    ensures |delays| == if attempts == 0 then 0
                        else attempts - 1 + (if attempts < b.maxAttempts && BacksOff(env(attempts - 1)) then 1 else 0)
    ensures forall i :: 0 <= i < |delays| ==> delays[i] == DelayAfter(b, i)
  {
    var delay := b.initial;
    attempts, publishes, records, delays := 0, 0, 0, [];
    var attempt := 1;
    while attempt <= b.maxAttempts
      invariant 1 <= attempt <= b.maxAttempts && attempts == attempt - 1 && |delays| == attempts
      invariant delay == DelayAfter(b, attempts)
      invariant forall i :: 0 <= i < attempts ==> Retries(env(i))
      invariant publishes == Count(Succeeds, env, attempts)
      invariant records == Count(FailsVisibly, env, attempts)
      invariant forall i :: 0 <= i < |delays| ==> delays[i] == DelayAfter(b, i)
    {
      var outcome := env(attempts);
      if outcome.GivenUp? { return; }
      attempts := attempts + 1;
      var failed := !outcome.collected;
      if !failed {
        if outcome.published { publishes := publishes + 1; } else { failed := true; }
      }
      if !failed { return; }
      if outcome.cancelled { return; }
      records := records + 1;
      if !outcome.retryable || attempt == b.maxAttempts { return; }
      delays := delays + [delay];
      if outcome.backoffCancelled { return; }
      delay := NextBackoff(b, delay);
      attempt := attempt + 1;
    }
    assert false;
  }

  // ------------------------------------------------------------- consequences

  lemma NextBackoffGrows(b: Backoff, delay: int)
    requires ValidBackoff(b) && 0 < delay <= b.max
    ensures delay <= NextBackoff(b, delay) <= b.max
  {
    var product := ScaledUp(delay as real, b.multiplier);
    FloorAtLeast(product, delay);
  }

  lemma ScaledUp(d: real, m: real) returns (product: real)
    requires d > 0.0 && m > 1.0
    ensures product == d * m && product >= d
  {
    product := d * m;
    PositiveProduct(d, m - 1.0);
    assert d * (m - 1.0) == d * m - d;
  }

  lemma PositiveProduct(x: real, y: real)
    requires x > 0.0 && y > 0.0
    ensures x * y > 0.0
  {
  }

  lemma FloorAtLeast(x: real, n: int)
    requires n as real <= x
    ensures n <= x.Floor
  {
  }

  lemma {:induction false} DelaysGrow(b: Backoff, n: nat)
    requires ValidBackoff(b)
    ensures b.initial <= DelayAfter(b, n) <= b.max
    ensures DelayAfter(b, n) <= DelayAfter(b, n + 1)
  {
    if n > 0 {
      DelaysGrow(b, n - 1);
    }
    NextBackoffGrows(b, DelayAfter(b, n));
  }

  ghost function TotalOf(delays: seq<int>): int { if delays == [] then 0 else delays[0] + TotalOf(delays[1..]) }

  lemma {:induction false} TotalIsBounded(delays: seq<int>, bound: int)
    requires forall i :: 0 <= i < |delays| ==> 0 <= delays[i] <= bound
    ensures TotalOf(delays) <= |delays| * bound
  {
    if delays != [] {
      TotalIsBounded(delays[1..], bound);
      assert |delays| * bound == bound + |delays[1..]| * bound;
    }
  }

  lemma {:induction false} SuccessCount(env: nat -> Attempt, n: nat)
    requires forall i :: 0 <= i < n - 1 ==> Retries(env(i))
    ensures Count(Succeeds, env, n) <= 1
    ensures Count(Succeeds, env, n) == 1 <==> n > 0 && Succeeds(env(n - 1))
    ensures n - 1 <= Count(FailsVisibly, env, n)
    ensures Count(Succeeds, env, n) + Count(FailsVisibly, env, n) <= n
    ensures n > 0 && env(n - 1).Made? && !env(n - 1).cancelled ==>
              Count(Succeeds, env, n) + Count(FailsVisibly, env, n) == n
  {
    if n > 0 {
      SuccessCount(env, n - 1);
      if n > 1 {
        assert Retries(env(n - 2));
      }
    }
  }

  /** One delay after another: the product with the multiplier, capped, or without
      its fraction of a nanosecond. */
  predicate Follows(delay: int, next: int, multiplier: real, max: int) {
    var product := delay as real * multiplier;
    if product >= max as real then next == max else 0.0 <= product - next as real < 1.0
  }

  ghost predicate Multiplying(delays: seq<int>, multiplier: real, max: int) {
    forall i :: 0 <= i < |delays| - 1 ==> Follows(delays[i], delays[i + 1], multiplier, max)
  }

  /** The attempts that failed and did not see the cancellation. */
  ghost function Unrecovered(env: nat -> Attempt, n: nat): set<nat> {
    set i: nat | i < n && env(i).Made? && !(env(i).collected && env(i).published) && !env(i).cancelled
  }

  lemma NextBackoffFollows(b: Backoff, delay: int)
    ensures Follows(delay, NextBackoff(b, delay), b.multiplier, b.max)
  {
  }

  lemma {:induction false} FailuresAreCounted(env: nat -> Attempt, n: nat)
    ensures Count(FailsVisibly, env, n) == |Unrecovered(env, n)|
  {
    if n > 0 {
      FailuresAreCounted(env, n - 1);
      OneMoreAttempt(env, n - 1);
    }
  }

  lemma OneMoreAttempt(env: nat -> Attempt, n: nat)
    ensures n !in Unrecovered(env, n)
    ensures Unrecovered(env, n + 1) == if FailsVisibly(env(n)) then Unrecovered(env, n) + {n} else Unrecovered(env, n)
  {
    forall i: nat
      ensures i in Unrecovered(env, n + 1) <==> i in Unrecovered(env, n) || (i == n && FailsVisibly(env(n)))
    {
    }
  }

  lemma DelaysMultiply(b: Backoff, delays: seq<int>)
    requires forall i :: 0 <= i < |delays| ==> delays[i] == DelayAfter(b, i)
    ensures Multiplying(delays, b.multiplier, b.max)
  {
    forall i | 0 <= i < |delays| - 1 ensures Follows(delays[i], delays[i + 1], b.multiplier, b.max) {
      NextBackoffFollows(b, delays[i]);
    }
  }

  lemma DelaysRise(b: Backoff, delays: seq<int>)
    requires ValidBackoff(b) && forall i :: 0 <= i < |delays| ==> delays[i] == DelayAfter(b, i)
    ensures forall i, j :: 0 <= i <= j < |delays| ==> b.initial <= delays[i] <= delays[j] <= b.max
    ensures |delays| <= b.maxAttempts - 1 ==> TotalOf(delays) <= (b.maxAttempts - 1) * b.max
  {
    forall i, j | 0 <= i <= j < |delays| ensures b.initial <= delays[i] <= delays[j] <= b.max {
      DelaysAreOrdered(b, i, j);
    }
    TotalIsBounded(delays, b.max);
    if |delays| <= b.maxAttempts - 1 {
      MulMonotone(b.max, |delays|, b.maxAttempts - 1);
    }
  }

  /** When all attempts but the last retried, what the counters add up to. */
  lemma OutcomesAreCounted(env: nat -> Attempt, n: nat)
    requires forall i :: 0 <= i < n - 1 ==> Retries(env(i))
    ensures var publishes, records := Count(Succeeds, env, n), Count(FailsVisibly, env, n);
            && publishes <= 1 && publishes + records <= n && records == |Unrecovered(env, n)|
            && (publishes == 1 ==> n > 0 && Succeeds(env(n - 1)) && records == n - 1)
  {
    SuccessCount(env, n);
    FailuresAreCounted(env, n);
  }

  /** At most MaxAttempts attempts and one successful publish; every failure not
      seen as cancelled is recorded, once, and nothing else is; the waits start at
      the initial delay, each multiplies the one before up to the cap, and their
      total is bounded by the configuration. */
  method Collect(b: Backoff, env: nat -> Attempt)
    returns (attempts: nat, publishes: nat, records: nat, delays: seq<int>)
    requires ValidBackoff(b)
    ensures attempts <= b.maxAttempts && publishes <= 1
    ensures publishes == 1 ==> attempts > 0 && Succeeds(env(attempts - 1)) && records == attempts - 1
    ensures records == Count(FailsVisibly, env, attempts) && publishes + records <= attempts
    ensures |delays| <= b.maxAttempts - 1
    ensures records == |Unrecovered(env, attempts)|
    ensures delays != [] ==> delays[0] == b.initial
    ensures Multiplying(delays, b.multiplier, b.max)
    ensures forall i, j :: 0 <= i <= j < |delays| ==> b.initial <= delays[i] <= delays[j] <= b.max
    ensures TotalOf(delays) <= (b.maxAttempts - 1) * b.max
  {
    attempts, publishes, records, delays := RunAttempts(b, env);
    OutcomesAreCounted(env, attempts);
    DelaysMultiply(b, delays);
    DelaysRise(b, delays);
  }

  lemma {:induction false} DelaysAreOrdered(b: Backoff, i: nat, j: nat)
    requires ValidBackoff(b) && i <= j
    ensures b.initial <= DelayAfter(b, i) <= DelayAfter(b, j) <= b.max
    decreases j
  {
    DelaysGrow(b, i);
    if i < j {
      DelaysAreOrdered(b, i, j - 1);
      DelaysGrow(b, j - 1);
      DelaysGrow(b, j);
    }
  }
}

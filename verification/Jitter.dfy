/** The SDK retryer's backoff: doubling up to a cap without ever overflowing. */
module Jitter {
  import opened Arithmetic

  function Power(n: nat): nat { if n == 0 then 1 else 2 * Power(n - 1) }

  /** Go's division by two, which truncates towards zero. */
  function Half(a: int): int { if a >= 0 then a / 2 else -((-a) / 2) }

  /** The delay before jitter. */
  function Doubled(base: int, max: int, attempt: int): int { Min(base * Power(Max(attempt - 1, 0)), max) }

  lemma {:induction false} PowerGrows(m: nat, n: nat)
    requires m <= n
    ensures Power(m) <= Power(n)
    decreases n - m
  {
    if m < n {
      PowerGrows(m + 1, n);
    }
  }

  /** Once the cap is reached, more doublings change nothing. */
  lemma CapIsFinal(base: int, max: int, m: nat, n: nat)
    requires base > 0 && m <= n && base * Power(m) >= max
    ensures Min(base * Power(n), max) == max
  {
  }

  lemma DoubleOnce(base: int, m: nat)
    ensures base * Power(m + 1) == 2 * (base * Power(m))
  {
  }

  /** The loop of `BackoffDelay`; `trace` lists every value that `delay` takes. */
  method CappedDelay(base: int, max: int, attempt: int) returns (delay: int, ghost trace: seq<int>)
    ensures base > 0 && max > 0 ==> delay == Doubled(base, max, attempt)
    ensures forall v :: v in trace ==> v <= Max(base, max)
    ensures base > 0 && max > 0 ==> forall v :: v in trace ==> v > 0
    ensures trace != [] && trace[0] == base && trace[|trace| - 1] == delay
  {
    delay := base;
    trace := [base];
    var step := 1;
    ghost var last := Max(attempt - 1, 0);
    while step < attempt && delay < max
      invariant 1 <= step && step - 1 <= last
      invariant base > 0 ==> delay == base * Power(step - 1) > 0
      invariant forall v :: v in trace ==> v <= Max(base, max) && (base > 0 ==> v > 0)
      invariant trace != [] && trace[0] == base && trace[|trace| - 1] == delay
      decreases attempt - step
    {
      DoubleOnce(base, step - 1);
      if delay > Half(max) {
        if base > 0 && max > 0 {
          CapIsFinal(base, max, step, last);
        }
        return max, trace + [max];
      }
      delay := delay * 2;
      trace := trace + [delay];
      step := step + 1;
    }
    if base > 0 && delay >= max {
      CapIsFinal(base, max, step - 1, last);
    }
    if delay > max {
      delay := max;
      trace := trace + [max];
    }
  }

  /** `BackoffDelay` with the random number drawn: at most the capped delay. */
  method BackoffDelay(base: int, max: int, attempt: int, random: real) returns (delay: int)
    requires 0.0 <= random < 1.0
    ensures base > 0 && max > 0 ==> 0 <= delay <= Doubled(base, max, attempt) <= max
    ensures base > 0 && max > 0 ==> delay == (random * Doubled(base, max, attempt) as real).Floor
  {
    var capped, trace := CappedDelay(base, max, attempt);
    delay := Truncate(random * capped as real);
    if base > 0 && max > 0 {
      CappedIsPositive(base, max, attempt);
      JitterBound(random, capped);
    }
  }

  /** Go's conversion from a float to an integer, which truncates towards zero. */
  function Truncate(x: real): int { if x >= 0.0 then x.Floor else -((-x).Floor) }

  lemma JitterBound(random: real, n: int)
    requires 0.0 <= random < 1.0 && n > 0
    ensures 0 <= Truncate(random * n as real) <= n && Truncate(random * n as real) == (random * n as real).Floor
  {
  }

  lemma CappedIsPositive(base: int, max: int, attempt: int)
    requires base > 0 && max > 0
    ensures 0 < Doubled(base, max, attempt) <= max
  {
    PowerGrows(0, Max(attempt - 1, 0));
    MulMonotone(base, 1, Power(Max(attempt - 1, 0)));
  }

  /** The delay never shrinks from one attempt to the next. */
  lemma DelaysNeverShrink(base: int, max: int, a: int, b: int)
    requires base > 0 && max > 0 && a <= b
    ensures Doubled(base, max, a) <= Doubled(base, max, b)
  {
    PowerGrows(Max(a - 1, 0), Max(b - 1, 0));
    MulMonotone(base, Power(Max(a - 1, 0)), Power(Max(b - 1, 0)));
  }
}

/**
 Retry policy, backoff and the retry loop of fprovider/src/resilience.rs.
 Delays are exact reals; the operation is an oracle from attempt number to outcome.
 */
module Retry {
  import opened Wrappers
  import opened ProviderModel

  datatype RetryPolicy = RetryPolicy(
    maxAttempts: u32,
    initialBackoff: real,
    maxBackoff: real,
    multiplier: real)
  {
    /** Durations are never negative. */
    predicate Valid() {
      initialBackoff >= 0.0 && maxBackoff >= 0.0
    }

    predicate ShouldRetry(attempt: nat, error: ProviderError) {
      error.retryable && attempt < maxAttempts
    }

    /**
     `min(initial * multiplier^exponent, max)`, where the exponent went through a cast to `i32`. It is negative where
     the conversion to a duration panics, see `PanicsIff`.
     */
    function Backoff(attempt: nat): (delay: real)
      requires Valid()
      ensures delay <= maxBackoff
      ensures multiplier >= 0.0 ==> 0.0 <= delay
    {
      var exponent := AsI32(if attempt == 0 then 0 else attempt - 1);
      if multiplier == 0.0 && exponent < 0 then
        maxBackoff // the float power is infinite
      else
        assert multiplier >= 0.0 ==> Power(multiplier, exponent) >= 0.0 by {
          if multiplier >= 0.0 {
            PowerSign(multiplier, exponent);
          }
        }
        Min(Scaled(this, exponent), maxBackoff)
    }
  }

  /** `initial * multiplier^exponent`. */
  function Scaled(policy: RetryPolicy, exponent: int): real
    requires exponent >= 0 || policy.multiplier != 0.0
  {
    policy.initialBackoff * Power(policy.multiplier, exponent)
  }

  const TWO_31 := 0x8000_0000

  function Min(a: real, b: real): real { if a <= b then a else b }

  function AsI32(n: nat): int {
    var low := n % 0x1_0000_0000;
    if low < TWO_31 then low else low - 0x1_0000_0000
  }

  function Power(base: real, exponent: int): real
    requires exponent >= 0 || base != 0.0
    decreases if exponent < 0 then 1 - exponent else exponent
  {
    if exponent == 0 then 1.0
    else if exponent > 0 then base * Power(base, exponent - 1)
    else Power(base, exponent + 1) / base
  }

  lemma {:induction false} PowerSign(base: real, exponent: int)
    requires base >= 0.0 && (exponent >= 0 || base != 0.0)
    ensures Power(base, exponent) >= 0.0
    decreases if exponent < 0 then 1 - exponent else exponent
  {
    if exponent > 0 { PowerSign(base, exponent - 1); }
    if exponent < 0 { PowerSign(base, exponent + 1); }
  }

  lemma PowerStep(base: real, exponent: int)
    requires base > 0.0
    ensures Power(base, exponent) == base * Power(base, exponent - 1)
  {
    if exponent <= 0 {
      assert Power(base, exponent - 1) == Power(base, exponent) / base;
    }
  }

  lemma {:induction false} PowerMonotone(base: real, low: int, high: int)
    requires base >= 1.0 && low <= high
    ensures 0.0 < Power(base, low) <= Power(base, high)
    decreases high - low, if high < 0 then -high else high
  {
    if low < high {
      hide Power;
      PowerMonotone(base, low, high - 1);
      PowerStep(base, high);
      Grows(base, Power(base, high - 1));
    } else {
      PowerPositive(base, low);
    }
  }

  lemma Grows(base: real, x: real)
    requires base >= 1.0 && x > 0.0
    ensures x <= base * x
  {
  }

  lemma {:induction false} PowerPositive(base: real, exponent: int)
    requires base > 0.0
    ensures Power(base, exponent) > 0.0
    decreases if exponent < 0 then 1 - exponent else exponent
  {
    if exponent > 0 { PowerPositive(base, exponent - 1); }
    if exponent < 0 { PowerPositive(base, exponent + 1); }
  }

  /** The attempt at which the loop stops, when it stands before attempt `a`. */
  function StopAttempt<T>(policy: RetryPolicy, outcome: nat -> Result<T, ProviderError>, a: nat): (n: nat)
    ensures a <= n
    ensures n == a || n <= policy.maxAttempts
    ensures outcome(n).Ok? || !policy.ShouldRetry(n, outcome(n).error)
    ensures forall i :: a <= i < n ==> outcome(i).Err? && policy.ShouldRetry(i, outcome(i).error)
    decreases if a < policy.maxAttempts then policy.maxAttempts - a else 0
  {
    match outcome(a)
    case Ok(_) => a
    case Err(e) => if policy.ShouldRetry(a, e) then StopAttempt(policy, outcome, a + 1) else a
  }

  /** Attempts are repeated exactly while they fail with an error that says it may be retried, below the limit. */
  lemma StopsExactly<T>(policy: RetryPolicy, outcome: nat -> Result<T, ProviderError>, a: nat, n: nat)
    requires a <= n
    ensures n == StopAttempt(policy, outcome, a) <==>
      && (outcome(n).Err? ==> !outcome(n).error.retryable || n >= policy.maxAttempts)
      && (forall i :: a <= i < n ==> outcome(i).Err? && outcome(i).error.retryable && i < policy.maxAttempts)
  {
    var stop := StopAttempt(policy, outcome, a);
    assert stop < n ==> outcome(stop).Ok? || !policy.ShouldRetry(stop, outcome(stop).error);
    assert n < stop ==> outcome(n).Err? && policy.ShouldRetry(n, outcome(n).error);
  }

  datatype HookEvent =
    | AttemptStart(attempt: nat)
    | RetryScheduled(attempt: nat, delay: real, error: ProviderError)
    | Success(attempts: nat)
    | Failure(attempts: nat, error: ProviderError)

  /** Start 1, retry 1, ..., start n - 1, retry n - 1. */
  function FailedAttempts<T>(policy: RetryPolicy, outcome: nat -> Result<T, ProviderError>, n: nat): seq<HookEvent>
    requires policy.Valid()
    requires forall i :: 1 <= i < n ==> outcome(i).Err?
  {
    if n <= 1 then
      []
    else
      var failed := [AttemptStart(n - 1), RetryScheduled(n - 1, policy.Backoff(n - 1), outcome(n - 1).error)];
      FailedAttempts(policy, outcome, n - 1) + failed
  }

  /** The whole hook trace of one operation. */
  function HookTrace<T>(policy: RetryPolicy, outcome: nat -> Result<T, ProviderError>): seq<HookEvent>
    requires policy.Valid()
  {
    var n := StopAttempt(policy, outcome, 1);
    FailedAttempts(policy, outcome, n) + [AttemptStart(n),
      match outcome(n) case Ok(_) => Success(n) case Err(e) => Failure(n, e)]
  }

  function Delays(policy: RetryPolicy, n: nat): (delays: seq<real>)
    requires policy.Valid()
    ensures |delays| == if n <= 1 then 0 else n - 1
    ensures forall i :: 0 <= i < |delays| ==> delays[i] <= policy.maxBackoff && (policy.multiplier >= 0.0 ==> 0.0 <= delays[i])
  {
    if n <= 1 then [] else Delays(policy, n - 1) + [policy.Backoff(n - 1)]
  }

  function Sum(delays: seq<real>): real {
    if delays == [] then 0.0 else Sum(delays[..|delays| - 1]) + delays[|delays| - 1]
  }

  /** `execute_with_retry`: the outcome of the last attempt, the hook calls and the sleeps. */
  method ExecuteWithRetry<T>(policy: RetryPolicy, outcome: nat -> Result<T, ProviderError>)
    returns (r: Result<T, ProviderError>, attempts: nat, hooks: seq<HookEvent>, slept: seq<real>)
    requires policy.Valid()
    ensures attempts == StopAttempt(policy, outcome, 1)
    ensures 1 <= attempts && (attempts == 1 || attempts <= policy.maxAttempts)
    ensures r == outcome(attempts)
    ensures hooks == HookTrace(policy, outcome)
    ensures slept == Delays(policy, attempts)
  {
    hide RetryPolicy.Backoff;
    var attempt := 1;
    hooks, slept := [], [];
    while true
      invariant 1 <= attempt
      invariant attempt == 1 || attempt <= policy.maxAttempts
      invariant forall i :: 1 <= i < attempt ==> outcome(i).Err?
      invariant StopAttempt(policy, outcome, 1) == StopAttempt(policy, outcome, attempt)
      invariant hooks == FailedAttempts(policy, outcome, attempt)
      invariant slept == Delays(policy, attempt)
      decreases if attempt < policy.maxAttempts then policy.maxAttempts - attempt else 0
    {
      hooks := hooks + [AttemptStart(attempt)];
      match outcome(attempt) {
        case Ok(value) =>
          hooks := hooks + [Success(attempt)];
          return Ok(value), attempt, hooks, slept;
        case Err(error) =>
          if policy.ShouldRetry(attempt, error) {
            var delay := policy.Backoff(attempt);
            hooks := hooks + [RetryScheduled(attempt, delay, error)];
            slept := slept + [delay];
            attempt := attempt + 1;
            continue;
          }
          hooks := hooks + [Failure(attempt, error)];
          return Err(error), attempt, hooks, slept;
      }
    }
  }

  /** One start per attempt, one retry between consecutive attempts, one verdict at the end, on the last attempt. */
  lemma {:induction false} FailedAttemptsShape<T>(policy: RetryPolicy, outcome: nat -> Result<T, ProviderError>, n: nat)
    requires policy.Valid() && n >= 1
    requires forall i :: 1 <= i < n ==> outcome(i).Err?
    ensures var t := FailedAttempts(policy, outcome, n);
      && |t| == 2 * (n - 1)
      && forall i :: 1 <= i < n ==>
        && t[2 * i - 2] == AttemptStart(i)
        && t[2 * i - 1] == RetryScheduled(i, policy.Backoff(i), outcome(i).error)
  {
    hide RetryPolicy.Backoff;
    if n > 1 {
      FailedAttemptsShape(policy, outcome, n - 1);
      var before, t := FailedAttempts(policy, outcome, n - 1), FailedAttempts(policy, outcome, n);
      forall i | 1 <= i < n - 1 ensures t[2 * i - 2] == before[2 * i - 2] && t[2 * i - 1] == before[2 * i - 1] {
      }
    }
  }

  /** The protocol a hook observes: start 1, retry 1, start 2, ..., start n, then success n or failure n. */
  lemma HookProtocol<T>(policy: RetryPolicy, outcome: nat -> Result<T, ProviderError>)
    requires policy.Valid()
    ensures var t, n := HookTrace(policy, outcome), StopAttempt(policy, outcome, 1);
      && 1 <= n && (n == 1 || n <= policy.maxAttempts)
      && |t| == 2 * n
      && (forall i :: 1 <= i <= n ==> t[2 * i - 2] == AttemptStart(i))
      && (forall i :: 1 <= i < n ==> outcome(i).Err? && t[2 * i - 1] == RetryScheduled(i, policy.Backoff(i), outcome(i).error))
      && t[2 * n - 1] == match outcome(n) case Ok(_) => Success(n) case Err(e) => Failure(n, e)
  {
    hide RetryPolicy.Backoff, FailedAttempts, StopAttempt;
    var n := StopAttempt(policy, outcome, 1);
    FailedAttemptsShape(policy, outcome, n);
  }

  /** `x` added up `n` times. */
  function Times(n: nat, x: real): real {
    if n == 0 then 0.0 else Times(n - 1, x) + x
  }

  lemma {:induction false} TimesIsProduct(n: nat, x: real)
    ensures Times(n, x) == n as real * x
  {
    if n > 0 {
      TimesIsProduct(n - 1, x);
      var k: real := (n - 1) as real;
      assert n as real == k + 1.0;
      Distribute(k, x);
    }
  }

  lemma Distribute(k: real, x: real)
    ensures (k + 1.0) * x == k * x + x
  {
  }

  lemma {:induction false} SumBound(delays: seq<real>, cap: real)
    requires forall i :: 0 <= i < |delays| ==> 0.0 <= delays[i] <= cap
    ensures 0.0 <= Sum(delays) <= Times(|delays|, cap)
  {
    if delays != [] {
      SumBound(delays[..|delays| - 1], cap);
    }
  }

  /** The sleeps of a run of `n` attempts add up to at most `n - 1` times `max_backoff`. */
  lemma TotalDelay(policy: RetryPolicy, n: nat)
    requires policy.Valid() && policy.multiplier >= 0.0 && n >= 1
    ensures 0.0 <= Sum(Delays(policy, n)) <= (n - 1) as real * policy.maxBackoff
  {
    hide Delays, Sum, Times, RetryPolicy.Backoff;
    SumBound(Delays(policy, n), policy.maxBackoff);
    TimesIsProduct(n - 1, policy.maxBackoff);
  }

  /** Powers of a negative base alternate in sign. */
  lemma {:induction false} PowerAlternates(base: real, exponent: int)
    requires base < 0.0
    ensures if exponent % 2 == 0 then Power(base, exponent) > 0.0 else Power(base, exponent) < 0.0
    decreases if exponent < 0 then 1 - exponent else exponent
  {
    hide Power;
    if exponent > 0 {
      PowerAlternates(base, exponent - 1);
      PowerUp(base, exponent);
      SignsFlip(base, Power(base, exponent - 1));
    } else if exponent < 0 {
      PowerAlternates(base, exponent + 1);
      PowerUp(base, exponent + 1);
      SignsFlip(base, Power(base, exponent));
    } else {
      PowerZero(base);
    }
  }

  lemma PowerUp(base: real, exponent: int)
    requires base != 0.0
    ensures Power(base, exponent) == base * Power(base, exponent - 1)
  {
  }

  lemma SignsFlip(a: real, b: real)
    requires a < 0.0
    ensures (a * b < 0.0 <==> b > 0.0) && (a * b > 0.0 <==> b < 0.0)
  {
  }

  /** The conversion to a duration panics exactly on an odd power of a negative multiplier of a nonzero initial delay. */
  lemma PanicsIff(policy: RetryPolicy, attempt: nat)
    requires policy.Valid()
    ensures policy.Backoff(attempt) < 0.0 <==>
      policy.multiplier < 0.0 && policy.initialBackoff > 0.0 && AsI32(if attempt == 0 then 0 else attempt - 1) % 2 == 1
  {
    hide Power, AsI32, RetryPolicy.Backoff;
    if policy.multiplier < 0.0 {
      var exponent := AsI32(if attempt == 0 then 0 else attempt - 1);
      PowerAlternates(policy.multiplier, exponent);
      ProductSign(policy.initialBackoff, Power(policy.multiplier, exponent));
      BackoffSigned(policy, attempt, exponent);
    }
  }

  lemma BackoffSigned(policy: RetryPolicy, attempt: nat, exponent: int)
    requires policy.Valid() && policy.multiplier < 0.0
    requires exponent == AsI32(if attempt == 0 then 0 else attempt - 1)
    ensures policy.Backoff(attempt) == Min(Scaled(policy, exponent), policy.maxBackoff)
  {
    hide Scaled;
  }

  lemma ProductSign(a: real, b: real)
    requires a >= 0.0 && b != 0.0
    ensures a * b < 0.0 <==> a > 0.0 && b < 0.0
  {
  }

  lemma CapCommutes(cap: real, x: real, m: real)
    requires m >= 1.0 && x >= 0.0 && cap >= 0.0
    ensures Min(m * Min(x, cap), cap) == Min(m * x, cap)
  {
    assert x > cap ==> m * x >= m * cap >= cap by {
      if x > cap {
        assert m * x >= m * cap;
        assert (m - 1.0) * cap >= 0.0;
      }
    }
  }

  /** The first delay is the initial one and each later one the multiplier times its predecessor, all capped. */
  lemma BackoffRecurrence(policy: RetryPolicy, attempt: nat)
    requires policy.Valid() && policy.multiplier >= 1.0 && 1 <= attempt < TWO_31
    ensures policy.Backoff(1) == Min(policy.initialBackoff, policy.maxBackoff)
    ensures policy.Backoff(attempt + 1) == Min(policy.multiplier * policy.Backoff(attempt), policy.maxBackoff)
  {
    hide Power, Scaled, RetryPolicy.Backoff;
    BackoffIs(policy, 1);
    BackoffIs(policy, attempt);
    BackoffIs(policy, attempt + 1);
    ScaledStep(policy, attempt - 1);
    CapCommutes(policy.maxBackoff, Scaled(policy, attempt - 1), policy.multiplier);
  }

  /** Up to attempt 2^31 the delay is the scaled initial one, capped; beyond it the exponent starts again at -2^31. */
  lemma BackoffIs(policy: RetryPolicy, attempt: nat)
    requires policy.Valid() && 1 <= attempt
    ensures attempt <= TWO_31 ==> policy.Backoff(attempt) == Min(Scaled(policy, attempt - 1), policy.maxBackoff)
    ensures TWO_31 < attempt <= 2 * TWO_31 && policy.multiplier != 0.0 ==>
      policy.Backoff(attempt) == Min(Scaled(policy, attempt - 1 - 2 * TWO_31), policy.maxBackoff)
    ensures TWO_31 < attempt <= 2 * TWO_31 && policy.multiplier == 0.0 ==> policy.Backoff(attempt) == policy.maxBackoff
    ensures Scaled(policy, 0) == policy.initialBackoff
  {
    hide Power;
    PowerZero(policy.multiplier);
  }

  lemma PowerZero(base: real)
    ensures Power(base, 0) == 1.0
  {
  }

  /** Scaling by one more power multiplies once more, whatever the multiplier, on either side of zero. */
  lemma ScaledStep(policy: RetryPolicy, e: int)
    requires policy.Valid() && (e >= 0 || policy.multiplier != 0.0)
    ensures Scaled(policy, e + 1) == policy.multiplier * Scaled(policy, e)
    ensures policy.multiplier >= 0.0 ==> Scaled(policy, e) >= 0.0
  {
    hide Power;
    NextPower(policy.multiplier, e);
    if policy.multiplier >= 0.0 {
      PowerSign(policy.multiplier, e);
    }
    Reassociate(policy.initialBackoff, policy.multiplier, Power(policy.multiplier, e));
  }

  lemma NextPower(base: real, e: int)
    requires e >= 0 || base != 0.0
    ensures Power(base, e + 1) == base * Power(base, e)
  {
    if e < 0 {
      assert Power(base, e) == Power(base, e + 1) / base;
    }
  }

  lemma Reassociate(a: real, b: real, c: real)
    ensures a * (b * c) == b * (a * c)
  {
  }

  /** Every delay between attempts `1 .. maxAttempts - 1` is at most the next one. */
  ghost predicate DelaysNeverDecrease(policy: RetryPolicy)
    requires policy.Valid()
  {
    forall a, b :: 1 <= a <= b < policy.maxAttempts ==> policy.Backoff(a) <= policy.Backoff(b)
  }

  lemma ScaledMonotone(policy: RetryPolicy, low: int, high: int)
    requires policy.Valid() && policy.multiplier >= 1.0 && low <= high
    ensures Scaled(policy, low) <= Scaled(policy, high)
  {
    PowerMonotone(policy.multiplier, low, high);
  }

  lemma {:induction false} PowerOfOne(exponent: int)
    ensures Power(1.0, exponent) == 1.0
    decreases if exponent < 0 then 1 - exponent else exponent
  {
    if exponent > 0 { PowerOfOne(exponent - 1); }
    if exponent < 0 { PowerOfOne(exponent + 1); }
  }

  lemma {:induction false} PowerStrict(base: real, low: int, high: int)
    requires base > 1.0 && low < high
    ensures 0.0 < Power(base, low) < Power(base, high)
    decreases high - low
  {
    hide Power;
    PowerPositive(base, high - 1);
    PowerStep(base, high);
    GrowsStrictly(base, Power(base, high - 1), Power(base, high));
    if low < high - 1 {
      PowerStrict(base, low, high - 1);
    }
  }

  lemma GrowsStrictly(base: real, x: real, y: real)
    requires base > 1.0 && x > 0.0 && y == base * x
    ensures x < y
  {
    assert (base - 1.0) * x > 0.0;
  }

  lemma ScaledStrict(policy: RetryPolicy, low: int, high: int)
    requires policy.Valid() && policy.multiplier > 1.0 && policy.initialBackoff > 0.0 && low < high
    ensures Scaled(policy, low) < Scaled(policy, high)
  {
    hide Power;
    PowerStrict(policy.multiplier, low, high);
    ProductGrows(policy.initialBackoff, Power(policy.multiplier, low), Power(policy.multiplier, high));
  }

  lemma ProductGrows(a: real, x: real, y: real)
    requires a > 0.0 && x < y
    ensures a * x < a * y
  {
    assert a * (y - x) > 0.0;
  }

  /** Every delay is the same: nothing grows, or even the most negative power is beyond the cap. */
  predicate Flat(policy: RetryPolicy)
    requires policy.multiplier >= 1.0
  {
    policy.multiplier == 1.0 || policy.initialBackoff == 0.0 || Scaled(policy, -TWO_31) >= policy.maxBackoff
  }

  /**
   With a multiplier of at least 1 the delays never decrease, unless the attempt limit passes 2^31 + 1:
   the exponent's cast to `i32` then wraps around to the most negative power. The condition is exact.
   */
  lemma DelaysNeverDecreaseIff(policy: RetryPolicy)
    requires policy.Valid() && policy.multiplier >= 1.0
    ensures DelaysNeverDecrease(policy) <==> policy.maxAttempts <= TWO_31 + 1 || Flat(policy)
  {
    hide Power, Scaled;
    if policy.maxAttempts > TWO_31 + 1 && !Flat(policy) {
      ScaledStrict(policy, -TWO_31, TWO_31 - 1);
      assert AsI32(TWO_31 - 1) == TWO_31 - 1 && AsI32(TWO_31) == -TWO_31;
      assert policy.Backoff(TWO_31) > policy.Backoff(TWO_31 + 1);
    } else {
      forall a, b | 1 <= a <= b < policy.maxAttempts ensures policy.Backoff(a) <= policy.Backoff(b) {
        NoWrapOrFlat(policy, a, b);
      }
    }
  }

  lemma NoWrapOrFlat(policy: RetryPolicy, a: nat, b: nat)
    requires policy.Valid() && policy.multiplier >= 1.0
    requires 1 <= a <= b < policy.maxAttempts
    requires policy.maxAttempts <= TWO_31 + 1 || Flat(policy)
    ensures policy.Backoff(a) <= policy.Backoff(b)
  {
    hide Power;
    var ea, eb := AsI32(a - 1), AsI32(b - 1);
    if policy.maxAttempts <= TWO_31 + 1 {
      ScaledMonotone(policy, ea, eb);
    } else if policy.multiplier == 1.0 {
      PowerOfOne(ea);
      PowerOfOne(eb);
    } else if policy.initialBackoff == 0.0 {
      assert Scaled(policy, ea) == Scaled(policy, eb) == 0.0;
    } else {
      ScaledMonotone(policy, -TWO_31, eb);
    }
  }

  /** Doubling from one second, capped at one second, with the largest attempt limit: the delays do decrease. */
  lemma DelaysMayDecrease()
    ensures var policy := RetryPolicy(0xFFFF_FFFF, 1.0, 1.0, 2.0);
      policy.Backoff(TWO_31) == 1.0 && policy.Backoff(TWO_31 + 1) < 1.0 && !DelaysNeverDecrease(policy)
  {
    var policy := RetryPolicy(0xFFFF_FFFF, 1.0, 1.0, 2.0);
    hide Power;
    PowerZero(2.0);
    PowerStrict(2.0, 0, TWO_31 - 1);
    PowerStrict(2.0, -TWO_31, 0);
    assert AsI32(TWO_31 - 1) == TWO_31 - 1 && AsI32(TWO_31) == -TWO_31;
    assert policy.Backoff(TWO_31) > policy.Backoff(TWO_31 + 1);
  }
}

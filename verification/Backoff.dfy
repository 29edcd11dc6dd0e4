/** The retry counter of src/backoff.rs: u64 shift-and-saturate delays and the attempt budget. */
module Backoff {
  import opened Words

  datatype RetryOptions = RetryOptions(maxDelaySeconds: U64, baseDelayMs: U64, maxAttempts: Option<U32>)

  // ---------------------------------------------------------------- delays

  function Pow2(k: nat): (p: nat)
    ensures p >= 1
  {
    if k == 0 then 1 else 2 * Pow2(k - 1)
  }

  /** `1u64.checked_shl(k).unwrap_or(u64::MAX)`. */
  function Multiplier(k: U32): (m: U64)
  {
    if k < 64 then Pow2Fits(k); Pow2(k) else U64_MAX
  }

  /** `u64::saturating_mul`. */
  function SaturatingMul(a: U64, b: U64): U64 {
    Min(a * b, U64_MAX)
  }

  /** `Duration::from_secs(s).as_millis() as u64`: the 128-bit product is truncated. */
  function MaxMs(o: RetryOptions): U64 {
    Wrap64(o.maxDelaySeconds * 1000)
  }

  /** `calculate_duration` up to the point where the jitter is applied. */
  function PlainDelay(o: RetryOptions, attempt: U32): U64
  {
    var k: U32 := if attempt == 0 then U32_MAX else attempt - 1;
    Min(MaxMs(o), SaturatingMul(o.baseDelayMs, Multiplier(k)))
  }

  /** The intended delay, over unbounded integers. */
  function IdealDelay(o: RetryOptions, attempt: nat): nat
    requires attempt >= 1
  {
    Min(o.maxDelaySeconds * 1000, o.baseDelayMs * Pow2(attempt - 1))
  }

  lemma {:induction false} Pow2Monotone(j: nat, k: nat)
    requires j <= k
    ensures Pow2(j) <= Pow2(k)
    decreases k
  {
    if j < k {
      Pow2Monotone(j, k - 1);
    }
  }

  lemma Pow2At64()
    ensures Pow2(64) == U64_MAX + 1
  {
    assert Pow2(8) == 256;
    assert Pow2(16) == 65536;
    assert Pow2(24) == 0x100_0000;
    assert Pow2(32) == 0x1_0000_0000;
    assert Pow2(40) == 0x100_0000_0000;
    assert Pow2(48) == 0x1_0000_0000_0000;
    assert Pow2(56) == 0x100_0000_0000_0000;
  }

  lemma Pow2Fits(k: nat)
    requires k < 64
    ensures Pow2(k) <= U64_MAX
  {
    Pow2At64();
    Pow2Monotone(k + 1, 64);
  }

  /** Saturation is invisible below a u64 ceiling. */
  lemma SaturationIsInvisible(base: U64, k: U32, ceiling: U64)
    ensures Min(ceiling, SaturatingMul(base, Multiplier(k))) == Min(ceiling, base * Pow2(k))
  {
    if k < 64 {
      Pow2Fits(k);
    } else {
      Pow2At64();
      Pow2Monotone(64, k);
      if base == 0 {
        assert base * Pow2(k) == 0 && base * U64_MAX == 0;
      } else {
        TimesAtLeast(base, U64_MAX);
        TimesAtLeast(base, Pow2(k));
      }
    }
  }

  lemma TimesAtLeast(a: nat, b: nat)
    requires a >= 1
    ensures a * b >= b
  {
  }

  /** The machine delay is the intended one exactly when the cap fits a u64, or the truncated
      cap is not reached. */
  lemma DelayIsIdealExactly(o: RetryOptions, attempt: U32)
    requires attempt >= 1
    ensures PlainDelay(o, attempt) == IdealDelay(o, attempt)
       <==> || o.maxDelaySeconds * 1000 <= U64_MAX
            || o.baseDelayMs * Pow2(attempt - 1) <= MaxMs(o)
  {
    SaturationIsInvisible(o.baseDelayMs, attempt - 1, MaxMs(o));
    assert o.maxDelaySeconds * 1000 > U64_MAX ==> MaxMs(o) < o.maxDelaySeconds * 1000;
  }

  /** Delays never shrink from one attempt to the next, truncated cap or not. */
  lemma DelayIsMonotone(o: RetryOptions, i: U32, j: U32)
    requires 1 <= i <= j
    ensures PlainDelay(o, i) <= PlainDelay(o, j)
  {
    SaturationIsInvisible(o.baseDelayMs, i - 1, MaxMs(o));
    SaturationIsInvisible(o.baseDelayMs, j - 1, MaxMs(o));
    Pow2Monotone(i - 1, j - 1);
    TimesMonotone(o.baseDelayMs, Pow2(i - 1), Pow2(j - 1));
  }

  lemma TimesMonotone(a: nat, b: nat, c: nat)
    requires b <= c
    ensures a * b <= a * c
  {
  }

  /** Total delay of the first `m` attempts. */
  function TotalDelay(o: RetryOptions, m: U32): nat {
    if m == 0 then 0 else TotalDelay(o, m - 1) + PlainDelay(o, m)
  }

  lemma Distribute(a: nat, b: nat, c: nat)
    ensures a * (b + c) == a * b + a * c
  {
  }

  /** Over `m` attempts the delays stay below both the capped and the geometric bound. */
  lemma {:induction false} TotalDelayBound(o: RetryOptions, m: U32)
    ensures TotalDelay(o, m) <= Min(MaxMs(o) * m, o.baseDelayMs * (Pow2(m) - 1))
  {
    if m > 0 {
      TotalDelayBound(o, m - 1);
      var p := Pow2(m - 1);
      assert PlainDelay(o, m) == Min(MaxMs(o), o.baseDelayMs * p) by {
        SaturationIsInvisible(o.baseDelayMs, m - 1, MaxMs(o));
      }
      assert o.baseDelayMs * (Pow2(m) - 1) == o.baseDelayMs * (p - 1) + o.baseDelayMs * p by {
        Distribute(o.baseDelayMs, p - 1, p);
      }
      assert MaxMs(o) * m == MaxMs(o) * (m - 1) + MaxMs(o) by {
        Distribute(MaxMs(o), m - 1, 1);
      }
    }
  }

  type Jitter = j: real | 0.1 <= j < 1.0 witness 0.5

  lemma ProductNonNegative(a: real, b: real)
    requires a >= 0.0 && b >= 0.0
    ensures a * b >= 0.0
  {
  }

  lemma Scale(d: nat, jitter: Jitter)
    ensures d / 10 <= ((d as real) * jitter).Floor <= d
  {
    var r := d as real;
    ProductNonNegative(r, jitter - 0.1);
    ProductNonNegative(r, 1.0 - jitter);
    assert r * (jitter - 0.1) == r * jitter - r * 0.1;
    assert r * (1.0 - jitter) == r - r * jitter;
    assert d == 10 * (d / 10) + d % 10;
    assert ((10 * (d / 10)) as real) <= r;
    assert ((d / 10) as real) <= r * 0.1;
  }

  /** A delay under a jitter in [0.1, 1.0), truncated to whole milliseconds. */
  function Scaled(d: nat, jitter: Jitter): (ms: nat)
    ensures (ms as real) <= (d as real) * jitter < (ms + 1) as real
    ensures d / 10 <= ms <= d
  {
    Scale(d, jitter);
    ((d as real) * jitter).Floor
  }

  /** The sleep actually taken. */
  function Sleep(o: RetryOptions, attempt: U32, jitter: Jitter): (ms: nat)
    ensures PlainDelay(o, attempt) / 10 <= ms <= PlainDelay(o, attempt)
  {
    Scaled(PlainDelay(o, attempt), jitter)
  }

  // ---------------------------------------------------------------- the attempt budget

  /** `can_attempt`, with the u32 increment wrapping. */
  predicate MayAttempt(o: RetryOptions, current: U32) {
    o.maxAttempts.Some? ==> Wrap32(current + 1) <= o.maxAttempts.value
  }

  function AfterAttempt(o: RetryOptions, current: U32): U32 {
    if MayAttempt(o, current) then Wrap32(current + 1) else current
  }

  /** The counter after `n` calls of `await_attempt` on a fresh counter. */
  function CounterAfter(o: RetryOptions, n: nat): U32 {
    if n == 0 then 0 else AfterAttempt(o, CounterAfter(o, n - 1))
  }

  predicate Bounded(o: RetryOptions) {
    o.maxAttempts.Some? && o.maxAttempts.value < U32_MAX
  }

  /** Within a bounded budget nothing wraps; any other allows every attempt. */
  lemma AttemptStep(o: RetryOptions, current: U32)
    requires Bounded(o) ==> current <= o.maxAttempts.value
    ensures MayAttempt(o, current) <==> (Bounded(o) ==> current < o.maxAttempts.value)
    ensures Bounded(o) && MayAttempt(o, current) ==> AfterAttempt(o, current) == current + 1
  {
  }

  lemma {:induction false} CounterSaturates(o: RetryOptions, n: nat)
    requires Bounded(o)
    ensures CounterAfter(o, n) == Min(n, o.maxAttempts.value)
  {
    if n > 0 {
      CounterSaturates(o, n - 1);
      AttemptStep(o, CounterAfter(o, n - 1));
    }
  }

  lemma CounterRunsOn(o: RetryOptions, n: nat)
    requires !Bounded(o)
    ensures MayAttempt(o, CounterAfter(o, n))
  {
  }

  /** A budget runs out exactly when it is below `u32::MAX`; then it allows exactly that many
      attempts. At `u32::MAX` the check itself wraps and the counter never refuses. */
  lemma BudgetIsExact(o: RetryOptions)
    ensures Bounded(o) ==> forall n: nat :: MayAttempt(o, CounterAfter(o, n)) <==> n < o.maxAttempts.value
    ensures !Bounded(o) ==> forall n: nat :: MayAttempt(o, CounterAfter(o, n))
  {
    forall n: nat
      ensures Bounded(o) ==> (MayAttempt(o, CounterAfter(o, n)) <==> n < o.maxAttempts.value)
      ensures !Bounded(o) ==> MayAttempt(o, CounterAfter(o, n))
    {
      if Bounded(o) { CounterSaturates(o, n); } else { CounterRunsOn(o, n); }
    }
  }

  class BackoffCounter {
    var currentAttempt: U32
    const options: RetryOptions
    /** Attempts awaited since construction or the last reset. */
    ghost var awaited: nat

    ghost predicate Valid() reads this {
      currentAttempt == CounterAfter(options, awaited)
    }

    constructor (options: RetryOptions)
      ensures Valid() && awaited == 0 && this.options == options
    {
      currentAttempt, this.options, awaited := 0, options, 0;
    }

    method CanAttempt() returns (ok: bool)
      requires Valid()
      ensures ok == MayAttempt(options, currentAttempt)
      ensures Bounded(options) ==> ok == (awaited < options.maxAttempts.value)
    {
      if options.maxAttempts.Some? {
        ok := Wrap32(currentAttempt + 1) <= options.maxAttempts.value;
      } else {
        ok := true;
      }
      BudgetIsExact(options);
    }

    /** The sleep is the out-parameter; `0` when the budget is spent. */
    method AwaitAttempt(jitter: Jitter) returns (ms: nat)
      requires Valid()
      modifies this
      ensures Valid()
      ensures awaited == old(awaited) + 1
      ensures currentAttempt == AfterAttempt(options, old(currentAttempt))
      ensures ms == if MayAttempt(options, old(currentAttempt)) then Sleep(options, currentAttempt, jitter) else 0
      ensures ms <= MaxMs(options)
    {
      var ok := CanAttempt();
      awaited := awaited + 1;
      if !ok {
        return 0;
      }
      currentAttempt := Wrap32(currentAttempt + 1);
      ms := Sleep(options, currentAttempt, jitter);
    }

    method Reset()
      modifies this
      ensures Valid() && awaited == 0 && currentAttempt == 0
    {
      currentAttempt, awaited := 0, 0;
    }
  }
}

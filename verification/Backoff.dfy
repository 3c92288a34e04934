/**
 The reconnect backoff of src/reconnect.rs: a checked, early-exiting multiplication loop
 and an integer "equal jitter" with a truncating cast.

 A `Duration` is its length in nanoseconds, bounded by what 64-bit seconds plus
 sub-second nanoseconds can hold.
 */
module Backoff {
  import opened Prelude

  const DURATION_MAX: nat := (U64_SPAN - 1) * 1_000_000_000 + 999_999_999

  type Duration = d: nat | d <= DURATION_MAX

  datatype Policy = Policy(initialDelay: Duration, maxDelay: Duration, multiplier: U32, jitter: bool)

  function CheckedMul(d: Duration, k: U32): Option<Duration> {
    if d * k <= DURATION_MAX then Some(d * k) else None
  }

  function Pow(b: nat, e: nat): nat {
    if e == 0 then 1 else b * Pow(b, e - 1)
  }

  /** The exponential before it is capped. */
  function Uncapped(p: Policy, attempt: nat): nat {
    p.initialDelay * Pow(p.multiplier, attempt)
  }

  lemma UncappedStep(p: Policy, attempt: nat)
    ensures Uncapped(p, 0) == p.initialDelay
    ensures Uncapped(p, attempt + 1) == Uncapped(p, attempt) * p.multiplier
  {
    var a, b, c := p.initialDelay, p.multiplier, Pow(p.multiplier, attempt);
    assert a * (b * c) == (a * c) * b;
  }

  /** The closed form of the un-jittered delay, over unbounded integers. */
  function Delay(p: Policy, attempt: nat): Duration {
    if attempt == 0 then p.initialDelay
    else Min(Uncapped(p, attempt), p.maxDelay)
  }

  lemma {:induction false} ScaledPowMonotone(x: nat, b: nat, i: nat, j: nat)
    requires b >= 1 && i <= j
    ensures x * Pow(b, i) <= x * Pow(b, j)
    decreases j - i
  {
    if i < j {
      ScaledPowMonotone(x, b, i, j - 1);
      var y := x * Pow(b, j - 1);
      assert x * Pow(b, j) == b * y;
      assert y <= b * y;
    }
  }

  lemma {:induction false} ZeroPow(e: nat)
    requires e >= 1
    ensures Pow(0, e) == 0
  {
  }

  /** Once one product has reached the cap, every later one has too. */
  lemma CapIsAbsorbing(p: Policy, i: nat, attempt: nat)
    requires 1 <= i <= attempt
    requires Uncapped(p, i) >= p.maxDelay
    ensures Delay(p, attempt) == p.maxDelay
  {
    if p.multiplier == 0 {
      ZeroPow(i);
      ZeroPow(attempt);
    } else {
      ScaledPowMonotone(p.initialDelay, p.multiplier, i, attempt);
    }
  }

  /** `delay_for`: the loop with its checked product and early return. */
  method DelayFor(p: Policy, attempt: U32) returns (delay: Duration)
    ensures delay == Delay(p, attempt)
  {
    delay := p.initialDelay;
    UncappedStep(p, 0);
    for i := 0 to attempt
      invariant delay == Uncapped(p, i)
      invariant i > 0 ==> delay < p.maxDelay
    {
      UncappedStep(p, i);
      match CheckedMul(delay, p.multiplier)
      case Some(d) =>
        if d < p.maxDelay {
          delay := d;
        } else {
          CapIsAbsorbing(p, i + 1, attempt);
          return p.maxDelay;
        }
      case None =>
        CapIsAbsorbing(p, i + 1, attempt);
        return p.maxDelay;
    }
  }

  /** The delay never shrinks from one attempt to the next exactly when the policy either
      starts at zero or really grows and starts below its cap. */
  lemma DelayMonotoneIff(p: Policy)
    ensures (forall i: nat, j: nat :: i <= j ==> Delay(p, i) <= Delay(p, j))
            <==> (p.initialDelay == 0 || (p.multiplier >= 1 && p.initialDelay <= p.maxDelay))
  {
    assert Pow(p.multiplier, 1) == p.multiplier * Pow(p.multiplier, 0);
    if p.initialDelay == 0 || (p.multiplier >= 1 && p.initialDelay <= p.maxDelay) {
      forall i: nat, j: nat | i <= j
        ensures Delay(p, i) <= Delay(p, j)
      {
        if p.initialDelay != 0 {
          ScaledPowMonotone(p.initialDelay, p.multiplier, i, j);
          assert Pow(p.multiplier, 0) == 1;
        }
      }
    } else {
      assert Delay(p, 1) == Min(p.initialDelay * p.multiplier, p.maxDelay);
      assert !(Delay(p, 0) <= Delay(p, 1));
    }
  }

  /** `max_delay` caps every attempt exactly when `initial_delay` respects it: attempt 0 is not
      capped by the code. */
  lemma DelayCappedIff(p: Policy)
    ensures (forall i: nat :: Delay(p, i) <= p.maxDelay) <==> p.initialDelay <= p.maxDelay
  {
    assert Delay(p, 0) == p.initialDelay;
  }

  /** `jittered_delay_for` with the random 32-bit `fraction` as a parameter. */
  function Jittered(p: Policy, attempt: nat, fraction: U32): (r: Duration)
    ensures Delay(p, attempt) / 2 <= r <= Delay(p, attempt)
    ensures !p.jitter ==> r == Delay(p, attempt)
  {
    var delay := Delay(p, attempt);
    if !p.jitter then delay
    else
      var half := delay / 2;
      ExtraAtMostHalf(half, fraction);
      half + Extra(half, fraction) % U64_SPAN
  }

  /** The 128-bit quotient before it is cast to 64 bits. */
  function Extra(half: nat, fraction: U32): nat {
    half * fraction / U32_MAX
  }

  lemma ExtraAtMostHalf(half: nat, fraction: U32)
    ensures Extra(half, fraction) <= half
    ensures fraction == U32_MAX ==> Extra(half, fraction) == half
    ensures Extra(half, 0) == 0
  {
    assert half * fraction <= half * U32_MAX;
    assert half * U32_MAX / U32_MAX == half;
  }

  /** The 128-bit product never wraps for any representable delay. */
  lemma JitterProductFits(delay: Duration, fraction: U32)
    ensures (delay / 2) * fraction < U128_SPAN
  {
    ProductBound(delay / 2, fraction);
  }

  lemma ProductBound(half: nat, fraction: U32)
    requires half <= DURATION_MAX / 2
    ensures half * fraction <= (DURATION_MAX / 2) * U32_MAX
  {
  }

  /** The two ends of the jitter range, documented as half the delay and the delay. Fraction 0 gives the
      lower end. Some fraction, and then the largest, gives the upper end exactly if the delay is even and
      its half fits in 64 bits of nanoseconds: half of an odd delay is rounded down, and beyond 64 bits the
      cast truncates. */
  lemma JitterEnds(p: Policy, attempt: nat)
    requires p.jitter
    ensures Jittered(p, attempt, 0) == Delay(p, attempt) / 2
    ensures (exists fraction: U32 :: Jittered(p, attempt, fraction) == Delay(p, attempt))
            <==> Delay(p, attempt) % 2 == 0 && Delay(p, attempt) / 2 < U64_SPAN
    ensures Delay(p, attempt) % 2 == 0 && Delay(p, attempt) / 2 < U64_SPAN ==>
              Jittered(p, attempt, U32_MAX) == Delay(p, attempt)
  {
    var half := Delay(p, attempt) / 2;
    ExtraAtMostHalf(half, 0);
    ExtraAtMostHalf(half, U32_MAX);
    var top: U32 := U32_MAX;
    if Delay(p, attempt) % 2 == 0 && half < U64_SPAN {
      assert half % U64_SPAN == half;
      assert Jittered(p, attempt, top) == Delay(p, attempt);
    }
    forall fraction: U32 | Jittered(p, attempt, fraction) == Delay(p, attempt)
      ensures Delay(p, attempt) % 2 == 0 && half < U64_SPAN
    {
      ExtraAtMostHalf(half, fraction);
      assert Extra(half, fraction) % U64_SPAN <= Extra(half, fraction);
    }
  }

  /** `jittered_delay_for` over the imperative `delay_for`. */
  method JitteredDelayFor(p: Policy, attempt: U32, fraction: U32) returns (delay: Duration)
    ensures delay == Jittered(p, attempt, fraction)
  {
    var full := DelayFor(p, attempt);
    if !p.jitter {
      return full;
    }
    var half := full / 2;
    JitterProductFits(full, fraction);
    ExtraAtMostHalf(half, fraction);
    var extra := (half * fraction) / U32_MAX;
    delay := half + extra % U64_SPAN;
  }
}

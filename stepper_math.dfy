// Unit conversions of the Stepper class: degrees to microsteps and a velocity
// to the delay between step pulses. Floating-point values are modelled as
// reals; every `(unsigned int)` cast is written out as truncation toward zero,
// defined only where C++ defines it.

module StepperMath {
  import opened StepperDefs

  /** One more than the largest `unsigned int` (32 bits on the target). */
  const UintLimit: real := 4294967296.0

  /** Converting `x` to `unsigned int` is defined behaviour exactly when the
      value truncated toward zero is representable. */
  predicate CastDefined(x: real) {
    -1.0 < x < UintLimit
  }

  /** `(unsigned int)x`: truncation toward zero. */
  function UnsignedCast(x: real): (n: nat)
    requires CastDefined(x)
    ensures n as real < UintLimit
    ensures x >= 0.0 ==> n as real <= x < n as real + 1.0
    ensures x < 1.0 ==> n == 0
  {
    if x >= 0.0 then x.Floor else 0
  }

  /** Degrees turned by one full step (`GetDegreesPerFullStep`). */
  function DegreesPerFullStep(stepsPerRev: StepsPerRev): (deg: real)
    ensures deg > 0.0
    ensures deg * stepsPerRev as real == 360.0
  {
    360.0 / stepsPerRev as real
  }

  /** Degrees turned by one microstep (`GetDegreesPerMicroStep`). */
  function DegreesPerMicroStep(stepsPerRev: StepsPerRev, mode: MicroStepMode): (deg: real)
    ensures deg > 0.0
    ensures deg * mode as real == DegreesPerFullStep(stepsPerRev)
  {
    DegreesPerFullStep(stepsPerRev) / mode as real
  }

  /** The microstep count of `degrees` before the cast in `ConvertDegreesToSteps`:
      `degrees` measured in microsteps. */
  function MicrostepsExact(stepsPerRev: StepsPerRev, mode: MicroStepMode, degrees: real): (x: real)
    ensures x * DegreesPerMicroStep(stepsPerRev, mode) == degrees
    ensures x >= 0.0 <==> degrees >= 0.0
    ensures x < 1.0 <==> degrees < DegreesPerMicroStep(stepsPerRev, mode)
  {
    var full := DegreesPerFullStep(stepsPerRev);
    var r := (degrees / full) * mode as real;
    assert r * (full / mode as real) == degrees / full * full;
    ScaledComparisons(r, DegreesPerMicroStep(stepsPerRev, mode));
    r
  }

  /** `ConvertDegreesToSteps(degrees)` has defined behaviour. */
  predicate StepsDefined(stepsPerRev: StepsPerRev, mode: MicroStepMode, degrees: real) {
    CastDefined(MicrostepsExact(stepsPerRev, mode, degrees))
  }

  /** `ConvertDegreesToSteps`: the whole part of `degrees` measured in
      microsteps (the cast truncates). */
  function ConvertDegreesToSteps(stepsPerRev: StepsPerRev, mode: MicroStepMode, degrees: real): (steps: nat)
    requires StepsDefined(stepsPerRev, mode, degrees)
    ensures degrees >= 0.0 ==>
              steps as real <= MicrostepsExact(stepsPerRev, mode, degrees) < steps as real + 1.0
    ensures degrees < DegreesPerMicroStep(stepsPerRev, mode) ==> steps == 0
  {
    UnsignedCast(MicrostepsExact(stepsPerRev, mode, degrees))
  }

  /** The step delay for `rotVel` has defined behaviour: the conversion to
      microsteps per second is defined and is not zero (the delay divides by it). */
  predicate DelayDefined(stepsPerRev: StepsPerRev, mode: MicroStepMode, rotVel: real) {
    StepsDefined(stepsPerRev, mode, rotVel) && ConvertDegreesToSteps(stepsPerRev, mode, rotVel) > 0
  }

  /** `ConvertRotationalVelocityToStepDelay`: the longest whole number of
      microseconds such that one second still holds the microsteps per second
      that `rotVel` asks for. */
  function ConvertRotationalVelocityToStepDelay(stepsPerRev: StepsPerRev, mode: MicroStepMode, rotVel: real): (delay: nat)
    requires DelayDefined(stepsPerRev, mode, rotVel)
    ensures delay <= 1000000
    ensures var stepsPerSec := ConvertDegreesToSteps(stepsPerRev, mode, rotVel);
            delay * stepsPerSec <= 1000000 < (delay + 1) * stepsPerSec
  {
    var stepsPerSec := ConvertDegreesToSteps(stepsPerRev, mode, rotVel);
    var q := MicrosPerSecond / stepsPerSec as real;
    assert q <= MicrosPerSecond;
    QuotientCast(stepsPerSec, q);
    UnsignedCast(q)
  }

  /** `GetMaxStepperVelocity`: the theoretical velocity ceiling from the coil
      constants. Zero denominators are excluded. */
  function MaxStepperVelocity(stepsPerRev: StepsPerRev, mode: MicroStepMode, currentLimit: Uint16,
                              coilInductance: real, coilVoltage: real): (vel: real)
    requires coilInductance != 0.0 && currentLimit != 0
    ensures vel * (coilInductance * 2.0 * currentLimit as real)
            == coilVoltage * (stepsPerRev * mode) as real
  {
    FullRevolutionSteps(stepsPerRev, mode);
    var perRev := ConvertDegreesToSteps(stepsPerRev, mode, 360.0);
    var denom := coilInductance * 2.0 * currentLimit as real;
    coilVoltage / (denom / perRev as real)
  }

  // ---------------------------------------------------------------------------
  // Arithmetic helpers

  lemma MulMonotone(a: real, b: real, c: real)
    requires a <= b && c > 0.0
    ensures a * c <= b * c
  {
  }

  lemma MulStrictMonotone(a: real, b: real, c: real)
    requires a < b && c > 0.0
    ensures a * c < b * c
  {
  }

  lemma IntMulCancel(a: int, b: int, c: int)
    requires c > 0 && a * c < b * c
    ensures a < b
  {
  }

  /** Both sides of a comparison scaled by a positive factor. */
  lemma ScaleBounds(lo: real, x: real, hi: real, unit: real)
    requires lo <= x < hi && unit > 0.0
    ensures lo * unit <= x * unit < hi * unit
  {
  }

  /** Comparisons with 0 and 1 survive scaling by a positive unit. */
  lemma ScaledComparisons(x: real, unit: real)
    requires unit > 0.0
    ensures x >= 0.0 <==> x * unit >= 0.0
    ensures x < 1.0 <==> x * unit < unit
  {
    if x >= 1.0 {
      ScaleBounds(1.0, x, x + 1.0, unit);
    } else if x >= 0.0 {
      ScaleBounds(0.0, x, 1.0, unit);
    } else {
      ScaleBounds(x, x, 0.0, unit);
    }
  }

  /** Truncating a quotient of one second by `s` gives the whole-microsecond
      delay that fits `s` times in one second. */
  lemma QuotientCast(s: nat, q: real)
    requires s > 0 && q == MicrosPerSecond / s as real && CastDefined(q)
    ensures var d := UnsignedCast(q);
            d * s <= 1000000 < (d + 1) * s
  {
    var d := UnsignedCast(q);
    var sr := s as real;
    assert q * sr == 1000000.0;
    MulMonotone(d as real, q, sr);
    MulStrictMonotone(q, d as real + 1.0, sr);
    IntRealProduct(d, s);
    IntRealProduct(d + 1, s);
  }

  lemma IntRealProduct(a: nat, b: nat)
    ensures (a * b) as real == a as real * b as real
  {
  }

  // ---------------------------------------------------------------------------
  // Properties of the conversions

  /** Every angle of at most one revolution converts with defined behaviour. */
  lemma StepsDefinedWithinRevolution(stepsPerRev: StepsPerRev, mode: MicroStepMode, degrees: real)
    requires 0.0 <= degrees <= 360.0
    ensures StepsDefined(stepsPerRev, mode, degrees)
  {
    var dpm := DegreesPerMicroStep(stepsPerRev, mode);
    var x := MicrostepsExact(stepsPerRev, mode, degrees);
    var perRev := (stepsPerRev * mode) as real;
    assert dpm * perRev == 360.0;
    assert 0.0 <= x by {
      if x < 0.0 {
        MulStrictMonotone(x, 0.0, dpm);
        assert false;
      }
    }
    assert x <= perRev by {
      if x > perRev {
        MulStrictMonotone(perRev, x, dpm);
        assert false;
      }
    }
    assert stepsPerRev * mode < 0x1_0000 * 0x1_0000 by {
      assert stepsPerRev * mode <= stepsPerRev * 0xFFFF;
      assert stepsPerRev * 0xFFFF <= 0xFFFF * 0xFFFF;
    }
  }

  /** One revolution is exactly `stepsPerRev * mode` microsteps. */
  lemma FullRevolutionSteps(stepsPerRev: StepsPerRev, mode: MicroStepMode)
    ensures StepsDefined(stepsPerRev, mode, 360.0)
    ensures ConvertDegreesToSteps(stepsPerRev, mode, 360.0) == stepsPerRev * mode
  {
    StepsDefinedWithinRevolution(stepsPerRev, mode, 360.0);
    var dpm := DegreesPerMicroStep(stepsPerRev, mode);
    var x := MicrostepsExact(stepsPerRev, mode, 360.0);
    var perRev := (stepsPerRev * mode) as real;
    assert dpm * perRev == 360.0;
    assert x * dpm == perRev * dpm;
    assert x == perRev;
  }

  /** Zero degrees is zero microsteps. */
  lemma StepsAtZero(stepsPerRev: StepsPerRev, mode: MicroStepMode)
    ensures StepsDefined(stepsPerRev, mode, 0.0)
    ensures ConvertDegreesToSteps(stepsPerRev, mode, 0.0) == 0
  {
    StepsDefinedWithinRevolution(stepsPerRev, mode, 0.0);
  }

  /** The conversion of a non-negative angle counts the whole microsteps in
      it: `steps` microsteps fit in the angle, one more does not. */
  lemma StepsBracket(stepsPerRev: StepsPerRev, mode: MicroStepMode, degrees: real)
    requires degrees >= 0.0 && StepsDefined(stepsPerRev, mode, degrees)
    ensures var steps := ConvertDegreesToSteps(stepsPerRev, mode, degrees) as real;
            var dpm := DegreesPerMicroStep(stepsPerRev, mode);
            steps * dpm <= degrees < (steps + 1.0) * dpm
  {
    var steps := ConvertDegreesToSteps(stepsPerRev, mode, degrees) as real;
    var x := MicrostepsExact(stepsPerRev, mode, degrees);
    ScaleBounds(steps, x, steps + 1.0, DegreesPerMicroStep(stepsPerRev, mode));
  }

  /** The microstep count never decreases as the angle grows. */
  lemma {:induction false} StepsMonotone(stepsPerRev: StepsPerRev, mode: MicroStepMode, d1: real, d2: real)
    requires 0.0 <= d1 <= d2
    requires StepsDefined(stepsPerRev, mode, d2)
    ensures StepsDefined(stepsPerRev, mode, d1)
    ensures ConvertDegreesToSteps(stepsPerRev, mode, d1) <= ConvertDegreesToSteps(stepsPerRev, mode, d2)
  {
    var dpm := DegreesPerMicroStep(stepsPerRev, mode);
    var x1 := MicrostepsExact(stepsPerRev, mode, d1);
    var x2 := MicrostepsExact(stepsPerRev, mode, d2);
    assert 0.0 <= x1 by {
      if x1 < 0.0 {
        MulStrictMonotone(x1, 0.0, dpm);
        assert false;
      }
    }
    assert x1 <= x2 by {
      if x1 > x2 {
        MulStrictMonotone(x2, x1, dpm);
        assert false;
      }
    }
    var n1 := ConvertDegreesToSteps(stepsPerRev, mode, d1);
    var n2 := ConvertDegreesToSteps(stepsPerRev, mode, d2);
    assert n1 as real <= x1 && x2 < n2 as real + 1.0;
  }

  /** A faster velocity never gives a longer step delay. */
  lemma {:induction false} DelayAntitone(stepsPerRev: StepsPerRev, mode: MicroStepMode, v1: real, v2: real)
    requires v1 <= v2
    requires DelayDefined(stepsPerRev, mode, v1) && StepsDefined(stepsPerRev, mode, v2)
    ensures DelayDefined(stepsPerRev, mode, v2)
    ensures ConvertRotationalVelocityToStepDelay(stepsPerRev, mode, v2)
            <= ConvertRotationalVelocityToStepDelay(stepsPerRev, mode, v1)
  {
    var s1 := ConvertDegreesToSteps(stepsPerRev, mode, v1);
    assert v1 >= DegreesPerMicroStep(stepsPerRev, mode);
    StepsMonotone(stepsPerRev, mode, v1, v2);
    var s2 := ConvertDegreesToSteps(stepsPerRev, mode, v2);
    var t1 := ConvertRotationalVelocityToStepDelay(stepsPerRev, mode, v1);
    var t2 := ConvertRotationalVelocityToStepDelay(stepsPerRev, mode, v2);
    QuotientAntitone(s1, s2, t1, t2);
  }

  lemma QuotientAntitone(s1: nat, s2: nat, t1: nat, t2: nat)
    requires 0 < s1 <= s2
    requires 1000000 < (t1 + 1) * s1 && t2 * s2 <= 1000000
    ensures t2 <= t1
  {
    assert t2 * s1 <= t2 * s2;
    IntMulCancel(t2, t1 + 1, s1);
  }
}

// The Stepper class: one bipolar stepper motor behind a DRV8711 driver. It
// keeps the motor's configuration, the step delay that sets its speed and a
// dead-reckoned joint angle, and turns rotation requests into direction and
// step commands on its driver.

module StepperDriver {
  import opened StepperDefs
  import opened StepperMath
  import opened Driver

  // ---------------------------------------------------------------------------
  // What one rotation does, as functions of the configuration and the request

  /** The magnitude `RotateDegrees` converts: `degrees`, or `-1.0 * degrees`
      when it is negative. */
  function Magnitude(degrees: real): (m: real)
    ensures m >= 0.0
    ensures m == degrees || m == -degrees
  {
    if degrees < 0.0 then -1.0 * degrees else degrees
  }

  /** The `sign` variable of `RotateDegrees`. */
  function Sign(degrees: real): (s: int)
    ensures s * s <= 1
    ensures (s > 0 <==> degrees > 0.0) && (s < 0 <==> degrees < 0.0)
  {
    if degrees > 0.0 then 1 else if degrees < 0.0 then -1 else 0
  }

  /** The step pulses `RotateDegrees(degrees)` issues. */
  function RotationSteps(stepsPerRev: StepsPerRev, mode: MicroStepMode, degrees: real): nat
    requires StepsDefined(stepsPerRev, mode, Magnitude(degrees))
  {
    if degrees == 0.0 then 0 else ConvertDegreesToSteps(stepsPerRev, mode, Magnitude(degrees))
  }

  /** What one step pulse adds to the joint angle: twice the microstep angle,
      signed by the direction. */
  function AngleIncrement(stepsPerRev: StepsPerRev, mode: MicroStepMode, sign: int): real
  {
    2.0 * sign as real * DegreesPerMicroStep(stepsPerRev, mode)
  }

  /** The change `RotateDegrees(degrees)` makes to the joint angle. */
  function RotationDelta(stepsPerRev: StepsPerRev, mode: MicroStepMode, degrees: real): real
    requires StepsDefined(stepsPerRev, mode, Magnitude(degrees))
  {
    RotationSteps(stepsPerRev, mode, degrees) as real * AngleIncrement(stepsPerRev, mode, Sign(degrees))
  }

  /** The commands `RotateDegrees(degrees)` sends to the driver: a direction
      (0 for a positive request, 1 for a negative one), then the pulses. */
  function RotationCommands(stepsPerRev: StepsPerRev, mode: MicroStepMode, degrees: real): seq<Command>
    requires StepsDefined(stepsPerRev, mode, Magnitude(degrees))
  {
    if degrees == 0.0 then []
    else [Direction(if degrees > 0.0 then 0 else 1)] + Pulses(RotationSteps(stepsPerRev, mode, degrees))
  }

  /** The commands `FindZeroAngle` sends when the zero switch first reads high
      on read number `lowReads` (counting from 0): one forward direction, then
      one 0.5-degree rotation per low read. */
  function ZeroSearchCommands(stepsPerRev: StepsPerRev, mode: MicroStepMode, lowReads: nat): seq<Command>
  {
    StepsDefinedWithinRevolution(stepsPerRev, mode, ZeroSearchIncrement);
    [Direction(0)] + Repeat(RotationCommands(stepsPerRev, mode, ZeroSearchIncrement), lowReads)
  }

  /** The index of the first high read of the zero switch. */
  function FirstHigh(zeroSwitch: seq<bool>): (i: nat)
    requires true in zeroSwitch
    ensures i < |zeroSwitch| && zeroSwitch[i]
    ensures forall j :: 0 <= j < i ==> !zeroSwitch[j]
  {
    if zeroSwitch[0] then 0 else 1 + FirstHigh(zeroSwitch[1..])
  }

  /** `angle0` after `x` additions of `inc`, in the order the loop of
      `RotateDegrees` adds them. */
  function Accumulated(angle0: real, inc: real, x: nat): real
  {
    if x == 0 then angle0 else Accumulated(angle0, inc, x - 1) + inc
  }

  /** The additions amount to one multiplication (exact in real arithmetic). */
  lemma {:induction false} AccumulatedIsProduct(angle0: real, inc: real, x: nat)
    ensures Accumulated(angle0, inc, x) == angle0 + x as real * inc
  {
    if x > 0 {
      AccumulatedIsProduct(angle0, inc, x - 1);
    }
  }

  /** A velocity request whose handling has defined behaviour: it is rejected
      before any conversion, or its step delay is defined. */
  predicate VelocityRequestDefined(stepsPerRev: StepsPerRev, mode: MicroStepMode, degreesPerSec: real) {
    degreesPerSec == 0.0 || degreesPerSec > MaxRotVel || DelayDefined(stepsPerRev, mode, degreesPerSec)
  }

  // ---------------------------------------------------------------------------
  // Properties of one rotation and of the zero search

  /** A rotation by `degrees` and one by `-degrees` issue the same number of
      pulses and cancel out in the joint angle. */
  lemma RotationRoundTrip(stepsPerRev: StepsPerRev, mode: MicroStepMode, degrees: real)
    requires StepsDefined(stepsPerRev, mode, Magnitude(degrees))
    ensures StepsDefined(stepsPerRev, mode, Magnitude(-degrees))
    ensures RotationSteps(stepsPerRev, mode, -degrees) == RotationSteps(stepsPerRev, mode, degrees)
    ensures RotationDelta(stepsPerRev, mode, degrees) + RotationDelta(stepsPerRev, mode, -degrees) == 0.0
  {
    assert Magnitude(-degrees) == Magnitude(degrees);
    assert AngleIncrement(stepsPerRev, mode, Sign(-degrees)) == -AngleIncrement(stepsPerRev, mode, Sign(degrees));
  }

  /** A rotation sends at most one direction command, first, and then exactly
      as many pulses as whole microsteps fit in the magnitude; zero degrees
      sends nothing. */
  lemma {:induction false} RotationPulses(stepsPerRev: StepsPerRev, mode: MicroStepMode, degrees: real)
    requires StepsDefined(stepsPerRev, mode, Magnitude(degrees))
    ensures var cmds := RotationCommands(stepsPerRev, mode, degrees);
            && PulseCount(cmds) == ConvertDegreesToSteps(stepsPerRev, mode, Magnitude(degrees))
            && |cmds| == (if degrees == 0.0 then 0 else PulseCount(cmds) + 1)
            && (degrees > 0.0 ==> cmds[0] == Direction(0))
            && (degrees < 0.0 ==> cmds[0] == Direction(1))
  {
    var n := RotationSteps(stepsPerRev, mode, degrees);
    if degrees == 0.0 {
      StepsAtZero(stepsPerRev, mode);
    } else {
      var dir := [Direction(if degrees > 0.0 then 0 else 1)];
      PulseCountAppend(dir, Pulses(n));
      PulseCountPulses(n);
      assert PulseCount(dir) == 0 by {
        assert dir[..0] == [];
      }
    }
  }

  /** As written, the joint angle moves by twice the rotation the pulses
      perform: for a positive request it lands within two microsteps below
      twice the request, for a negative one within two microsteps above. */
  lemma {:induction false} RecordedAngleDoubled(stepsPerRev: StepsPerRev, mode: MicroStepMode, degrees: real)
    requires StepsDefined(stepsPerRev, mode, Magnitude(degrees))
    ensures var delta := RotationDelta(stepsPerRev, mode, degrees);
            var dpm := DegreesPerMicroStep(stepsPerRev, mode);
            && (degrees >= 0.0 ==> 2.0 * (degrees - dpm) < delta <= 2.0 * degrees)
            && (degrees <= 0.0 ==> 2.0 * degrees <= delta < 2.0 * (degrees + dpm))
  {
    var dpm := DegreesPerMicroStep(stepsPerRev, mode);
    var m := Magnitude(degrees);
    var n := ConvertDegreesToSteps(stepsPerRev, mode, m);
    StepsBracket(stepsPerRev, mode, m);
    if degrees > 0.0 {
      assert RotationDelta(stepsPerRev, mode, degrees) == 2.0 * (n as real * dpm);
    } else if degrees < 0.0 {
      assert RotationDelta(stepsPerRev, mode, degrees) == -2.0 * (n as real * dpm);
    }
  }

  /** The zero search issues one 0.5-degree rotation's pulses per low read. */
  lemma {:induction false} ZeroSearchPulses(stepsPerRev: StepsPerRev, mode: MicroStepMode, lowReads: nat)
    ensures StepsDefined(stepsPerRev, mode, ZeroSearchIncrement)
    ensures var cmds := ZeroSearchCommands(stepsPerRev, mode, lowReads);
            && PulseCount(cmds) == lowReads * ConvertDegreesToSteps(stepsPerRev, mode, ZeroSearchIncrement)
            && cmds[0] == Direction(0)
  {
    StepsDefinedWithinRevolution(stepsPerRev, mode, ZeroSearchIncrement);
    var rotation := RotationCommands(stepsPerRev, mode, ZeroSearchIncrement);
    RotationPulses(stepsPerRev, mode, ZeroSearchIncrement);
    PulseCountRepeat(rotation, lowReads);
    PulseCountAppend([Direction(0)], Repeat(rotation, lowReads));
    assert PulseCount([Direction(0)]) == 0 by {
      assert [Direction(0)][..0] == [];
    }
  }

  // ---------------------------------------------------------------------------
  // The class

  class Stepper {
    // Configuration, fixed at construction.
    const csPin: Uint8
    const zeroPin: Uint8
    const currentLimit: Uint16
    const coilInductance: real
    const coilVoltage: real
    const microStepMode: MicroStepMode
    const stepsPerRev: StepsPerRev

    // Position and speed.
    var rotationalVelocity: real
    var stepDelay: real
    var jointAngle: real

    /** The driver the motion commands go to. */
    const sd: HighPowerStepperDriver

    /** The object invariant: the configuration gives the default velocity a
        defined step delay; the velocity field keeps its default (no operation
        stores a velocity); the step delay holds a whole, non-negative number
        of microseconds. */
    ghost predicate Valid()
      reads this
    {
      && DelayDefined(stepsPerRev, microStepMode, DefaultRotVel)
      && rotationalVelocity == DefaultRotVel
      && 0.0 <= stepDelay
      && stepDelay == stepDelay.Floor as real
    }

    /** Stores the configuration and derives the step delay of the default
        velocity. The joint angle is left unassigned: it starts arbitrary. */
    constructor (csPin: Uint8, zeroPin: Uint8, currentLineLimit: Uint16, microStepMode: MicroStepMode,
                 stepsPerRev: StepsPerRev, coilInductance: real, coilVoltage: real)
      requires DelayDefined(stepsPerRev, microStepMode, DefaultRotVel)
      ensures Valid()
      ensures this.csPin == csPin && this.zeroPin == zeroPin && this.currentLimit == currentLineLimit
      ensures this.microStepMode == microStepMode && this.stepsPerRev == stepsPerRev
      ensures this.coilInductance == coilInductance && this.coilVoltage == coilVoltage
      ensures rotationalVelocity == DefaultRotVel
      ensures stepDelay == ConvertRotationalVelocityToStepDelay(stepsPerRev, microStepMode, DefaultRotVel) as real
      ensures fresh(sd) && sd.log == []
    {
      this.csPin := csPin;
      this.currentLimit := currentLineLimit;
      this.coilInductance := coilInductance;
      this.coilVoltage := coilVoltage;
      this.microStepMode := microStepMode;
      this.stepsPerRev := stepsPerRev;
      this.zeroPin := zeroPin;
      rotationalVelocity := DefaultRotVel;
      stepDelay := ConvertRotationalVelocityToStepDelay(stepsPerRev, microStepMode, DefaultRotVel) as real;
      sd := new HighPowerStepperDriver();
    }

    /** Validates a velocity and, when it is accepted, recomputes the step
        delay. A rejected request changes nothing; an accepted one changes only
        the step delay (the velocity field is not written). */
    method SetRotationalVelocity(degreesPerSec: real) returns (response: Response)
      requires Valid()
      requires VelocityRequestDefined(stepsPerRev, microStepMode, degreesPerSec)
      modifies this
      ensures Valid()
      ensures degreesPerSec == 0.0 ==> response == WarningVelSetZero
      ensures degreesPerSec > MaxRotVel ==> response == ErrorAboveVelMax
      ensures 0.0 < degreesPerSec <= MaxRotVel ==> response == Success
      ensures response == Success ==>
                stepDelay == ConvertRotationalVelocityToStepDelay(stepsPerRev, microStepMode, degreesPerSec) as real
      ensures response != Success ==> stepDelay == old(stepDelay)
      ensures rotationalVelocity == old(rotationalVelocity) && jointAngle == old(jointAngle)
    {
      if degreesPerSec == 0.0 {
        return WarningVelSetZero;
      } else if degreesPerSec > MaxRotVel {
        return ErrorAboveVelMax;
      }
      var tempStepDelay := ConvertRotationalVelocityToStepDelay(stepsPerRev, microStepMode, degreesPerSec);
      if (tempStepDelay as real) < 0.0 {
        // Unreachable: the delay is unsigned.
        return ErrorUnknown;
      }
      stepDelay := tempStepDelay as real;
      return Success;
    }

    /** Turns the motor by `degrees`: sets the direction from the sign, issues
        one pulse per whole microstep in the magnitude and adds each pulse's
        increment to the joint angle. Zero degrees does nothing. */
    method RotateDegrees(degrees: real) returns (response: Response)
      requires Valid()
      requires StepsDefined(stepsPerRev, microStepMode, Magnitude(degrees))
      modifies this, sd
      ensures Valid() && response == Completed
      ensures jointAngle == old(jointAngle) + RotationDelta(stepsPerRev, microStepMode, degrees)
      ensures sd.log == old(sd.log) + RotationCommands(stepsPerRev, microStepMode, degrees)
      ensures stepDelay == old(stepDelay) && rotationalVelocity == old(rotationalVelocity)
      ensures degrees == 0.0 ==> jointAngle == old(jointAngle) && sd.log == old(sd.log)
    {
      var actualNumSteps: nat;
      var sign: int;
      if degrees > 0.0 {
        sd.SetDirection(0);
        sign := 1;
        actualNumSteps := ConvertDegreesToSteps(stepsPerRev, microStepMode, degrees);
      } else if degrees < 0.0 {
        sd.SetDirection(1);
        sign := -1;
        actualNumSteps := ConvertDegreesToSteps(stepsPerRev, microStepMode, -1.0 * degrees);
      } else {
        return Completed;
      }
      IssueSteps(actualNumSteps, sign);
      assert actualNumSteps == RotationSteps(stepsPerRev, microStepMode, degrees) && sign == Sign(degrees);
      return Completed;
    }

    /** The step loop of `RotateDegrees`: `count` pulses, each followed by an
        increment of the joint angle in the direction `sign`. */
    method IssueSteps(count: nat, sign: int)
      modifies this, sd
      ensures jointAngle == old(jointAngle) + count as real * AngleIncrement(stepsPerRev, microStepMode, sign)
      ensures sd.log == old(sd.log) + Pulses(count)
      ensures stepDelay == old(stepDelay) && rotationalVelocity == old(rotationalVelocity)
    {
      ghost var inc := AngleIncrement(stepsPerRev, microStepMode, sign);
      var x := 0;
      while x < count
        invariant 0 <= x <= count
        invariant stepDelay == old(stepDelay) && rotationalVelocity == old(rotationalVelocity)
        invariant jointAngle == Accumulated(old(jointAngle), inc, x)
        invariant sd.log == old(sd.log) + Pulses(x)
      {
        sd.Step();
        jointAngle := jointAngle + 2.0 * sign as real * DegreesPerMicroStep(stepsPerRev, microStepMode);
        x := x + 1;
      }
      AccumulatedIsProduct(old(jointAngle), inc, count);
    }

    /** Seeks the zero switch: sets the zero-search velocity and the forward
        direction, rotates 0.5 degrees per low read of the switch and, once it
        reads high, resets the joint angle to 0. `zeroSwitch` holds the
        successive reads of the switch. */
    method FindZeroAngle(zeroSwitch: seq<bool>) returns (response: Response)
      requires Valid()
      requires DelayDefined(stepsPerRev, microStepMode, ZeroSearchRotVel)
      requires true in zeroSwitch
      modifies this, sd
      ensures Valid()
      ensures jointAngle == 0.0
      ensures stepDelay == ConvertRotationalVelocityToStepDelay(stepsPerRev, microStepMode, ZeroSearchRotVel) as real
      ensures response == if zeroSwitch[0] then ErrorUnknown else Completed
      ensures sd.log == old(sd.log) + ZeroSearchCommands(stepsPerRev, microStepMode, FirstHigh(zeroSwitch))
    {
      response := ErrorUnknown;
      var velocityResponse := SetRotationalVelocity(ZeroSearchRotVel);
      sd.SetDirection(0);
      StepsDefinedWithinRevolution(stepsPerRev, microStepMode, ZeroSearchIncrement);
      ghost var rotation := RotationCommands(stepsPerRev, microStepMode, ZeroSearchIncrement);
      ghost var last := FirstHigh(zeroSwitch);
      var lowReads := 0;
      while !zeroSwitch[lowReads]
        invariant 0 <= lowReads <= last
        invariant Valid()
        invariant stepDelay == ConvertRotationalVelocityToStepDelay(stepsPerRev, microStepMode, ZeroSearchRotVel) as real
        invariant response == if lowReads == 0 then ErrorUnknown else Completed
        invariant sd.log == old(sd.log) + ZeroSearchCommands(stepsPerRev, microStepMode, lowReads)
        decreases last - lowReads
      {
        response := RotateDegrees(ZeroSearchIncrement);
        lowReads := lowReads + 1;
      }
      jointAngle := 0.0;
    }

    /** The dead-reckoned joint angle; reading it changes nothing. */
    method GetJointAngle() returns (angle: real)
      ensures angle == jointAngle
    {
      return jointAngle;
    }
  }
}

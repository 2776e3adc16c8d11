// The two motor configurations of the arm's firmware as concrete instances of
// the conversions, and a client that turns a motor there and back.

module StepperScenarios {
  import opened StepperDefs
  import opened StepperMath
  import opened Driver
  import opened StepperDriver

  /** A 200-step motor in full-step mode: 30 degrees is 16 pulses, recorded as
      57.6 degrees (twice 16 * 1.8). */
  lemma ThirtyDegreesOnFullStepMotor()
    ensures StepsDefined(200, 1, 30.0)
    ensures ConvertDegreesToSteps(200, 1, 30.0) == 16
    ensures RotationDelta(200, 1, 30.0) == 57.6
    ensures RotationDelta(200, 1, -30.0) == -57.6
  {
    assert MicrostepsExact(200, 1, 30.0) == 50.0 / 3.0;
  }

  /** The shoulder motor (4000 steps, full-step mode) at the default 45 degrees
      per second: 500 microsteps per second, a 2000-microsecond delay. */
  lemma ShoulderDefaultDelay()
    ensures DelayDefined(4000, 1, DefaultRotVel)
    ensures ConvertDegreesToSteps(4000, 1, DefaultRotVel) == 500
    ensures ConvertRotationalVelocityToStepDelay(4000, 1, DefaultRotVel) == 2000
  {
    assert MicrostepsExact(4000, 1, DefaultRotVel) == 500.0;
  }

  /** The base motor (200 steps, 64 microsteps) at the default 45 degrees per
      second: 1600 microsteps per second, a 625-microsecond delay. */
  lemma BaseDefaultDelay()
    ensures DelayDefined(200, 64, DefaultRotVel)
    ensures ConvertDegreesToSteps(200, 64, DefaultRotVel) == 1600
    ensures ConvertRotationalVelocityToStepDelay(200, 64, DefaultRotVel) == 625
  {
    assert MicrostepsExact(200, 64, DefaultRotVel) == 1600.0;
  }

  /** The 30-degree moves of the firmware's main loop: 333 pulses on the
      shoulder motor and 1066 on the base motor. */
  lemma MainLoopPulseCounts()
    ensures StepsDefined(4000, 1, 30.0) && ConvertDegreesToSteps(4000, 1, 30.0) == 333
    ensures StepsDefined(200, 64, 30.0) && ConvertDegreesToSteps(200, 64, 30.0) == 1066
  {
    assert MicrostepsExact(4000, 1, 30.0) == 1000.0 / 3.0;
    assert MicrostepsExact(200, 64, 30.0) == 3200.0 / 3.0;
  }

  /** Rotating by `degrees` and back restores the joint angle exactly and
      issues the same number of pulses each way. */
  method RotateThereAndBack(s: Stepper, degrees: real)
    requires s.Valid()
    requires StepsDefined(s.stepsPerRev, s.microStepMode, Magnitude(degrees))
    modifies s, s.sd
    ensures s.Valid()
    ensures s.jointAngle == old(s.jointAngle)
    ensures PulseCount(s.sd.log) == PulseCount(old(s.sd.log))
              + 2 * ConvertDegreesToSteps(s.stepsPerRev, s.microStepMode, Magnitude(degrees))
  {
    ghost var log0 := s.sd.log;
    var there := s.RotateDegrees(degrees);
    ghost var log1 := s.sd.log;
    RotationRoundTrip(s.stepsPerRev, s.microStepMode, degrees);
    var back := s.RotateDegrees(-degrees);
    RotationPulses(s.stepsPerRev, s.microStepMode, degrees);
    RotationPulses(s.stepsPerRev, s.microStepMode, -degrees);
    PulseCountAppend(log0, RotationCommands(s.stepsPerRev, s.microStepMode, degrees));
    PulseCountAppend(log1, RotationCommands(s.stepsPerRev, s.microStepMode, -degrees));
  }
}

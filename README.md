# StepperDriver: a verified model of the robotic arm's stepper-motor layer

The arm's firmware drives each joint's bipolar stepper motor through a
DRV8711 gate driver. A `Stepper` object holds one motor's fixed configuration
(chip-select and zero-switch pins, current limit, coil constants, microstep
mode, steps per revolution), a step delay that sets its speed, and a
dead-reckoned joint angle. It turns requests into driver commands:

- `SetRotationalVelocity` checks a velocity and recomputes the step delay;
- `RotateDegrees` sets the direction from the sign of the request, sends one
  step pulse per whole microstep in its magnitude, and updates the joint angle
  after each pulse;
- `FindZeroAngle` rotates in 0.5-degree increments until the zero switch reads
  high, then sets the joint angle to 0;
- `GetJointAngle` reads the angle.

The arithmetic behind these is a set of pure conversions: degrees per full
step, degrees per microstep, degrees to microsteps, and velocity to step delay.

## How the model is built

- `stepper_defs.dfy` (module `StepperDefs`) holds the header's declarations:
  the seven-valued `Response`, `MaxRotVel = 100.0`, and the integer widths of
  the configuration fields. The microstep mode is its numeric value: a
  positive number of microsteps per full step.
- `stepper_math.dfy` (module `StepperMath`) holds the conversions as
  functions of the configuration. `float` becomes `real`. Every
  `(unsigned int)` cast becomes `UnsignedCast`, which truncates toward zero.
  Its precondition is the range where C++ defines the cast, -1 < x < 2^32.
  A division by a zero microsteps-per-second rate is excluded by
  `DelayDefined`.
- `driver.dfy` (module `Driver`) stands in for the vendor driver object `sd`.
  It keeps a log of the two commands the motion code sends:
  `Direction(polarity)` for `setDirection` and `Pulse` for `step`.
  `PulseCount` counts the pulses in a log.
- `stepper.dfy` (module `StepperDriver`) holds the class `Stepper`. The
  configuration fields are `const`: no operation can change them after
  construction. `rotationalVelocity`, `stepDelay` and `jointAngle` are mutable
  fields. The constructor does not assign `jointAngle`, so it starts with an
  arbitrary value, as in the source. Each method is specified through
  functions of the configuration and the request: `RotationDelta` and
  `RotationCommands` describe one rotation, and `ZeroSearchCommands` and
  `FirstHigh` describe the zero search. The step loop of `RotateDegrees` is
  factored into the method `IssueSteps`. The zero switch is a sequence of
  boolean reads given to `FindZeroAngle`.
- `stepper_scenarios.dfy` (module `StepperScenarios`) evaluates the
  conversions on the two motors the firmware configures. It also has a client
  that rotates a motor by some angle and back again.

The object invariant `Stepper.Valid()` says three things. The configuration
gives the default velocity a defined step delay. `rotationalVelocity` keeps
its default of 45.0. `stepDelay` holds a whole, non-negative number of
microseconds.

### Behaviour kept as the code has it

- The joint angle moves by `2.0 * sign * degreesPerMicroStep` per pulse
  (`lib/StepperDriver/StepperDriver.cpp:108`). This is twice the microstep
  the pulse performs. A 30-degree request on a 200-step motor in full-step mode
  gives 16 pulses and records +57.6 degrees, not +28.8 degrees
  (`RecordedAngleDoubled`, `ThirtyDegreesOnFullStepMotor`).
- `SetRotationalVelocity` stores only the step delay and never the velocity.
  The velocity field therefore keeps its constructor value forever, and
  `Valid()` says so.
- The `ERROR_UNKNOWN` branch of `SetRotationalVelocity` cannot be taken,
  because the computed delay is unsigned. The model keeps the branch, and the
  method's contract shows it is never taken.
- Negative velocities are not rejected. They reach the unsigned casts, where
  C++ behaviour is undefined, so the precondition of `SetRotationalVelocity`
  excludes them. Small positive velocities that convert to 0 microsteps per
  second are excluded in the same way.
- `FindZeroAngle` ignores the result of its `SetRotationalVelocity(25.0)` call.
  Its own result is `ERROR_UNKNOWN` when the switch is already high on the
  first read, and `COMPLETED` otherwise.
- `STALL` and `TIMEOUT_ON_FIND_ZERO` are declared but never returned.

## Model

| member | source | states |
|---|---|---|
| `StepperMath.UnsignedCast` | lib/StepperDriver/StepperDriver.cpp:185 | the cast to `unsigned int` truncates toward zero: for x >= 0 the result n satisfies n <= x < n + 1, below 1 it is 0, and it stays below 2^32; defined only on -1 < x < 2^32 |
| `StepperMath.DegreesPerFullStep` | lib/StepperDriver/StepperDriver.cpp:152-154 | a full step is a positive angle, and stepsPerRev full steps make exactly 360 degrees |
| `StepperMath.DegreesPerMicroStep` | lib/StepperDriver/StepperDriver.cpp:172-174 | a microstep is a positive angle, and `mode` microsteps make exactly one full step |
| `StepperMath.MicrostepsExact` | lib/StepperDriver/StepperDriver.cpp:184-185 | the value before the cast is the angle measured in microsteps: multiplied by the microstep angle it gives back the angle; it is non-negative exactly when the angle is, and below 1 exactly when the angle is below one microstep |
| `StepperMath.ConvertDegreesToSteps` | lib/StepperDriver/StepperDriver.cpp:183-186 | for a non-negative angle the result is the whole part of the angle measured in microsteps; an angle smaller than one microstep gives 0 |
| `StepperMath.StepsBracket` | lib/StepperDriver/StepperDriver.cpp:183-186 | the result counts the whole microsteps in a non-negative angle: n microsteps fit in it, n + 1 do not |
| `StepperMath.ConvertRotationalVelocityToStepDelay` | lib/StepperDriver/StepperDriver.cpp:194-197 | the delay is the longest whole number of microseconds that, repeated once per microstep of the velocity, still fits in one second (delay * steps <= 10^6 < (delay + 1) * steps); at most 10^6; defined only when the velocity converts to a nonzero microstep rate |
| `StepperMath.MaxStepperVelocity` | lib/StepperDriver/StepperDriver.cpp:162-164 | the ceiling equals coilVoltage * stepsPerRev * mode / (2 * coilInductance * currentLimit) |
| `StepperMath.StepsDefinedWithinRevolution` | lib/StepperDriver/StepperDriver.cpp:183-186 | for every configuration, converting any angle from 0 to 360 degrees has defined behaviour |
| `StepperMath.FullRevolutionSteps` | lib/StepperDriver/StepperDriver.cpp:163 | 360 degrees converts to exactly stepsPerRev * mode microsteps, with nothing lost to truncation |
| `StepperMath.StepsAtZero` | lib/StepperDriver/StepperDriver.cpp:183-186 | zero degrees converts to zero microsteps |
| `StepperMath.StepsMonotone` | lib/StepperDriver/StepperDriver.cpp:183-186 | for 0 <= d1 <= d2, a defined conversion of d2 makes d1's defined too, and d1 never gives more microsteps than d2 |
| `StepperMath.DelayAntitone` | lib/StepperDriver/StepperDriver.cpp:194-197 | a faster velocity never gives a longer step delay |
| `StepperDriver.Magnitude` | lib/StepperDriver/StepperDriver.cpp:95-99 | the angle `RotateDegrees` converts is non-negative and equals the request or its negation |
| `StepperDriver.Sign` | lib/StepperDriver/StepperDriver.cpp:89-98 | the sign is -1, 0 or 1, positive exactly for a positive request and negative exactly for a negative one |
| `StepperDriver.FirstHigh` | lib/StepperDriver/StepperDriver.cpp:127-129 | the number of low reads before the loop ends: the index of a high read with every earlier read low |
| `StepperDriver.AccumulatedIsProduct` | lib/StepperDriver/StepperDriver.cpp:106-110 | adding the same increment once per pulse amounts to the pulse count times the increment (exact in real arithmetic) |
| `StepperDriver.RotationRoundTrip` | lib/StepperDriver/StepperDriver.cpp:92-111 | rotating by d and by -d issues the same number of pulses, and their joint-angle changes cancel exactly |
| `StepperDriver.RotationPulses` | lib/StepperDriver/StepperDriver.cpp:92-110 | one rotation sends exactly ConvertDegreesToSteps(magnitude) pulses, preceded by a single direction command: 0 for a positive request, 1 for a negative one; zero degrees sends nothing |
| `StepperDriver.RecordedAngleDoubled` | lib/StepperDriver/StepperDriver.cpp:108 | the recorded angle change is twice the rotation performed: for d > 0 it lies in (2(d - microstep), 2d], and symmetrically for d < 0 |
| `StepperDriver.ZeroSearchPulses` | lib/StepperDriver/StepperDriver.cpp:126-129 | the zero search sends a forward direction first, then ConvertDegreesToSteps(0.5) pulses per low read |
| `StepperDriver.Stepper.constructor` | lib/StepperDriver/StepperDriver.cpp:6-19 | stores every configuration parameter; sets the velocity to 45.0 and the step delay to the delay of 45.0; starts with an empty driver log; says nothing about the joint angle |
| `StepperDriver.Stepper.SetRotationalVelocity` | lib/StepperDriver/StepperDriver.cpp:62-78 | 0 gives WARNING_VEL_SET_ZERO and a request above 100.0 gives ERROR_ABOVE_VEL_MAX, both leaving every field unchanged; 0 < v <= 100.0 gives SUCCESS and sets the step delay to the delay of v; the velocity and the angle never change |
| `StepperDriver.Stepper.RotateDegrees` | lib/StepperDriver/StepperDriver.cpp:87-112 | always returns COMPLETED; the driver log grows by exactly RotationCommands(d) and the joint angle by RotationDelta(d); zero degrees changes nothing; the delay and the velocity are kept |
| `StepperDriver.Stepper.IssueSteps` | lib/StepperDriver/StepperDriver.cpp:106-110 | count pulses are appended to the driver log, and the joint angle grows by count times the per-pulse increment |
| `StepperDriver.Stepper.FindZeroAngle` | lib/StepperDriver/StepperDriver.cpp:120-132 | ends with joint angle 0 and the step delay of 25 degrees per second; returns ERROR_UNKNOWN when the first read is high and COMPLETED otherwise; the log holds one forward direction, then one 0.5-degree rotation per low read before the first high read |
| `StepperDriver.Stepper.GetJointAngle` | lib/StepperDriver/StepperDriver.cpp:140-142 | returns the joint angle and can change nothing |
| `StepperScenarios.ThirtyDegreesOnFullStepMotor` | lib/StepperDriver/StepperDriver.cpp:92-108 | on a 200-step motor in full-step mode, +30 degrees is 16 pulses and records +57.6 degrees, and -30 degrees records -57.6 degrees |
| `StepperScenarios.ShoulderDefaultDelay` | src/main.cpp:16-20 | the shoulder motor (4000 steps, full-step mode) at 45 degrees per second makes 500 microsteps per second, with a 2000-microsecond delay |
| `StepperScenarios.BaseDefaultDelay` | src/main.cpp:17-21 | the base motor (200 steps, 64 microsteps) at 45 degrees per second makes 1600 microsteps per second, with a 625-microsecond delay |
| `StepperScenarios.MainLoopPulseCounts` | src/main.cpp:43-52 | the main loop's 30-degree moves are 333 pulses on the shoulder motor and 1066 on the base motor |
| `StepperScenarios.RotateThereAndBack` | src/main.cpp:44-48 | on any valid motor, rotating by d and then by -d restores the joint angle exactly and adds 2 * ConvertDegreesToSteps(d) pulses to the log |

## Left out

- `InitStepper` (chip select, pin mode, reset, decay mode, current limit, step mode, enable) is vendor-driver and board configuration with no logic. Its use of pin 14 instead of the zero pin is an I/O matter.
- The `delayMicroseconds` pause after each pulse and every other timing is not modelled. Only the delay value (`stepDelay`) is state.
- `digitalRead` of the zero switch is replaced by a sequence of reads passed to `FindZeroAngle`.
- FindZeroAngle: requires a high read somewhere in the sequence, because with a switch that never trips the source loops forever.
- FindZeroAngle: requires that 25 degrees per second converts to a nonzero microstep rate. Otherwise its internal velocity change would divide by zero.
- IEEE single-precision rounding is not modelled: all arithmetic is exact real arithmetic. For example, 360/4000 is exact in the model but not in `float`.
- Undefined behaviour in C++ (a negative value or a value of 2^32 or more reaching an unsigned cast, a step delay computed from a zero microstep rate) is excluded by preconditions, not modelled as an outcome.
- The driver's other calls and its SPI traffic are not modelled. The driver object only records direction commands and step pulses.
- `src/main.cpp` (setup, the demo loop, the serial `printResponse`) is glue. Its two motor configurations are used only as concrete instances.

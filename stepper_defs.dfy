// Declarations shared by the Stepper class: the response codes, the velocity
// ceiling and the integer widths of the configuration fields.

module StepperDefs {

  /** `uint8_t`, the width of the chip-select and zero-switch pin numbers. */
  type Uint8 = n: int | 0 <= n < 0x100

  /** `uint16_t`, the width of the current limit. */
  type Uint16 = n: int | 0 <= n < 0x1_0000

  /** Full mechanical steps per revolution (`uint16_t`). Zero is excluded: the
      constructor's step-delay computation would then divide by zero. */
  type StepsPerRev = n: int | 0 < n < 0x1_0000 witness 200

  /** The numeric value of the driver's microstep mode, used directly as the
      number of microsteps per full step. It is cast to `uint16_t` before use,
      so it is kept inside that range. */
  type MicroStepMode = n: int | 0 < n < 0x1_0000 witness 1

  /** The closed set of results the Stepper operations return, in the order of
      the C enumeration. `Stall` and `TimeoutOnFindZero` are declared but no
      operation returns them. */
  datatype Response =
    | Stall
    | Completed
    | TimeoutOnFindZero
    | ErrorUnknown
    | WarningVelSetZero
    | ErrorAboveVelMax
    | Success

  /** Ceiling on a requested rotational velocity, degrees per second. */
  const MaxRotVel: real := 100.0

  /** Velocity the constructor configures, degrees per second. */
  const DefaultRotVel: real := 45.0

  /** Velocity the zero search configures before it starts, degrees per second. */
  const ZeroSearchRotVel: real := 25.0

  /** Size of one rotation of the zero search, degrees. */
  const ZeroSearchIncrement: real := 0.5

  /** Microseconds in one second, the numerator of the step delay. */
  const MicrosPerSecond: real := 1000000.0
}

// The DRV8711 driver object that a Stepper owns. Only the two calls the motion
// code makes are modelled; each appends a command to a log, so the pulses and
// direction changes a Stepper issues can be stated and counted.

module Driver {

  /** Direction polarity bit passed to `setDirection`: 0 forward, 1 reverse. */
  type Polarity = b: int | 0 <= b <= 1

  datatype Command = Direction(polarity: Polarity) | Pulse

  class HighPowerStepperDriver {
    /** Every command sent to the driver, oldest first. */
    var log: seq<Command>

    constructor ()
      ensures log == []
    {
      log := [];
    }

    /** `setDirection(polarity)`. */
    method SetDirection(polarity: Polarity)
      modifies this
      ensures log == old(log) + [Direction(polarity)]
    {
      log := log + [Direction(polarity)];
    }

    /** `step()`: one step pulse. */
    method Step()
      modifies this
      ensures log == old(log) + [Pulse]
    {
      log := log + [Pulse];
    }
  }

  /** `n` step pulses in a row. */
  function Pulses(n: nat): (cmds: seq<Command>)
    ensures |cmds| == n
    ensures forall i :: 0 <= i < n ==> cmds[i] == Pulse
  {
    if n == 0 then [] else Pulses(n - 1) + [Pulse]
  }

  /** `cmds` repeated `k` times. */
  function Repeat(cmds: seq<Command>, k: nat): (r: seq<Command>)
    ensures |r| == k * |cmds|
  {
    if k == 0 then [] else Repeat(cmds, k - 1) + cmds
  }

  /** The number of step pulses in a command log. */
  function PulseCount(cmds: seq<Command>): (n: nat)
    ensures n <= |cmds|
  {
    if cmds == [] then 0
    else PulseCount(cmds[..|cmds| - 1]) + (if cmds[|cmds| - 1] == Pulse then 1 else 0)
  }

  /** Pulse counts add up over consecutive logs. */
  lemma {:induction false} PulseCountAppend(a: seq<Command>, b: seq<Command>)
    ensures PulseCount(a + b) == PulseCount(a) + PulseCount(b)
  {
    if b != [] {
      assert (a + b)[..|a + b| - 1] == a + b[..|b| - 1];
      PulseCountAppend(a, b[..|b| - 1]);
    } else {
      assert a + b == a;
    }
  }

  /** `Pulses(n)` holds exactly `n` pulses. */
  lemma {:induction false} PulseCountPulses(n: nat)
    ensures PulseCount(Pulses(n)) == n
  {
    if n > 0 {
      PulseCountAppend(Pulses(n - 1), [Pulse]);
      PulseCountPulses(n - 1);
      assert [Pulse][..0] == [];
    }
  }

  /** Repeating a log repeats its pulses. */
  lemma {:induction false} PulseCountRepeat(cmds: seq<Command>, k: nat)
    ensures PulseCount(Repeat(cmds, k)) == k * PulseCount(cmds)
  {
    if k > 0 {
      PulseCountAppend(Repeat(cmds, k - 1), cmds);
      PulseCountRepeat(cmds, k - 1);
      assert k * PulseCount(cmds) == (k - 1) * PulseCount(cmds) + PulseCount(cmds);
    }
  }
}

/**
 * The GPIO vocabulary of the nRF52840 as the board crate uses it: the two
 * ports, their lines, logic levels, the electrical modes a pin can be put in,
 * and the port partitions that hand out one pin per line.
 *
 * The register programming behind each transition belongs to nrf52840-hal and
 * is not modelled: a transition only records the new mode.
 */
module Gpio {

  /** The two GPIO ports, `p0` and `p1`. */
  datatype Port = Port0 | Port1

  /** A physical GPIO line. The port is part of its identity: P0.02 and P1.02 are different lines. */
  datatype Line = Line(port: Port, index: nat)

  datatype Level = Low | High

  /**
   * The electrical configuration of a pin. An output carries the level last
   * written to its output latch.
   */
  datatype Mode = Disconnected | FloatingInput | PullUpInput | PushPullOutput(level: Level)

  /**
   * A pin handle: one line in one mode. `degrade()` only erases the line
   * number from the Rust type; the handle still knows its line, so a degraded
   * pin is the same value here.
   */
  datatype Pin = Pin(line: Line, mode: Mode)

  /** Number of lines of a port: P0.00 to P0.31 and P1.00 to P1.15. */
  function Width(port: Port): nat
  {
    match port
    case Port0 => 32
    case Port1 => 16
  }

  predicate ValidLine(l: Line)
  {
    l.index < Width(l.port)
  }

  /**
   * `p0::Parts::new` / `p1::Parts::new`: one disconnected pin for every line of
   * the port; element i is the field `p<port>_<i>` of the Rust struct.
   */
  function Parts(port: Port): (parts: seq<Pin>)
    ensures |parts| == Width(port)
    ensures forall i :: 0 <= i < |parts| ==>
              parts[i].line == Line(port, i) && ValidLine(parts[i].line) && parts[i].mode == Disconnected
  {
    seq(Width(port), i requires 0 <= i < Width(port) => Pin(Line(port, i), Disconnected))
  }

  /** `into_push_pull_output(initial)`: the same line, driven as an output starting at `initial`. */
  function IntoPushPullOutput(p: Pin, initial: Level): Pin
  {
    Pin(p.line, PushPullOutput(initial))
  }

  /** `into_floating_input()`: the same line, read as an input without pull resistor. */
  function IntoFloatingInput(p: Pin): Pin
  {
    Pin(p.line, FloatingInput)
  }

  /** `into_pullup_input()`: the same line, read as an input with its pull-up enabled. */
  function IntoPullUpInput(p: Pin): Pin
  {
    Pin(p.line, PullUpInput)
  }
}

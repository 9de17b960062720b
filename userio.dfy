/**
 * The two user-facing wrappers of the board crate: an LED, which owns one
 * push-pull output and remembers the level last written to it, and a button,
 * which owns one pull-up input and reads it active-low.
 *
 * The HAL's pin reads and writes return a `Result` that the crate unwraps;
 * they are taken to succeed.
 */
module UserIo {
  import opened Gpio

  /** The calls that change an LED. */
  datatype LedCall = EnableCall | DisableCall

  /** The LED state machine: the output level after `call`, from `level`. */
  function Step(level: Level, call: LedCall): Level
  {
    match call
    case EnableCall => High
    case DisableCall => Low
  }

  /** The output level after the calls `calls`, in order, from `start`. */
  function Replay(start: Level, calls: seq<LedCall>): Level
    decreases calls
  {
    if calls == [] then start else Replay(Step(start, calls[0]), calls[1..])
  }

  /** After any calls the latch holds what the most recent call wrote, or the start level if there was none. */
  lemma {:induction false} ReplayIsLastWrite(start: Level, calls: seq<LedCall>)
    ensures Replay(start, calls) == if calls == [] then start else Step(start, calls[|calls| - 1])
    decreases calls
  {
    if |calls| > 1 {
      ReplayIsLastWrite(Step(start, calls[0]), calls[1..]);
      assert calls[1..][|calls[1..]| - 1] == calls[|calls| - 1];
    }
  }

  /** Starting as `Led::new` leaves it (low), the LED is on exactly when the most recent call was `enable`. */
  lemma OnIffLastCallEnabled(calls: seq<LedCall>)
    ensures Replay(Low, calls) == High <==> calls != [] && calls[|calls| - 1] == EnableCall
  {
    ReplayIsLastWrite(Low, calls);
  }

  /** `Led`: owns one line driven as a push-pull output. */
  class Led {
    const line: Line
    var level: Level

    /** `Led::new`: the pin, whatever its mode, becomes a push-pull output driven low. */
    constructor (pin: Pin)
      ensures line == pin.line && level == Low
      ensures !IsOn() && IsOff()
    {
      var out := IntoPushPullOutput(pin, Low);
      line := out.line;
      level := out.mode.level;
    }

    /** The pin handle the LED owns. */
    function Output(): (p: Pin)
      reads this
      ensures p.line == line && p.mode.PushPullOutput? && p.mode.level == level
    {
      Pin(line, PushPullOutput(level))
    }

    /** `enable`: drives the line high. */
    method Enable()
      modifies this
      ensures level == Step(old(level), EnableCall)
      ensures IsOn() && !IsOff()
    {
      level := High;
    }

    /** `disable`: drives the line low. */
    method Disable()
      modifies this
      ensures level == Step(old(level), DisableCall)
      ensures !IsOn() && IsOff()
    {
      level := Low;
    }

    /** `is_on`: the output latch reads high. */
    function IsOn(): (on: bool)
      reads this
      ensures on <==> Output().mode.level == High
    {
      level == High
    }

    /** `is_off`: the output latch reads low; always the complement of `is_on`. */
    function IsOff(): (off: bool)
      reads this
      ensures off == !IsOn()
    {
      level == Low
    }
  }

  /**
   * `Button`: owns one line read as a pull-up input. `input` below is the
   * level the line carries when read: the pull-up holds it high, the closed
   * switch pulls it low.
   */
  datatype Button = Button(pin: Pin) {

    /** `Button::new`: the pin, whatever its mode, becomes a pull-up input. */
    static function New(pin: Pin): (b: Button)
      ensures b.pin.line == pin.line && b.pin.mode == PullUpInput
    {
      Button(IntoPullUpInput(pin))
    }

    /** `is_pressed`: active-low, pressed exactly when the line reads low. */
    function IsPressed(input: Level): (pressed: bool)
      ensures pressed <==> input == Low
    {
      input != High
    }

    /** `is_released`: the exact complement of `is_pressed` at the same input level. */
    function IsReleased(input: Level): (released: bool)
      ensures released == !IsPressed(input)
      ensures released <==> input == High
    {
      input == High
    }
  }
}

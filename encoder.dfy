/**
 * The rotary encoder with push button and RGB LED that an operator uses to set the
 * volume of one channel.  The I2C device itself is outside the model: each poll is
 * given the device's status register, the level of its GPIO input 1 and its current
 * counter value, and the model records what the driver writes back to the device
 * (the counter value it pushes and the LED colour).
 */
module Encoders {

  /** Minimum time between two polls of the device, in nanoseconds. */
  const REFRESH_FREQ: int := 100000000

  /** The range the counter value is kept in. */
  const MIN_VALUE: real := 0.0
  const MAX_VALUE: real := 80.0

  /** Colour codes accepted by LedColor. */
  const LED_RED: int := 1
  const LED_GREEN: int := 2
  const LED_BLUE: int := 3
  const LED_AMBER: int := 4

  /** Status register bits: counter increased, counter decreased, double push. */
  const STATUS_INCREASE: nat := 3
  const STATUS_DECREASE: nat := 4
  const STATUS_DOUBLE_PUSH: nat := 2

  /** The intensities written to the red, green and blue LED registers. */
  datatype Rgb = Rgb(red: int, green: int, blue: int)

  /** The LED registers for a colour code; any code other than amber, green and red shows blue. */
  function LedRgb(color: int): Rgb
  {
    if color == LED_AMBER then Rgb(0x25, 0x15, 0x00)
    else if color == LED_GREEN then Rgb(0x00, 0x25, 0x00)
    else if color == LED_RED then Rgb(0x25, 0x00, 0x00)
    else Rgb(0x00, 0x00, 0x25)
  }

  /** Whether bit k of the device's status register is set. */
  predicate StatusBit(status: bv8, k: nat)
    requires k < 8
  {
    status & (1 << k) != 0
  }

  /** The value stored when the counter is written: out-of-range input is clamped, never rejected. */
  function Clamp(v: real): (r: real)
    ensures MIN_VALUE <= r <= MAX_VALUE
    ensures MIN_VALUE <= v <= MAX_VALUE ==> r == v
    ensures r != v ==> (v < MIN_VALUE && r == MIN_VALUE) || (v > MAX_VALUE && r == MAX_VALUE)
  {
    if v < MIN_VALUE then MIN_VALUE
    else if v > MAX_VALUE then MAX_VALUE
    else v
  }

  /** Whether a poll that sees GPIO level gp1 registers a press, given whether the previous poll saw the button up. */
  predicate Pressed(up: bool, gp1: int)
  {
    up && gp1 == 0
  }

  /** A snapshot of the driver's state, and of what it last wrote to the device. */
  datatype State = State(
    t1: int,             // time of the last poll that ran
    value: real,         // the counter value
    valueRefresh: bool,  // the value must be pushed to the device
    dblclick: bool,      // double-push latch
    button: bool,        // push latch
    buttonDown: bool,    // the last poll saw the button down
    buttonUp: bool,      // the last poll saw the button up
    change: bool,        // the operator turned the knob
    pushed: real,        // the counter value last written to the device
    led: Rgb)            // the LED colour last written to the device

  /** The driver right after construction: the device was reset, its counter set to 0 and its LED turned off. */
  function Initial(): State
  {
    State(0, 0.0, true, false, false, false, false, false, 0.0, Rgb(0, 0, 0))
  }

  /** The effect of reset: the poll timer, the value, every latch and edge flag; the device is left alone. */
  function Restarted(e: State): State
  {
    e.(t1 := 0, value := 0.0, valueRefresh := true, dblclick := false, button := false,
       buttonDown := false, buttonUp := false, change := false)
  }

  /** The effect of writing the value property. */
  function WithValue(e: State, v: real): State
  {
    e.(value := Clamp(v), valueRefresh := true)
  }

  /** The effect of setting the LED colour. */
  function WithLed(e: State, color: int): State
  {
    e.(led := LedRgb(color))
  }

  /** The state left by reading all three latches. */
  function Taken(e: State): State
  {
    e.(button := false, dblclick := false, change := false)
  }

  /** Whether a poll at this time is due. */
  predicate Due(e: State, timestamp: int)
  {
    timestamp - e.t1 > REFRESH_FREQ
  }

  /**
   * The effect of one tick, given what the device reports: its status register, the
   * level of GPIO 1 (0 while the button is held) and its counter value.
   */
  function Polled(e: State, timestamp: int, status: bv8, gp1: int, reading: real): State
  {
    if !Due(e, timestamp) then e
    else
      var turned := StatusBit(status, STATUS_INCREASE) || StatusBit(status, STATUS_DECREASE);
      var e1 := if turned then e.(value := reading, change := true)
                else if e.valueRefresh then e.(pushed := e.value)
                else e;
      var e2 := e1.(t1 := timestamp, valueRefresh := false);
      var e3 := if StatusBit(status, STATUS_DOUBLE_PUSH) then e2.(dblclick := true) else e2;
      if gp1 == 0 then e3.(buttonDown := true, button := e3.button || e3.buttonUp, buttonUp := false)
      else e3.(buttonUp := true, buttonDown := false)
  }

  /** Number of polls, over successive GPIO levels, that register a press. */
  function Presses(up: bool, levels: seq<int>): nat
    decreases |levels|
  {
    if levels == [] then 0
    else (if Pressed(up, levels[0]) then 1 else 0) + Presses(levels[0] != 0, levels[1..])
  }

  /** Number of polls that see the button up. */
  function Releases(levels: seq<int>): nat
    decreases |levels|
  {
    if levels == [] then 0
    else (if levels[0] != 0 then 1 else 0) + Releases(levels[1..])
  }

  // ---------------------------------------------------------------------------
  // Properties

  /** The counter value always lies in [MIN_VALUE, MAX_VALUE] once written, and a write marks it for pushing. */
  lemma WriteClamps(e: State, v: real)
    ensures MIN_VALUE <= WithValue(e, v).value <= MAX_VALUE
    ensures WithValue(e, v).valueRefresh
    ensures v < MIN_VALUE ==> WithValue(e, v).value == MIN_VALUE
    ensures v > MAX_VALUE ==> WithValue(e, v).value == MAX_VALUE
    ensures MIN_VALUE <= v <= MAX_VALUE ==> WithValue(e, v).value == v
  {
  }

  /** Reset clears every latch and edge flag, restarts the poll timer, and is idempotent. */
  lemma RestartClears(e: State)
    ensures var r := Restarted(e);
      r.value == 0.0 && r.t1 == 0 && r.valueRefresh
      && !r.button && !r.dblclick && !r.change && !r.buttonUp && !r.buttonDown
      && r.pushed == e.pushed && r.led == e.led
    ensures Restarted(Restarted(e)) == Restarted(e)
  {
  }

  /** A tick that is not due changes nothing. */
  lemma PollNotDue(e: State, timestamp: int, status: bv8, gp1: int, reading: real)
    requires timestamp - e.t1 <= REFRESH_FREQ
    ensures Polled(e, timestamp, status, gp1, reading) == e
  {
  }

  /**
   * A tick that is due restarts the timer and leaves no pending push; a turn of the knob
   * takes the device's value and raises the change latch, otherwise a pending value is pushed.
   */
  lemma PollValue(e: State, timestamp: int, status: bv8, gp1: int, reading: real)
    requires timestamp - e.t1 > REFRESH_FREQ
    ensures var r := Polled(e, timestamp, status, gp1, reading);
      && r.t1 == timestamp && !r.valueRefresh
      && (StatusBit(status, 3) || StatusBit(status, 4) ==> r.value == reading && r.change && r.pushed == e.pushed)
      && (!StatusBit(status, 3) && !StatusBit(status, 4) ==>
            r.value == e.value && r.change == e.change
            && r.pushed == (if e.valueRefresh then e.value else e.pushed))
      && r.led == e.led
  {
  }

  /** A due tick raises the double-push latch exactly when status bit 2 is set, and never lowers it. */
  lemma PollDoubleClick(e: State, timestamp: int, status: bv8, gp1: int, reading: real)
    requires timestamp - e.t1 > REFRESH_FREQ
    ensures Polled(e, timestamp, status, gp1, reading).dblclick == (e.dblclick || StatusBit(status, 2))
  {
  }

  /**
   * A due tick raises the push latch only when it sees the button down (gp1 == 0) right after
   * a poll that saw it up, and it records the level it saw for the next poll.
   */
  lemma PollButton(e: State, timestamp: int, status: bv8, gp1: int, reading: real)
    requires timestamp - e.t1 > REFRESH_FREQ
    ensures var r := Polled(e, timestamp, status, gp1, reading);
      && r.button == (e.button || Pressed(e.buttonUp, gp1))
      && r.buttonUp == (gp1 != 0)
      && r.buttonDown == (gp1 == 0)
  {
  }

  /** Holding the button down over any number of polls registers at most one press. */
  lemma {:induction false} HeldButtonPressesOnce(up: bool, levels: seq<int>)
    decreases |levels|
    requires forall i :: 0 <= i < |levels| ==> levels[i] == 0
    ensures Presses(up, levels) == (if up && levels != [] then 1 else 0)
    ensures Presses(up, levels) <= 1
  {
    if levels != [] {
      HeldButtonPressesOnce(false, levels[1..]);
    }
  }

  /** Every press follows its own poll that saw the button up, so presses never outnumber releases. */
  lemma {:induction false} PressesNeedReleases(up: bool, levels: seq<int>)
    decreases |levels|
    ensures Presses(up, levels) <= Releases(levels) + (if up then 1 else 0)
  {
    if levels != [] {
      PressesNeedReleases(levels[0] != 0, levels[1..]);
    }
  }

  /** An up, down, up cycle of the button registers exactly one press, whatever came before. */
  lemma UpDownUpIsOnePress(up: bool, high: int, high': int)
    requires high != 0 && high' != 0
    ensures Presses(up, [high, 0, high']) == 1
  {
    assert [high, 0, high'][1..] == [0, high'];
    assert [0, high'][1..] == [high'];
    assert [high'][1..] == [];
    assert Presses(true, [high']) == 0;
    assert Presses(false, [high']) == 0;
    assert Presses(true, [0, high']) == 1;
  }

  /**
   * Number of presses the driver latches over successive due polls that see the given GPIO
   * levels and no status bits, when the push latch is read (and cleared) after every poll.
   */
  function Polls(e: State, levels: seq<int>): nat
    decreases |levels|
  {
    if levels == [] then 0
    else
      var r := Polled(e, e.t1 + REFRESH_FREQ + 1, 0, levels[0], 0.0);
      (if r.button then 1 else 0) + Polls(r.(button := false), levels[1..])
  }

  /** The driver latches exactly the presses that Presses counts, starting from its own edge flag. */
  lemma {:induction false} PollsArePresses(e: State, levels: seq<int>)
    requires !e.button
    decreases |levels|
    ensures Polls(e, levels) == Presses(e.buttonUp, levels)
  {
    if levels != [] {
      var r := Polled(e, e.t1 + REFRESH_FREQ + 1, 0, levels[0], 0.0);
      PollButton(e, e.t1 + REFRESH_FREQ + 1, 0, levels[0], 0.0);
      PollsArePresses(r.(button := false), levels[1..]);
    }
  }

  /** The colours the controller uses for an open and a closed valve look different, and unknown codes show blue. */
  lemma LedColorsDistinct(color: int)
    ensures LedRgb(LED_BLUE) != LedRgb(LED_GREEN)
    ensures LedRgb(LED_RED) != LedRgb(LED_GREEN) && LedRgb(LED_RED) != LedRgb(LED_AMBER)
    ensures color !in {LED_RED, LED_GREEN, LED_AMBER} ==> LedRgb(color) == LedRgb(LED_BLUE)
    ensures LedRgb(color).green == 0x15 <==> color == LED_AMBER
  {
  }

  // ---------------------------------------------------------------------------
  // The driver object

  class Encoder {
    var t1: int
    var value: real
    var valueRefresh: bool
    var dblclick: bool
    var button: bool
    var buttonDown: bool
    var buttonUp: bool
    var change: bool
    /** The counter value last written to the device. */
    var pushed: real
    /** The LED colour last written to the device. */
    var led: Rgb

    function Model(): State
      reads this
    {
      State(t1, value, valueRefresh, dblclick, button, buttonDown, buttonUp, change, pushed, led)
    }

    constructor ()
      ensures Model() == Initial()
    {
      t1 := 0;
      value := 0.0;
      valueRefresh := true;
      dblclick := false;
      button := false;
      buttonDown := false;
      buttonUp := false;
      change := false;
      pushed := 0.0;
      led := Rgb(0, 0, 0);
    }

    method Reset()
      modifies this
      ensures Model() == Restarted(old(Model()))
    {
      t1 := 0;
      value := 0.0;
      valueRefresh := true;
      button := false;
      dblclick := false;
      buttonDown := false;
      buttonUp := false;
      change := false;
    }

    /** The counter value: the last one written, clamped, or the last one taken from the device. */
    function Value(): (r: real)
      reads this
      ensures r == Model().value
    {
      value
    }

    method SetValue(v: real)
      modifies this
      ensures Model() == WithValue(old(Model()), v)
    {
      if v < MIN_VALUE {
        value := MIN_VALUE;
      } else if v > MAX_VALUE {
        value := MAX_VALUE;
      } else {
        value := v;
      }
      valueRefresh := true;
    }

    /** Reads the double-push latch and clears it. */
    method DblClick() returns (result: bool)
      modifies this
      ensures result == old(dblclick)
      ensures Model() == old(Model()).(dblclick := false)
    {
      result := dblclick;
      dblclick := false;
    }

    /** Reads the push latch and clears it. */
    method Button() returns (result: bool)
      modifies this
      ensures result == old(button)
      ensures Model() == old(Model()).(button := false)
    {
      result := button;
      button := false;
    }

    /** Reads the change latch and clears it. */
    method Change() returns (result: bool)
      modifies this
      ensures result == old(change)
      ensures Model() == old(Model()).(change := false)
    {
      result := change;
      change := false;
    }

    method LedColor(color: int)
      modifies this
      ensures Model() == WithLed(old(Model()), color)
    {
      if LED_AMBER == color {
        led := Rgb(0x25, 0x15, 0x00);
      } else if LED_GREEN == color {
        led := Rgb(0x00, 0x25, 0x00);
      } else if LED_RED == color {
        led := Rgb(0x25, 0x00, 0x00);
      } else {
        led := Rgb(0x00, 0x00, 0x25);
      }
    }

    /** Polls the device, given its status register, GPIO 1 level and counter value. */
    method Tick(timestamp: int, status: bv8, gp1: int, reading: real)
      modifies this
      ensures Model() == Polled(old(Model()), timestamp, status, gp1, reading)
    {
      if timestamp - t1 > REFRESH_FREQ {
        t1 := timestamp;

        // Take the device's value after a turn, otherwise push a pending write
        if StatusBit(status, STATUS_INCREASE) || StatusBit(status, STATUS_DECREASE) {
          value := reading;
          if !change {
            change := true;
          }
        } else if valueRefresh {
          pushed := value;
        }
        valueRefresh := false;

        if StatusBit(status, STATUS_DOUBLE_PUSH) && !dblclick {
          dblclick := true;
        }

        // A press is the first poll that sees the button down after one that saw it up
        if gp1 == 0 {
          buttonDown := true;
          button := button || buttonUp;
          buttonUp := false;
        } else {
          buttonUp := true;
          buttonDown := false;
        }
      }
    }
  }
}

/**
 * The controller of one dispensing channel.  Every tick polls the encoder, then runs
 * three phases in order: read (valve, sensor readings, encoder latches), update (set or
 * integrate the remaining volume, toggle the valve, shut off at zero, reset on a double
 * push) and write (valve, encoder LED and value, gauge), and finally ticks the gauge and
 * the sensor.
 */
module Controllers {
  import Valves
  import Encoders
  import Gauges
  import Sensors

  const NS_PER_SECOND: real := 1000000000.0

  /** The controller's own state. */
  datatype Channel = Channel(
    prevTimestamp: int,  // time of the previous tick, in nanoseconds
    open: bool,          // the valve should be open
    temp: real,          // last temperature reading
    flow: real,          // last flow reading, litres per minute
    prevFlow: real,      // the flow reading before that
    vol: real,           // remaining volume, litres
    encButton: bool,     // the encoder latches taken by the last read
    encDblclick: bool,
    encChange: bool,
    encVal: real)        // the encoder value taken by the last read

  function Initial(): Channel
  {
    Channel(0, false, 0.0, 0.0, 0.0, 0.0, false, false, false, 0.0)
  }

  /** Reset's effect on the controller's own state: everything but the previous timestamp. */
  function Cleared(c: Channel): Channel
  {
    Initial().(prevTimestamp := c.prevTimestamp)
  }

  /**
   * The read phase: the valve's open flag, the sensor readings (the previous flow moves
   * back one place) and the encoder's three latches and value.
   */
  function Read(c: Channel, valveOpen: bool, temp: real, flow: real,
                button: bool, dblclick: bool, change: bool, value: real): Channel
  {
    c.(open := valveOpen, temp := temp, prevFlow := c.flow, flow := flow,
       encButton := button, encDblclick := dblclick, encChange := change, encVal := value)
  }

  /**
   * Litres dispensed since the previous tick: the mean of the current and the previous
   * flow, converted from litres per minute to litres per second, over the elapsed time.
   */
  function Dispensed(c: Channel, timestamp: int): real
  {
    (c.flow + c.prevFlow) / 120.0 * ((timestamp - c.prevTimestamp) as real / NS_PER_SECOND)
  }

  /** The update phase. */
  function Updated(c: Channel, timestamp: int): (r: Channel)
    ensures r.vol >= 0.0
    ensures r.open ==> r.vol > 0.0
    ensures r.prevTimestamp == c.prevTimestamp
  {
    // A manual change sets the volume outright; otherwise the volume dispensed is deducted
    var c1 := if c.encChange then c.(vol := c.encVal) else c.(vol := c.vol - Dispensed(c, timestamp));
    // A push toggles the valve
    var c2 := if c.encButton then c1.(open := !c1.open) else c1;
    // Once the volume is dispensed the valve shuts
    var c3 := if c2.vol <= 0.0 then c2.(vol := 0.0, encVal := 0.0, open := false) else c2;
    // A double push resets everything
    if c.encDblclick then Cleared(c3) else c3
  }

  /** One whole tick of the controller's own state, given what its read phase sees. */
  function Step(c: Channel, timestamp: int, valveOpen: bool, temp: real, flow: real,
                button: bool, dblclick: bool, change: bool, value: real): Channel
  {
    Updated(Read(c, valveOpen, temp, flow, button, dblclick, change, value), timestamp).(prevTimestamp := timestamp)
  }

  /** The LED colour shown for the valve: blue while open, green while closed. */
  function LedFor(open: bool): int
  {
    if open then Encoders.LED_BLUE else Encoders.LED_GREEN
  }

  // ---------------------------------------------------------------------------
  // Properties of one update

  /** A manual change sets the volume to the encoder value itself, not by a delta, and no flow is deducted. */
  lemma ChangeIsAbsolute(c: Channel, timestamp: int)
    requires c.encChange && !c.encDblclick
    ensures Updated(c, timestamp).vol == (if c.encVal > 0.0 then c.encVal else 0.0)
    ensures c.encVal > 0.0 ==> Updated(c, timestamp).encVal == c.encVal
  {
  }

  /** Without a manual change, the volume drops by the mean flow over the elapsed time, stopping at zero. */
  lemma IntegratesFlow(c: Channel, timestamp: int)
    requires !c.encChange && !c.encDblclick
    ensures var v := c.vol - (c.flow + c.prevFlow) / 120.0 * ((timestamp - c.prevTimestamp) as real * 0.000000001);
      Updated(c, timestamp).vol == (if v <= 0.0 then 0.0 else v)
  {
  }

  /** With non-negative flows and time running forward, nothing is dispensed backwards. */
  lemma DispensedNonNegative(c: Channel, timestamp: int)
    requires c.flow >= 0.0 && c.prevFlow >= 0.0 && timestamp >= c.prevTimestamp
    ensures Dispensed(c, timestamp) >= 0.0
  {
    var mean := (c.flow + c.prevFlow) / 120.0;
    var seconds := (timestamp - c.prevTimestamp) as real / NS_PER_SECOND;
    assert mean >= 0.0 && seconds >= 0.0;
    assert mean * seconds >= 0.0;
  }

  /** Without a manual change, and with non-negative flows and time running forward, the volume never grows. */
  lemma VolumeNeverGrows(c: Channel, timestamp: int)
    requires !c.encChange
    requires c.vol >= 0.0 && c.flow >= 0.0 && c.prevFlow >= 0.0 && timestamp >= c.prevTimestamp
    ensures Updated(c, timestamp).vol <= c.vol
  {
    DispensedNonNegative(c, timestamp);
  }

  /**
   * Whenever the volume reaches zero or below, the update leaves it at zero, the encoder value at
   * zero and the valve closed, even when a push asked to open it in the same tick.
   */
  lemma ShutoffAtZero(c: Channel, timestamp: int)
    requires (if c.encChange then c.encVal else c.vol - Dispensed(c, timestamp)) <= 0.0
    ensures Updated(c, timestamp).vol == 0.0
    ensures Updated(c, timestamp).encVal == 0.0
    ensures !Updated(c, timestamp).open
  {
  }

  /** Unless the tick ends in a shutoff or a reset, a push flips the valve flag exactly once and its absence keeps it. */
  lemma ButtonToggles(c: Channel, timestamp: int)
    requires !c.encDblclick && Updated(c, timestamp).vol > 0.0
    ensures Updated(c, timestamp).open == (c.open != c.encButton)
  {
  }

  /** A double push supersedes everything else in the tick, and reset is idempotent. */
  lemma DoubleClickResets(c: Channel, timestamp: int)
    requires c.encDblclick
    ensures Updated(c, timestamp) == Cleared(c)
    ensures var r := Updated(c, timestamp);
      && r.vol == 0.0 && r.flow == 0.0 && r.prevFlow == 0.0 && r.temp == 0.0 && !r.open
      && !r.encButton && !r.encDblclick && !r.encChange && r.encVal == 0.0
    ensures Cleared(Cleared(c)) == Cleared(c)
  {
  }

  /** The read phase moves the last flow reading into the previous one before taking the new reading. */
  lemma ReadShiftsFlow(c: Channel, valveOpen: bool, temp: real, flow: real,
                       button: bool, dblclick: bool, change: bool, value: real)
    ensures var r := Read(c, valveOpen, temp, flow, button, dblclick, change, value);
      r.prevFlow == c.flow && r.flow == flow && r.open == valveOpen && r.temp == temp
      && r.vol == c.vol && r.prevTimestamp == c.prevTimestamp
  {
  }

  /**
   * The first tick is not special-cased: the previous timestamp starts at 0, so the whole time
   * since the clock's origin counts as elapsed, and the first flow reading is deducted over it.
   */
  lemma FirstTickCountsFromOrigin(v: real, timestamp: int, temp: real, flow: real)
    requires timestamp >= 0 && flow >= 0.0
    requires v - flow / 120.0 * (timestamp as real / NS_PER_SECOND) > 0.0
    ensures Step(Initial().(vol := v, encVal := v), timestamp, false, temp, flow, false, false, false, 0.0).vol
      == v - flow / 120.0 * (timestamp as real / NS_PER_SECOND)
  {
  }

  // ---------------------------------------------------------------------------
  // Properties of runs of ticks

  /** What the read phase of one tick sees, besides the valve (which shows what the previous tick wrote). */
  datatype Reading = Reading(timestamp: int, temp: real, flow: real,
                             button: bool, dblclick: bool, change: bool, value: real)

  /** The controller's own state after a run of ticks. */
  function Run(c: Channel, xs: seq<Reading>): Channel
    decreases |xs|
  {
    if xs == [] then c
    else
      var x := xs[0];
      Run(Step(c, x.timestamp, c.open, x.temp, x.flow, x.button, x.dblclick, x.change, x.value), xs[1..])
  }

  /** Timestamps that never go backwards, starting from prev. */
  predicate Ordered(prev: int, xs: seq<Reading>)
    decreases |xs|
  {
    xs == [] || (prev <= xs[0].timestamp && Ordered(xs[0].timestamp, xs[1..]))
  }

  /** A run without manual changes in which every flow reading is non-negative, as the sensor guarantees. */
  predicate NoOverride(xs: seq<Reading>)
  {
    forall i :: 0 <= i < |xs| ==> !xs[i].change && xs[i].flow >= 0.0
  }

  /** Without a manual change the remaining volume never increases over any run of ticks, resets included. */
  lemma {:induction false} RunNeverRefills(c: Channel, xs: seq<Reading>)
    requires c.vol >= 0.0 && c.flow >= 0.0
    requires Ordered(c.prevTimestamp, xs) && NoOverride(xs)
    decreases |xs|
    ensures 0.0 <= Run(c, xs).vol <= c.vol
  {
    if xs != [] {
      var x := xs[0];
      var r := Read(c, c.open, x.temp, x.flow, x.button, x.dblclick, x.change, x.value);
      VolumeNeverGrows(r, x.timestamp);
      var next := Step(c, x.timestamp, c.open, x.temp, x.flow, x.button, x.dblclick, x.change, x.value);
      assert NoOverride(xs[1..]) by {
        forall i | 0 <= i < |xs[1..]| ensures !xs[1..][i].change && xs[1..][i].flow >= 0.0 {
          assert xs[1..][i] == xs[i + 1];
        }
      }
      RunNeverRefills(next, xs[1..]);
    }
  }

  /**
   * Shutoff is sticky: once the volume is zero and the valve closed, they stay so over any run
   * without a manual change, whatever pushes, double pushes or flows it sees.
   */
  lemma {:induction false} ShutoffIsSticky(c: Channel, xs: seq<Reading>)
    requires c.vol == 0.0 && !c.open && c.flow >= 0.0
    requires Ordered(c.prevTimestamp, xs) && NoOverride(xs)
    decreases |xs|
    ensures Run(c, xs).vol == 0.0 && !Run(c, xs).open
  {
    if xs != [] {
      var x := xs[0];
      var r := Read(c, c.open, x.temp, x.flow, x.button, x.dblclick, x.change, x.value);
      DispensedNonNegative(r, x.timestamp);
      ShutoffAtZero(r, x.timestamp);
      var next := Step(c, x.timestamp, c.open, x.temp, x.flow, x.button, x.dblclick, x.change, x.value);
      assert NoOverride(xs[1..]) by {
        forall i | 0 <= i < |xs[1..]| ensures !xs[1..][i].change && xs[1..][i].flow >= 0.0 {
          assert xs[1..][i] == xs[i + 1];
        }
      }
      ShutoffIsSticky(next, xs[1..]);
    }
  }

  /** n ticks one second apart, each reading the same flow, with no encoder event. */
  function Steady(n: nat, start: int, flow: real): seq<Reading>
  {
    if n == 0 then []
    else [Reading(start + 1000000000, 0.0, flow, false, false, false, 0.0)] + Steady(n - 1, start + 1000000000, flow)
  }

  /** At a constant flow, each one-second tick dispenses flow / 60 litres and leaves the valve as it was. */
  lemma {:induction false} SteadyFlowDispenses(c: Channel, n: nat, flow: real)
    decreases n
    requires flow >= 0.0 && c.flow == flow
    requires c.vol - n as real * flow / 60.0 > 0.0
    ensures Run(c, Steady(n, c.prevTimestamp, flow)).vol == c.vol - n as real * flow / 60.0
    ensures Run(c, Steady(n, c.prevTimestamp, flow)).open == c.open
  {
    if n > 0 {
      var xs := Steady(n, c.prevTimestamp, flow);
      var x := xs[0];
      var next := Step(c, x.timestamp, c.open, x.temp, x.flow, x.button, x.dblclick, x.change, x.value);
      var r := Read(c, c.open, x.temp, x.flow, x.button, x.dblclick, x.change, x.value);
      assert Dispensed(r, x.timestamp) == flow / 60.0;
      assert (n - 1) as real * flow / 60.0 + flow / 60.0 == n as real * flow / 60.0;
      assert next.vol == c.vol - flow / 60.0;
      assert xs[1..] == Steady(n - 1, next.prevTimestamp, flow);
      SteadyFlowDispenses(next, n - 1, flow);
    }
  }

  /** Ten litres at six litres per minute: after ten one-second ticks, nine litres remain and the valve is unchanged. */
  lemma TenSecondsAtSixLitres(c: Channel)
    requires c.vol == 10.0 && c.flow == 6.0
    ensures Run(c, Steady(10, c.prevTimestamp, 6.0)).vol == 9.0
    ensures Run(c, Steady(10, c.prevTimestamp, 6.0)).open == c.open
  {
    SteadyFlowDispenses(c, 10, 6.0);
  }

  // ---------------------------------------------------------------------------
  // The controller object

  class Controller {
    const name: string
    const valve: Valves.Valve
    const sensor: Sensors.Sensor
    const encoder: Encoders.Encoder
    const gauge: Gauges.Gauge

    var prevTimestamp: int
    var open: bool
    var temp: real
    var flow: real
    var prevFlow: real
    var vol: real
    var encButton: bool
    var encDblclick: bool
    var encChange: bool
    var encVal: real

    function Model(): Channel
      reads this
    {
      Channel(prevTimestamp, open, temp, flow, prevFlow, vol, encButton, encDblclick, encChange, encVal)
    }

    constructor (name: string, valve: Valves.Valve, sensor: Sensors.Sensor,
                 encoder: Encoders.Encoder, gauge: Gauges.Gauge)
      ensures this.name == name && this.valve == valve && this.sensor == sensor
      ensures this.encoder == encoder && this.gauge == gauge
      ensures Model() == Initial()
    {
      this.name := name;
      this.valve := valve;
      this.sensor := sensor;
      this.encoder := encoder;
      this.gauge := gauge;
      prevTimestamp := 0;
      open := false;
      temp := 0.0;
      flow := 0.0;
      prevFlow := 0.0;
      vol := 0.0;
      encButton := false;
      encDblclick := false;
      encChange := false;
      encVal := 0.0;
    }

    /** Clears the channel and forwards the reset to the valve, encoder, gauge and sensor. */
    method Reset()
      modifies this, valve, encoder, gauge
      ensures Model() == Cleared(old(Model()))
      ensures !valve.IsOpen()
      ensures encoder.Model() == Encoders.Restarted(old(encoder.Model()))
      ensures gauge.Model() == Gauges.Restarted(old(gauge.Model()))
    {
      open := false;
      temp := 0.0;
      flow := 0.0;
      prevFlow := 0.0;
      vol := 0.0;
      encButton := false;
      encDblclick := false;
      encChange := false;
      encVal := 0.0;
      valve.Reset();
      encoder.Reset();
      gauge.Reset();
      sensor.Reset();
    }

    /** The remaining volume, in litres. */
    function Volume(): (r: real)
      reads this
      ensures r == vol
    {
      vol
    }

    /** Sets the remaining volume, and the encoder value the controller holds, to the same value. */
    method SetVolume(v: real)
      modifies this
      ensures Model() == old(Model()).(vol := v, encVal := v)
    {
      vol := v;
      encVal := v;
    }

    method ReadState()
      modifies this, encoder
      ensures Model() == Read(old(Model()), valve.IsOpen(), sensor.Temperature(), sensor.FlowRate(),
                              old(encoder.button), old(encoder.dblclick), old(encoder.change), old(encoder.value))
      ensures encoder.Model() == Encoders.Taken(old(encoder.Model()))
    {
      open := valve.IsOpen();

      temp := sensor.Temperature();
      prevFlow := flow;
      flow := sensor.FlowRate();

      encButton := encoder.Button();
      encDblclick := encoder.DblClick();
      encChange := encoder.Change();
      encVal := encoder.Value();
    }

    method UpdateState(timestamp: int)
      modifies this, valve, encoder, gauge
      ensures Model() == Updated(old(Model()), timestamp)
      ensures old(encDblclick) ==>
        && !valve.IsOpen()
        && encoder.Model() == Encoders.Restarted(old(encoder.Model()))
        && gauge.Model() == Gauges.Restarted(old(gauge.Model()))
      ensures !old(encDblclick) ==>
        valve.relay == old(valve.relay) && encoder.Model() == old(encoder.Model()) && gauge.Model() == old(gauge.Model())
    {
      if encChange {
        vol := encVal;
      } else {
        var period := (timestamp - prevTimestamp) as real / NS_PER_SECOND;
        var meanFlow := (flow + prevFlow) / 120.0;
        var delta := meanFlow * period;
        vol := vol - delta;
      }

      if encButton {
        open := !open;
      }

      if vol <= 0.0 {
        vol := 0.0;
        encVal := 0.0;
        if open {
          open := false;
        }
      }

      if encDblclick {
        Reset();
      }
    }

    method WriteState()
      modifies valve, encoder, gauge
      ensures valve.IsOpen() == open
      ensures encoder.Model() == Encoders.WithValue(Encoders.WithLed(old(encoder.Model()), LedFor(open)), vol)
      ensures gauge.Model() == Gauges.WithTemp(Gauges.WithFlow(Gauges.WithVol(old(gauge.Model()), vol), flow), temp)
    {
      if open {
        valve.Open();
        encoder.LedColor(Encoders.LED_BLUE);
      } else {
        valve.Close();
        encoder.LedColor(Encoders.LED_GREEN);
      }

      encoder.SetValue(vol);

      gauge.SetVol(vol);
      gauge.SetFlow(flow);
      gauge.SetTemp(temp);
    }

    /**
     * One control cycle.  The device inputs are the encoder's status register, GPIO 1 level and
     * counter value, and the raw receiver samples the sensor's reads take on each channel.
     */
    method Tick(timestamp: int, status: bv8, gp1: int, reading: real, flowRaw: seq<int>, tempRaw: seq<int>)
      requires Sensors.Valid(sensor.Model()) && Sensors.Enough(sensor.Model(), flowRaw, tempRaw)
      modifies this, valve, encoder, gauge, gauge.uart, sensor
      ensures var p := Encoders.Polled(old(encoder.Model()), timestamp, status, gp1, reading);
        Model() == Step(old(Model()), timestamp, old(valve.IsOpen()), old(sensor.Temperature()), old(sensor.FlowRate()),
                        p.button, p.dblclick, p.change, p.value)
      ensures vol >= 0.0 && (open ==> vol > 0.0) && valve.IsOpen() == open
      ensures var p := Encoders.Polled(old(encoder.Model()), timestamp, status, gp1, reading);
        var e := if p.dblclick then Encoders.Restarted(Encoders.Taken(p)) else Encoders.Taken(p);
        encoder.Model() == Encoders.WithValue(Encoders.WithLed(e, LedFor(open)), vol)
      ensures var p := Encoders.Polled(old(encoder.Model()), timestamp, status, gp1, reading);
        var g := if p.dblclick then Gauges.Restarted(old(gauge.Model())) else old(gauge.Model());
        var g' := Gauges.WithTemp(Gauges.WithFlow(Gauges.WithVol(g, vol), flow), temp);
        && gauge.Model() == Gauges.Flushed(g', timestamp)
        && gauge.uart.sent == old(gauge.uart.sent) + Gauges.Output(g', gauge.ids, timestamp)
      ensures sensor.Model() == Sensors.Ticked(old(sensor.Model()), sensor.tempFilter, sensor.flowFilter,
                                               timestamp, flowRaw, tempRaw)
      ensures Sensors.Valid(sensor.Model())
    {
      // Input ticks
      encoder.Tick(timestamp, status, gp1, reading);

      // Operation
      ReadState();
      UpdateState(timestamp);
      WriteState();

      // Output ticks
      gauge.Tick(timestamp);
      sensor.Tick(timestamp, flowRaw, tempRaw);

      prevTimestamp := timestamp;
    }
  }
}

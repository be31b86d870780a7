/**
 * The smoothed flow and temperature sensor of one channel, read from a 4-20 mA current
 * receiver.  Each channel keeps a sliding window of raw samples, oldest first; every read
 * slides one new sample in, smooths the window and converts its centre tap linearly into
 * litres per minute or degrees Celsius, floored at zero.
 *
 * The receiver is outside the model: each read is given the successive raw values the
 * receiver would return.  The smoothing filter is outside it too: each window is given a
 * Smoother, a total function that maps a window to a smoothed window of the same length.
 */
module Sensors {

  /** Minimum time between two samples, in nanoseconds. */
  const SAMPLE_FREQ: int := 100000000

  /** Linear conversions of a 16-bit raw reading. */
  const TEMP_M_16: real := 0.006412563919
  const FLOW_M_16: real := 0.0006027810084
  const TEMP_C_16: real := -62.5000000055
  const FLOW_C_16: real := -2.6250000009

  /** Half-widths of the smoothing windows; each window holds 2 * size + 1 samples. */
  const TEMP_BUFFER_SIZE: nat := 7
  const FLOW_BUFFER_SIZE: nat := 15

  /** A smoothing filter over a window of raw samples. */
  type Smoother = f: seq<int> -> seq<real> | forall w :: |f(w)| == |w|
    witness (w: seq<int>) => seq(|w|, i => 0.0)

  /** The number of samples a window holds once full. */
  function WindowLength(size: nat): nat
  {
    2 * size + 1
  }

  /** The number of samples still needed to fill a buffer. */
  function Deficit(buffer: seq<int>, size: nat): nat
  {
    if |buffer| < WindowLength(size) then WindowLength(size) - |buffer| else 0
  }

  /** One step of the window: drop the oldest sample, append the newest. */
  function Slid(window: seq<int>, raw: int): seq<int>
    requires window != []
  {
    window[1..] + [raw]
  }

  /**
   * The window a read leaves: the buffer, topped up from the receiver until it is full, then
   * slid by one further sample.
   */
  function Window(buffer: seq<int>, size: nat, samples: seq<int>): seq<int>
    requires |samples| > Deficit(buffer, size)
  {
    var d := Deficit(buffer, size);
    Slid(buffer + samples[..d], samples[d])
  }

  /** A linear conversion whose result is floored at zero. */
  function Converted(m: real, c: real, x: real): (r: real)
    ensures r >= 0.0
    ensures r > 0.0 <==> m * x + c > 0.0
    ensures r > 0.0 ==> r == m * x + c
  {
    var v := m * x + c;
    if v > 0.0 then v else 0.0
  }

  /** The smoother's output at the centre of a window of half-width size. */
  function CentreTap(filter: Smoother, window: seq<int>, size: nat): real
    requires |window| > size
  {
    filter(window)[size]
  }

  datatype State = State(
    t1: int,               // time of the last sample
    flow: real,            // litres per minute
    temp: real,            // degrees Celsius
    tempBuffer: seq<int>,  // raw temperature window, oldest first
    flowBuffer: seq<int>)  // raw flow window, oldest first

  function Initial(): State
  {
    State(0, 0.0, 0.0, [], [])
  }

  /** What every state of the sensor satisfies: readings are not negative, and each window is empty or full. */
  predicate Valid(s: State)
  {
    && s.flow >= 0.0 && s.temp >= 0.0
    && (|s.tempBuffer| == 0 || |s.tempBuffer| == WindowLength(TEMP_BUFFER_SIZE))
    && (|s.flowBuffer| == 0 || |s.flowBuffer| == WindowLength(FLOW_BUFFER_SIZE))
  }

  predicate Due(s: State, timestamp: int)
  {
    timestamp - s.t1 > SAMPLE_FREQ
  }

  /** Whether the receiver supplies enough samples for a read of each channel. */
  predicate Enough(s: State, flowRaw: seq<int>, tempRaw: seq<int>)
  {
    |flowRaw| > Deficit(s.flowBuffer, FLOW_BUFFER_SIZE) && |tempRaw| > Deficit(s.tempBuffer, TEMP_BUFFER_SIZE)
  }

  /** The state one tick leaves, given the raw samples each channel's reads take. */
  function Ticked(s: State, tempFilter: Smoother, flowFilter: Smoother, timestamp: int,
                  flowRaw: seq<int>, tempRaw: seq<int>): State
    requires Valid(s) && Enough(s, flowRaw, tempRaw)
  {
    if Due(s, timestamp) then
      var fw := Window(s.flowBuffer, FLOW_BUFFER_SIZE, flowRaw);
      var tw := Window(s.tempBuffer, TEMP_BUFFER_SIZE, tempRaw);
      State(timestamp,
            Converted(FLOW_M_16, FLOW_C_16, CentreTap(flowFilter, fw, FLOW_BUFFER_SIZE)),
            Converted(TEMP_M_16, TEMP_C_16, CentreTap(tempFilter, tw, TEMP_BUFFER_SIZE)),
            tw, fw)
    else s
  }

  /** Successive steady-state reads, one new sample each. */
  function Slides(window: seq<int>, raws: seq<int>): seq<int>
    requires window != []
    decreases |raws|
  {
    if raws == [] then window else Slides(Slid(window, raws[0]), raws[1..])
  }

  // ---------------------------------------------------------------------------
  // Properties

  /**
   * A read from a buffer that is empty or full leaves a full window whose newest sample is the
   * last one taken: an empty buffer is filled first, a full one slides by exactly one sample.
   */
  lemma WindowShape(buffer: seq<int>, size: nat, samples: seq<int>)
    requires |buffer| <= WindowLength(size)
    requires |samples| > Deficit(buffer, size)
    ensures var w := Window(buffer, size, samples);
      && |w| == WindowLength(size)
      && w[|w| - 1] == samples[Deficit(buffer, size)]
      && w == (buffer + samples[..Deficit(buffer, size) + 1])[1..]
    ensures |buffer| == WindowLength(size) ==> Window(buffer, size, samples) == buffer[1..] + [samples[0]]
  {
    var d := Deficit(buffer, size);
    assert samples[..d + 1] == samples[..d] + [samples[d]];
    assert buffer + samples[..d + 1] == (buffer + samples[..d]) + [samples[d]];
  }

  /** A full window always holds the most recent samples, oldest first, however many reads pass. */
  lemma {:induction false} SlidesKeepMostRecent(window: seq<int>, raws: seq<int>)
    requires window != []
    decreases |raws|
    ensures Slides(window, raws) == (window + raws)[|raws|..]
    ensures |Slides(window, raws)| == |window|
  {
    if raws != [] {
      var next := Slid(window, raws[0]);
      SlidesKeepMostRecent(next, raws[1..]);
      assert next + raws[1..] == (window + raws)[1..];
    }
  }

  /** The windows hold 15 temperature and 31 flow samples, and the value used is the centre one. */
  lemma WindowSizes()
    ensures WindowLength(TEMP_BUFFER_SIZE) == 15 && WindowLength(FLOW_BUFFER_SIZE) == 31
    ensures (WindowLength(TEMP_BUFFER_SIZE) - 1) / 2 == TEMP_BUFFER_SIZE
    ensures (WindowLength(FLOW_BUFFER_SIZE) - 1) / 2 == FLOW_BUFFER_SIZE
  {
  }

  /**
   * A tick samples only when due, then restarts the timer and leaves full windows and readings
   * that are the floored conversions of the centre taps; it keeps the sensor valid.
   */
  lemma {:induction false} TickKeepsValid(s: State, tempFilter: Smoother, flowFilter: Smoother, timestamp: int,
                                          flowRaw: seq<int>, tempRaw: seq<int>)
    requires Valid(s) && Enough(s, flowRaw, tempRaw)
    ensures var r := Ticked(s, tempFilter, flowFilter, timestamp, flowRaw, tempRaw);
      && Valid(r)
      && (!Due(s, timestamp) ==> r == s)
      && (Due(s, timestamp) ==>
            && r.t1 == timestamp
            && |r.tempBuffer| == 15 && |r.flowBuffer| == 31
            && r.flow == Converted(FLOW_M_16, FLOW_C_16, flowFilter(r.flowBuffer)[FLOW_BUFFER_SIZE])
            && r.temp == Converted(TEMP_M_16, TEMP_C_16, tempFilter(r.tempBuffer)[TEMP_BUFFER_SIZE]))
  {
    if Due(s, timestamp) {
      WindowShape(s.flowBuffer, FLOW_BUFFER_SIZE, flowRaw);
      WindowShape(s.tempBuffer, TEMP_BUFFER_SIZE, tempRaw);
    }
  }

  // ---------------------------------------------------------------------------
  // The sensor object

  class Sensor {
    const flowCh: int
    const tempCh: int
    const tempFilter: Smoother
    const flowFilter: Smoother

    var t1: int
    var flow: real
    var temp: real
    var tempBuffer: seq<int>
    var flowBuffer: seq<int>

    function Model(): State
      reads this
    {
      State(t1, flow, temp, tempBuffer, flowBuffer)
    }

    constructor (flowCh: int, tempCh: int, tempFilter: Smoother, flowFilter: Smoother)
      ensures this.flowCh == flowCh && this.tempCh == tempCh
      ensures this.tempFilter == tempFilter && this.flowFilter == flowFilter
      ensures Model() == Initial()
    {
      this.flowCh := flowCh;
      this.tempCh := tempCh;
      this.tempFilter := tempFilter;
      this.flowFilter := flowFilter;
      t1 := 0;
      flow := 0.0;
      temp := 0.0;
      tempBuffer := [];
      flowBuffer := [];
    }

    /** Resetting the sensor does nothing: its windows and readings survive. */
    method Reset()
      ensures Model() == old(Model())
    {
    }

    /** The last temperature reading, in degrees Celsius. */
    function Temperature(): (t: real)
      reads this
      ensures t == temp
    {
      temp
    }

    /** The last flow reading, in litres per minute. */
    function FlowRate(): (f: real)
      reads this
      ensures f == flow
    {
      flow
    }

    /** Tops a buffer up from the receiver until it holds a full window; returns it and the samples used. */
    method FillBuffer(buffer: seq<int>, size: nat, samples: seq<int>) returns (filled: seq<int>, used: nat)
      requires |samples| >= Deficit(buffer, size)
      ensures used == Deficit(buffer, size)
      ensures filled == buffer + samples[..used]
      ensures |filled| >= WindowLength(size)
      ensures |buffer| <= WindowLength(size) ==> |filled| == WindowLength(size)
    {
      filled, used := buffer, 0;
      while |filled| < size * 2 + 1
        invariant used <= Deficit(buffer, size)
        invariant |filled| == |buffer| + used
        invariant filled == buffer + samples[..used]
        decreases size * 2 + 1 - |filled|
      {
        filled := filled + [samples[used]];
        used := used + 1;
      }
    }

    method ReadTemp(samples: seq<int>) returns (t: real)
      requires |samples| > Deficit(tempBuffer, TEMP_BUFFER_SIZE)
      modifies this
      ensures tempBuffer == Window(old(tempBuffer), TEMP_BUFFER_SIZE, samples)
      ensures t == Converted(TEMP_M_16, TEMP_C_16, CentreTap(tempFilter, tempBuffer, TEMP_BUFFER_SIZE))
      ensures Model() == old(Model()).(tempBuffer := tempBuffer)
    {
      var filled, used := FillBuffer(tempBuffer, TEMP_BUFFER_SIZE, samples);
      tempBuffer := filled;
      tempBuffer := tempBuffer[1..];
      var raw := samples[used];
      tempBuffer := tempBuffer + [raw];
      var filtered := tempFilter(tempBuffer);
      var rawFiltered := filtered[TEMP_BUFFER_SIZE];
      var v := (TEMP_M_16 * rawFiltered) + TEMP_C_16;
      t := if v > 0.0 then v else 0.0;
    }

    method ReadFlow(samples: seq<int>) returns (f: real)
      requires |samples| > Deficit(flowBuffer, FLOW_BUFFER_SIZE)
      modifies this
      ensures flowBuffer == Window(old(flowBuffer), FLOW_BUFFER_SIZE, samples)
      ensures f == Converted(FLOW_M_16, FLOW_C_16, CentreTap(flowFilter, flowBuffer, FLOW_BUFFER_SIZE))
      ensures Model() == old(Model()).(flowBuffer := flowBuffer)
    {
      var filled, used := FillBuffer(flowBuffer, FLOW_BUFFER_SIZE, samples);
      flowBuffer := filled;
      flowBuffer := flowBuffer[1..];
      var raw := samples[used];
      flowBuffer := flowBuffer + [raw];
      var filtered := flowFilter(flowBuffer);
      var rawFiltered := filtered[FLOW_BUFFER_SIZE];
      var v := (FLOW_M_16 * rawFiltered) + FLOW_C_16;
      f := if v > 0.0 then v else 0.0;
    }

    /** Samples both channels when due, given the raw values the receiver returns on each. */
    method Tick(timestamp: int, flowRaw: seq<int>, tempRaw: seq<int>)
      requires Valid(Model()) && Enough(Model(), flowRaw, tempRaw)
      modifies this
      ensures Model() == Ticked(old(Model()), tempFilter, flowFilter, timestamp, flowRaw, tempRaw)
      ensures Valid(Model())
    {
      ghost var s := Model();
      if timestamp - t1 > SAMPLE_FREQ {
        t1 := timestamp;
        flow := ReadFlow(flowRaw);
        temp := ReadTemp(tempRaw);
      }
      TickKeepsValid(s, tempFilter, flowFilter, timestamp, flowRaw, tempRaw);
    }
  }
}

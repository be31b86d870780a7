/**
 * The serial display gauge of one channel: a dial picture and three text fields
 * (volume, flow, temperature).  Setting a value only records it and marks it dirty;
 * a tick flushes the dirty fields to the display in two groups, each at its own rate.
 * The serial line is a shared object that records the commands sent on it, in order.
 */
module Gauges {

  /** Minimum time between two flushes of the volume and temperature fields, in nanoseconds. */
  const MODE_VOL_TEMP_REFRESH_FREQ: int := 100000000
  /** Minimum time between two flushes of the dial and flow fields, in nanoseconds. */
  const DIAL_FLOW_REFRESH_FREQ: int := 500000000

  const COUNT_DOWN: int := 0
  const COUNT_UP: int := 1

  const COLOR_RED: string := "RED"
  const COLOR_GREEN: string := "GREEN"

  /** The highest dial picture, shown for every flow at or above 15.5. */
  const DIAL_MAX: int := 31

  newtype byte = b: int | 0 <= b < 0x100

  /** The three bytes that end every command sent to the display. */
  const TERMINATOR: seq<byte> := [0xFF, 0xFF, 0xFF]

  datatype Option<T> = None | Some(value: T)

  /** How a text field renders its number: plain, or followed by a degrees-Celsius unit. */
  datatype TextStyle = Number | Celsius

  /** A display command, as a record; the rendering of numbers as text is not modelled. */
  datatype Command =
    | Literal(text: string)                         // sent verbatim
    | ForegroundColor(target: string, color: string) // <target>.pco=<color>
    | Picture(target: string, index: int)            // <target>.pic=<index>
    | Text(target: string, value: real, style: TextStyle) // <target>.txt="<value>"

  /** The display object names of one gauge. */
  datatype Ids = Ids(dial: string, vol: string, flow: string, temp: string)

  datatype State = State(
    mode: int, dial: int, vol: real, temp: real, flow: real,
    modeRefresh: bool, dialRefresh: bool, volRefresh: bool, tempRefresh: bool, flowRefresh: bool,
    t1: int,   // time of the last volume/temperature flush
    t2: int)   // time of the last dial/flow flush

  // ---------------------------------------------------------------------------
  // Framing

  /** The bytes sent for one command: its payload followed by the terminator. */
  function Frame(payload: seq<byte>): seq<byte>
  {
    payload + TERMINATOR
  }

  /** Recovers the payload of a single frame, if the bytes end with the terminator. */
  function Unframe(frame: seq<byte>): Option<seq<byte>>
  {
    if |frame| >= 3 && frame[|frame| - 3..] == TERMINATOR then Some(frame[..|frame| - 3]) else None
  }

  /** The bytes sent for a sequence of commands, one frame after another. */
  function Stream(payloads: seq<seq<byte>>): seq<byte>
    decreases |payloads|
  {
    if payloads == [] then [] else Frame(payloads[0]) + Stream(payloads[1..])
  }

  /** The position of the first 0xFF byte, or the length when there is none. */
  function FirstMark(s: seq<byte>): (i: nat)
    decreases |s|
    ensures i <= |s|
    ensures forall k :: 0 <= k < i ==> s[k] != 0xFF
    ensures i < |s| ==> s[i] == 0xFF
  {
    if s == [] then 0
    else if s[0] == 0xFF then 0
    else 1 + FirstMark(s[1..])
  }

  /** How the display splits a byte stream into command payloads, each ended by the first 0xFF 0xFF 0xFF. */
  function Split(s: seq<byte>): Option<seq<seq<byte>>>
    decreases |s|
  {
    if s == [] then Some([])
    else
      var i := FirstMark(s);
      if i + 3 <= |s| && s[i..i + 3] == TERMINATOR then
        match Split(s[i + 3..])
        case None => None
        case Some(rest) => Some([s[..i]] + rest)
      else None
  }

  /** Every frame is its payload followed by exactly three 0xFF bytes, and the payload can be recovered. */
  lemma FrameRoundTrip(payload: seq<byte>)
    ensures |Frame(payload)| == |payload| + 3
    ensures Frame(payload)[..|payload|] == payload
    ensures forall k :: |payload| <= k < |payload| + 3 ==> Frame(payload)[k] == 0xFF
    ensures Unframe(Frame(payload)) == Some(payload)
  {
    var f := Frame(payload);
    assert f[|f| - 3..] == TERMINATOR;
    assert f[..|f| - 3] == payload;
  }

  /** In a frame whose payload holds no 0xFF, the first 0xFF is the start of the terminator. */
  lemma FirstMarkOfFrame(payload: seq<byte>, rest: seq<byte>)
    requires forall k :: 0 <= k < |payload| ==> payload[k] != 0xFF
    ensures FirstMark(Frame(payload) + rest) == |payload|
  {
    var s := Frame(payload) + rest;
    assert s[|payload|] == 0xFF;
  }

  /** A stream of frames whose payloads hold no 0xFF splits back into exactly those payloads. */
  lemma {:induction false} SplitStream(payloads: seq<seq<byte>>)
    decreases |payloads|
    requires forall j, k :: 0 <= j < |payloads| && 0 <= k < |payloads[j]| ==> payloads[j][k] != 0xFF
    ensures Split(Stream(payloads)) == Some(payloads)
  {
    if payloads != [] {
      var p := payloads[0];
      var rest := Stream(payloads[1..]);
      var s := Stream(payloads);
      assert s == Frame(p) + rest;
      FirstMarkOfFrame(p, rest);
      assert s[|p|..|p| + 3] == TERMINATOR;
      assert s[..|p|] == p;
      assert s[|p| + 3..] == rest;
      SplitStream(payloads[1..]);
      assert [p] + payloads[1..] == payloads;
    }
  }

  // ---------------------------------------------------------------------------
  // Values and flushes

  function Initial(): State
  {
    State(COUNT_UP, 0, 0.0, 0.0, 0.0, true, true, true, true, true, 0, 0)
  }

  /** The effect of reset: every value back to its initial one and every field dirty; the timers are kept. */
  function Restarted(g: State): State
  {
    Initial().(t1 := g.t1, t2 := g.t2)
  }

  /** A negative value is shown as zero. */
  function NonNegative(v: real): (r: real)
    ensures r >= 0.0
    ensures v >= 0.0 ==> r == v
    ensures v < 0.0 ==> r == 0.0
  {
    if v < 0.0 then 0.0 else v
  }

  /** The dial picture for a flow: twice the flow rounded down, with everything above 30 shown as 31. */
  function DialOf(flow: real): int
  {
    var dial := (flow * 2.0).Floor;
    if dial > 30 then DIAL_MAX else dial
  }

  function WithMode(g: State, mode: int): State
  {
    g.(mode := mode, modeRefresh := true)
  }

  function WithVol(g: State, vol: real): State
  {
    g.(vol := NonNegative(vol), volRefresh := true)
  }

  function WithTemp(g: State, temp: real): State
  {
    g.(temp := NonNegative(temp), tempRefresh := true)
  }

  /** The flow is stored clamped, but the dial is computed from the argument as given. */
  function WithFlow(g: State, flow: real): State
  {
    var dial := DialOf(flow);
    var g1 := g.(flow := NonNegative(flow), flowRefresh := true);
    if dial != g.dial then g1.(dial := dial, dialRefresh := true) else g1
  }

  predicate VolTempDue(g: State, timestamp: int)
  {
    timestamp - g.t1 > MODE_VOL_TEMP_REFRESH_FREQ
  }

  predicate DialFlowDue(g: State, timestamp: int)
  {
    timestamp - g.t2 > DIAL_FLOW_REFRESH_FREQ
  }

  /** The colour of the volume text: red while counting down, green otherwise. */
  function VolumeColor(mode: int): string
  {
    if mode == COUNT_DOWN then COLOR_RED else COLOR_GREEN
  }

  function VolTempCommands(g: State, ids: Ids): seq<Command>
  {
    (if g.volRefresh then [ForegroundColor(ids.vol, VolumeColor(g.mode)), Text(ids.vol, g.vol, Number)] else [])
    + (if g.tempRefresh then [Text(ids.temp, g.temp, Celsius)] else [])
  }

  function DialFlowCommands(g: State, ids: Ids): seq<Command>
  {
    (if g.dialRefresh
     then [Literal("ref_stop"), Picture(ids.dial, g.dial), Literal("ref " + ids.flow), Literal("ref_star")]
     else [])
    + (if g.flowRefresh then [Text(ids.flow, g.flow, Number)] else [])
  }

  /** The commands one tick sends, in order. */
  function Output(g: State, ids: Ids, timestamp: int): seq<Command>
  {
    (if VolTempDue(g, timestamp) then VolTempCommands(g, ids) else [])
    + (if DialFlowDue(g, timestamp) then DialFlowCommands(g, ids) else [])
  }

  /** The state one tick leaves. */
  function Flushed(g: State, timestamp: int): State
  {
    var g1 := if VolTempDue(g, timestamp) then g.(t1 := timestamp, volRefresh := false, tempRefresh := false) else g;
    if DialFlowDue(g, timestamp) then g1.(t2 := timestamp, dialRefresh := false, flowRefresh := false) else g1
  }

  // ---------------------------------------------------------------------------
  // Properties

  /** The volume, temperature and flow setters show negative input as 0.0 and mark their field dirty. */
  lemma SettersClampAndMark(g: State, v: real)
    ensures WithVol(g, v).vol == (if v < 0.0 then 0.0 else v) && WithVol(g, v).volRefresh
    ensures WithTemp(g, v).temp == (if v < 0.0 then 0.0 else v) && WithTemp(g, v).tempRefresh
    ensures WithFlow(g, v).flow == (if v < 0.0 then 0.0 else v) && WithFlow(g, v).flowRefresh
    ensures WithVol(g, v).vol >= 0.0 && WithTemp(g, v).temp >= 0.0 && WithFlow(g, v).flow >= 0.0
  {
  }

  /**
   * The dial never exceeds 31; it is 31 exactly for a flow of 15.5 or more; between 0 and
   * 15.5 it is twice the flow rounded down; and a negative flow gives a negative dial.
   */
  lemma DialRange(flow: real)
    ensures DialOf(flow) <= DIAL_MAX
    ensures DialOf(flow) == DIAL_MAX <==> flow >= 15.5
    ensures 0.0 <= flow < 15.5 ==>
      0 <= DialOf(flow) <= 30 && DialOf(flow) as real <= flow * 2.0 < DialOf(flow) as real + 1.0
    ensures flow < 0.0 ==> DialOf(flow) < 0
  {
  }

  /** The flow setter always leaves the dial for the new flow, and marks the dial dirty only when it changed. */
  lemma FlowMovesDial(g: State, flow: real)
    ensures WithFlow(g, flow).dial == DialOf(flow)
    ensures WithFlow(g, flow).dialRefresh == (g.dialRefresh || DialOf(flow) != g.dial)
  {
  }

  /**
   * A tick flushes each group only when its interval has passed, then restarts that group's
   * timer and clears its dirty flags; values, mode and the mode flag are never touched.
   */
  lemma FlushGroups(g: State, timestamp: int)
    ensures var r := Flushed(g, timestamp);
      && (VolTempDue(g, timestamp) ==> r.t1 == timestamp && !r.volRefresh && !r.tempRefresh)
      && (!VolTempDue(g, timestamp) ==> r.t1 == g.t1 && r.volRefresh == g.volRefresh && r.tempRefresh == g.tempRefresh)
      && (DialFlowDue(g, timestamp) ==> r.t2 == timestamp && !r.dialRefresh && !r.flowRefresh)
      && (!DialFlowDue(g, timestamp) ==> r.t2 == g.t2 && r.dialRefresh == g.dialRefresh && r.flowRefresh == g.flowRefresh)
      && r.mode == g.mode && r.modeRefresh == g.modeRefresh && r.dial == g.dial
      && r.vol == g.vol && r.temp == g.temp && r.flow == g.flow
  {
  }

  /** A field that is not dirty produces no command, and a tick with nothing due sends nothing. */
  lemma CleanFieldsSendNothing(g: State, ids: Ids, timestamp: int)
    ensures !g.volRefresh ==> forall c :: c in Output(g, ids, timestamp) ==> !c.ForegroundColor?
    ensures !g.tempRefresh ==> forall c :: c in Output(g, ids, timestamp) ==> !(c.Text? && c.style == Celsius)
    ensures !g.dialRefresh ==> forall c :: c in Output(g, ids, timestamp) ==> !c.Picture? && !c.Literal?
    ensures !g.volRefresh && !g.flowRefresh ==> forall c :: c in Output(g, ids, timestamp) ==> !(c.Text? && c.style == Number)
    ensures !VolTempDue(g, timestamp) && !DialFlowDue(g, timestamp) ==> Output(g, ids, timestamp) == []
  {
  }

  /** Each number field is sent on its own flag: a clean volume field leaves only the flow text, and the reverse. */
  lemma CleanNumberFieldSendsNothing(g: State, ids: Ids, timestamp: int)
    ensures !g.volRefresh ==> forall c :: c in Output(g, ids, timestamp) && c.Text? && c.style == Number ==>
      c == Text(ids.flow, g.flow, Number)
    ensures !g.flowRefresh ==> forall c :: c in Output(g, ids, timestamp) && c.Text? && c.style == Number ==>
      c == Text(ids.vol, g.vol, Number)
  {
  }

  /** The volume text is written red exactly when the gauge counts down, and green otherwise. */
  lemma VolumeColorByMode(g: State, ids: Ids, timestamp: int)
    ensures VolumeColor(g.mode) == COLOR_RED <==> g.mode == COUNT_DOWN
    ensures forall c :: c in Output(g, ids, timestamp) && c.ForegroundColor? ==>
      c.target == ids.vol && c.color == (if g.mode == COUNT_DOWN then COLOR_RED else COLOR_GREEN)
  {
  }

  /** Reset restores the initial values and marks every field dirty, but keeps both timers. */
  lemma RestartKeepsTimers(g: State)
    ensures var r := Restarted(g);
      && r.mode == COUNT_UP && r.dial == 0 && r.vol == 0.0 && r.temp == 0.0 && r.flow == 0.0
      && r.modeRefresh && r.dialRefresh && r.volRefresh && r.tempRefresh && r.flowRefresh
      && r.t1 == g.t1 && r.t2 == g.t2
  {
  }

  // ---------------------------------------------------------------------------
  // The objects

  /** The serial line to the display, as the sequence of commands written to it. */
  class Uart {
    var sent: seq<Command>

    constructor ()
      ensures sent == []
    {
      sent := [];
    }
  }

  /** Sends one command on the line; on the wire it is the frame of its payload. */
  method WriteCmd(uart: Uart, cmd: Command)
    modifies uart
    ensures uart.sent == old(uart.sent) + [cmd]
  {
    uart.sent := uart.sent + [cmd];
  }

  class Gauge {
    const uart: Uart
    const ids: Ids

    var mode: int
    var dial: int
    var vol: real
    var temp: real
    var flow: real
    var modeRefresh: bool
    var dialRefresh: bool
    var volRefresh: bool
    var tempRefresh: bool
    var flowRefresh: bool
    var t1: int
    var t2: int

    function Model(): State
      reads this
    {
      State(mode, dial, vol, temp, flow, modeRefresh, dialRefresh, volRefresh, tempRefresh, flowRefresh, t1, t2)
    }

    /** Wakes the display: command echo off and full brightness. */
    constructor (uart: Uart, dialId: string, volId: string, flowId: string, tempId: string)
      modifies uart
      ensures this.uart == uart && ids == Ids(dialId, volId, flowId, tempId)
      ensures Model() == Initial()
      ensures uart.sent == old(uart.sent) + [Literal("bkcmd=0"), Literal("dim=100")]
    {
      this.uart := uart;
      ids := Ids(dialId, volId, flowId, tempId);
      new;
      WriteCmd(uart, Literal("bkcmd=0"));
      WriteCmd(uart, Literal("dim=100"));
      mode := COUNT_UP;
      dial := 0;
      vol := 0.0;
      temp := 0.0;
      flow := 0.0;
      modeRefresh, dialRefresh, volRefresh, tempRefresh, flowRefresh := true, true, true, true, true;
      t1, t2 := 0, 0;
    }

    method Reset()
      modifies this
      ensures Model() == Restarted(old(Model()))
    {
      mode := COUNT_UP;
      dial := 0;
      vol := 0.0;
      temp := 0.0;
      flow := 0.0;
      modeRefresh, dialRefresh, volRefresh, tempRefresh, flowRefresh := true, true, true, true, true;
    }

    method SetMode(mode: int)
      modifies this
      ensures Model() == WithMode(old(Model()), mode)
    {
      this.mode := mode;
      modeRefresh := true;
    }

    method SetVol(vol: real)
      modifies this
      ensures Model() == WithVol(old(Model()), vol)
    {
      if vol < 0.0 {
        this.vol := 0.0;
      } else {
        this.vol := vol;
      }
      volRefresh := true;
    }

    method SetTemp(temp: real)
      modifies this
      ensures Model() == WithTemp(old(Model()), temp)
    {
      if temp < 0.0 {
        this.temp := 0.0;
      } else {
        this.temp := temp;
      }
      tempRefresh := true;
    }

    method SetFlow(flow: real)
      modifies this
      ensures Model() == WithFlow(old(Model()), flow)
    {
      if flow < 0.0 {
        this.flow := 0.0;
      } else {
        this.flow := flow;
      }
      flowRefresh := true;
      var d := (flow * 2.0).Floor;
      if d > 30 {
        d := DIAL_MAX;
      }
      if d != dial {
        dial := d;
        dialRefresh := true;
      }
    }

    method Tick(timestamp: int)
      modifies this, uart
      ensures Model() == Flushed(old(Model()), timestamp)
      ensures uart.sent == old(uart.sent) + Output(old(Model()), ids, timestamp)
    {
      FlushVolTemp(timestamp);
      FlushDialFlow(timestamp);
    }

    /** The first half of a tick: the volume and temperature group. */
    method FlushVolTemp(timestamp: int)
      modifies this, uart
      ensures Model() == if VolTempDue(old(Model()), timestamp)
        then old(Model()).(t1 := timestamp, volRefresh := false, tempRefresh := false) else old(Model())
      ensures uart.sent == old(uart.sent)
        + (if VolTempDue(old(Model()), timestamp) then VolTempCommands(old(Model()), ids) else [])
    {
      if timestamp - t1 > MODE_VOL_TEMP_REFRESH_FREQ {
        t1 := timestamp;
        if volRefresh {
          var color := COLOR_GREEN;
          if mode == COUNT_DOWN {
            color := COLOR_RED;
          }
          WriteCmd(uart, ForegroundColor(ids.vol, color));
          WriteCmd(uart, Text(ids.vol, vol, Number));
          volRefresh := false;
        }
        if tempRefresh {
          WriteCmd(uart, Text(ids.temp, temp, Celsius));
          tempRefresh := false;
        }
      }
    }

    /** The second half of a tick: the dial and flow group. */
    method FlushDialFlow(timestamp: int)
      modifies this, uart
      ensures Model() == if DialFlowDue(old(Model()), timestamp)
        then old(Model()).(t2 := timestamp, dialRefresh := false, flowRefresh := false) else old(Model())
      ensures uart.sent == old(uart.sent)
        + (if DialFlowDue(old(Model()), timestamp) then DialFlowCommands(old(Model()), ids) else [])
    {
      if timestamp - t2 > DIAL_FLOW_REFRESH_FREQ {
        t2 := timestamp;
        if dialRefresh {
          // The flow text overlaps the dial: pause redrawing around the dial change
          WriteCmd(uart, Literal("ref_stop"));
          WriteCmd(uart, Picture(ids.dial, dial));
          WriteCmd(uart, Literal("ref " + ids.flow));
          WriteCmd(uart, Literal("ref_star"));
          dialRefresh := false;
        }
        if flowRefresh {
          WriteCmd(uart, Text(ids.flow, flow, Number));
          flowRefresh := false;
        }
      }
    }
  }
}

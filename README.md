# Dispensing channel controller — a Dafny model

This project models the per-channel control logic of a two-channel liquid dispenser
running on a CircuitPython board. Each channel has five parts:

- a **valve**: a relay on a digital output;
- a rotary **encoder** with a push button and an RGB LED, on I2C;
- a **sensor**: a 4-20 mA current receiver giving flow and temperature, smoothed by a
  sliding-window filter;
- a serial display **gauge**;
- a **controller** that ties them together.

Every controller tick does these steps in order:

1. Poll the encoder.
2. Read: the valve flag, the sensor readings and the encoder latches.
3. Update:
   - set the remaining volume outright after a manual change, otherwise deduct the flow
     integrated over the elapsed time;
   - toggle the valve on a push;
   - shut off at zero;
   - reset everything on a double push.
4. Write: the valve, the encoder LED and value, and the gauge fields.
5. Tick the gauge and the sensor.

The source updates all of these in place, so each part is a Dafny `class` with the same
fields. The encoder, gauge, smoothed sensor and controller each have a `Model()` function
that returns a snapshot of their fields as a datatype. The valve (one relay level), the raw
sensor (a timer and two readings) and the serial line (the commands sent) are specified on
their fields directly. Each method on a snapshot is specified by a pure transition function
(`Encoders.Polled`, `Gauges.Flushed`, `Sensors.Ticked`, `Controllers.Updated`, ...).
The properties are lemmas about those functions. `Controllers.Controller.Tick` states the
whole new state of the controller and its four collaborators as a composition of those
functions.

Modules, one per source file: `Valves` (valve.py), `Encoders` (encoder.py), `Gauges`
(gauge.py), `Sensors` (sensor.py), `RawSensors` (raw_sensor.py), `Controllers`
(controller.py).

Modelling choices:

- Volumes, flows, temperatures and conversion constants are `real`. Timestamps are `int`
  nanoseconds.
- Hardware is given as inputs:
  - the encoder's I2C device is three inputs to `Encoder.Tick`: the status register, the
    GPIO 1 level and the device's counter value;
  - the current receiver is the raw samples each sensor read takes;
  - the UART is a shared `Uart` object that records the command records written to it.
- The smoothing filter is a `Smoother`: any total function that maps a window to a window
  of the same length. Nothing else is assumed about it.
- The controller is wired to the smoothed sensor (sensor.py), as the main program does.
  The raw sensor (raw_sensor.py) is modelled separately.
- The first tick is not special-cased: the previous timestamp starts at 0, as in
  controller.py:32. So the first tick after start-up deducts the first flow reading over
  the whole time since the clock's origin; `Controllers.FirstTickCountsFromOrigin` states
  this.

## Model

| member | source | states |
|---|---|---|
| `Valves.Valve.constructor` | valve.py:33-36 | The pin is fixed and the relay output starts low, so the valve starts closed. |
| `Valves.Valve.Open` | valve.py:41-42 | Afterwards `IsOpen()` is true. Only the relay level may change; the pin is a constant. |
| `Valves.Valve.Close` | valve.py:44-45 | Afterwards `IsOpen()` is false. Only the relay level may change. |
| `Valves.Valve.IsOpen` | valve.py:47-49 | The valve reads as open exactly when the relay output is high. |
| `Valves.Valve.Reset` | valve.py:38-39 | Same effect as `Close`: the valve ends closed. |
| `Encoders.Clamp` | encoder.py:86-94 | The stored value always lies in [0, 80]. An in-range input is kept as is. An out-of-range input is replaced by the nearer bound, never rejected. |
| `Encoders.WriteClamps` | encoder.py:86-94 | Writing `value` stores min(max(v, 0), 80) and always marks the value for pushing to the device. |
| `Encoders.RestartClears` | encoder.py:71-80 | Reset sets value 0, timer 0 and the push flag. It clears all three latches and both edge flags. It leaves the device's LED and counter alone, and it is idempotent. |
| `Encoders.PollNotDue` | encoder.py:135 | A tick changes nothing unless more than `REFRESH_FREQ` ns have passed since the last poll that ran. |
| `Encoders.PollValue` | encoder.py:135-147 | A due tick sets the timer to the timestamp and leaves no pending push. With status bit 3 or 4, the value is taken from the device and the change latch is set. Otherwise a pending value is pushed to the device. |
| `Encoders.PollDoubleClick` | encoder.py:150-151 | After a due tick the double-push latch is its old value or status bit 2. |
| `Encoders.PollButton` | encoder.py:154-160 | A due tick sets the push latch only if it sees gp1 == 0 and the previous poll saw the button up. It records which level it saw. |
| `Encoders.HeldButtonPressesOnce` | encoder.py:154-160 | Holding the button down over any number of polls registers one press if the button was up before, and none otherwise. |
| `Encoders.PressesNeedReleases` | encoder.py:154-160 | A press can only follow a poll that saw the button up, so presses never outnumber those polls plus the initial up state. |
| `Encoders.UpDownUpIsOnePress` | encoder.py:154-160 | An up, down, up cycle registers exactly one press, whatever the initial state. |
| `Encoders.PollsArePresses` | encoder.py:154-160 | Over any sequence of due polls whose push latch is read after each, the driver latches exactly the presses `Presses` counts from its own up flag. So `HeldButtonPressesOnce`, `PressesNeedReleases` and `UpDownUpIsOnePress` hold of the driver itself. |
| `Encoders.LedColorsDistinct` | encoder.py:114-130 | Blue (valve open) and green (closed) differ. Red differs from green and amber. Every unknown colour code shows blue. Only amber has green intensity 0x15. |
| `Encoders.Encoder.constructor` | encoder.py:60-69 | Timer 0, value 0, the push flag set, every latch and edge flag clear (`_button_up` starts false), device counter 0, LED off. |
| `Encoders.Encoder.Reset` | encoder.py:71-80 | The new state is `Restarted` of the old one. |
| `Encoders.Encoder.Value` | encoder.py:82-84 | Returns the held counter value: the last one written (clamped) or the last one taken from the device. |
| `Encoders.Encoder.SetValue` | encoder.py:86-94 | The new state is the old one with the clamped value and the push flag set. |
| `Encoders.Encoder.Button` | encoder.py:102-106 | Returns the push latch and leaves it false; nothing else changes. So a second read right after returns false. |
| `Encoders.Encoder.DblClick` | encoder.py:96-100 | Returns the double-push latch and leaves it false; nothing else changes. |
| `Encoders.Encoder.Change` | encoder.py:108-112 | Returns the change latch and leaves it false; nothing else changes. |
| `Encoders.Encoder.LedColor` | encoder.py:114-130 | Only the LED registers change, to the colour's RGB. |
| `Encoders.Encoder.Tick` | encoder.py:133-160 | The new state is `Polled` of the old one and the device inputs. |
| `Gauges.FrameRoundTrip` | gauge.py:43-48 | A frame is the command bytes followed by exactly three 0xFF bytes, and the command can be recovered from it. |
| `Gauges.SplitStream` | gauge.py:43-48 | A stream of frames whose commands contain no 0xFF byte splits, at each first 0xFF 0xFF 0xFF, back into exactly those commands in order. |
| `Gauges.SettersClampAndMark` | gauge.py:116-146 | The vol, temp and flow setters store 0.0 for negative input and the input otherwise. Each marks its own field dirty. |
| `Gauges.DialRange` | gauge.py:147-149 | The dial never exceeds 31, and it is 31 exactly when flow >= 15.5. For 0 <= flow < 15.5 it is floor(2·flow), in [0, 30]. A negative flow gives a negative dial. |
| `Gauges.FlowMovesDial` | gauge.py:147-152 | After the flow setter the dial is the new flow's dial. The dial is marked dirty only if it changed (or was already dirty). |
| `Gauges.FlushGroups` | gauge.py:154-182 | Each group flushes only when its interval has passed. Then its timer is set to the timestamp and its two flags are cleared. Otherwise they are unchanged. Values, mode and `_mode_refresh` are never touched. |
| `Gauges.CleanFieldsSendNothing` | gauge.py:159-180 | A clean volume field sends no colour, a clean temperature field no Celsius text, and a clean dial no picture or refresh commands. A tick with neither group due sends nothing. |
| `Gauges.CleanNumberFieldSendsNothing` | gauge.py:159-181 | Each number field is sent on its own flag: with the volume field clean the only number text sent is the flow's, and with the flow field clean the only one is the volume's. |
| `Gauges.VolumeColorByMode` | gauge.py:160-163 | The volume colour is RED exactly when mode is COUNT_DOWN, otherwise GREEN. It is always sent to the volume field. |
| `Gauges.RestartKeepsTimers` | gauge.py:89-101 | Reset restores mode COUNT_UP, dial 0 and all values 0.0. It sets all five flags and keeps both timers. |
| `Gauges.WriteCmd` | gauge.py:43-48 | Appends exactly one command to the line, after everything sent before. |
| `Gauges.Gauge.constructor` | gauge.py:64-87 | Sends `bkcmd=0` then `dim=100`. Starts in the initial state: every field dirty, timers 0. |
| `Gauges.Gauge.Reset` | gauge.py:89-101 | The new state is `Restarted` of the old one. |
| `Gauges.Gauge.SetMode` | gauge.py:107-110 | Stores the mode and sets the mode flag. |
| `Gauges.Gauge.SetVol` | gauge.py:116-122 | The new state is `WithVol` of the old one. |
| `Gauges.Gauge.SetTemp` | gauge.py:128-134 | The new state is `WithTemp` of the old one. |
| `Gauges.Gauge.SetFlow` | gauge.py:140-152 | The new state is `WithFlow` of the old one: the flow is clamped, and the dial comes from the raw argument. |
| `Gauges.Gauge.Tick` | gauge.py:154-182 | The new state is `Flushed` of the old one. Exactly `Output` of the old state is appended to the line. |
| `Gauges.Gauge.FlushVolTemp` | gauge.py:157-168 | The volume/temperature half of a tick, with its state change and commands. |
| `Gauges.Gauge.FlushDialFlow` | gauge.py:171-182 | The dial/flow half of a tick, with its state change and commands (ref_stop, picture, ref, ref_star, then flow). |
| `Sensors.Converted` | sensor.py:161-162 | The reading is never negative. It is positive exactly when m·x + c is, and then it equals m·x + c. |
| `Sensors.WindowShape` | sensor.py:152-158 | Before a read, an empty buffer is filled to 2·size+1 samples. The read drops the oldest sample and appends the newest. The window stays 2·size+1 long, oldest first; a full window slides by exactly one. |
| `Sensors.SlidesKeepMostRecent` | sensor.py:171-173 | Over any number of steady reads the window holds the most recent 2·size+1 samples, oldest first. |
| `Sensors.WindowSizes` | sensor.py:107-108 | Windows hold 15 temperature and 31 flow samples. Index `size` is their centre tap. |
| `Sensors.TickKeepsValid` | sensor.py:134-177 | A tick samples only when due, then sets the timer. It leaves full windows and readings equal to the floored conversion of the smoother's centre tap. Readings stay >= 0, and a tick that is not due changes nothing. |
| `Sensors.Sensor.constructor` | sensor.py:115-129 | Flow and temperature start at 0 with empty buffers. |
| `Sensors.Sensor.Reset` | sensor.py:131-132 | Reset changes nothing. |
| `Sensors.Sensor.Temperature` | sensor.py:140-142 | Returns the last temperature reading, which `Sensors.TickKeepsValid` keeps >= 0. |
| `Sensors.Sensor.FlowRate` | sensor.py:144-146 | Returns the last flow reading, which `Sensors.TickKeepsValid` keeps >= 0. |
| `Sensors.Sensor.FillBuffer` | sensor.py:179-185 | Appends exactly as many receiver samples as the buffer lacks, in order, until it holds 2·size+1. |
| `Sensors.Sensor.ReadTemp` | sensor.py:148-162 | The temperature window becomes `Window` of the old one. The result is TEMP_M_16 · centre tap + TEMP_C_16, floored at 0. |
| `Sensors.Sensor.ReadFlow` | sensor.py:164-177 | The flow window becomes `Window` of the old one. The result is FLOW_M_16 · centre tap + FLOW_C_16, floored at 0. |
| `Sensors.Sensor.Tick` | sensor.py:134-138 | The new state is `Ticked` of the old one, and the sensor stays valid. |
| `RawSensors.TempOf` | raw_sensor.py:155-160 | The temperature is TEMP_M·raw + TEMP_C when that is > 0, else 0, so it is always >= 0. |
| `RawSensors.FlowOf` | raw_sensor.py:162-168 | The flow is FLOW_M·raw + FLOW_C when that exceeds 1, else 0, so it is either 0 or > 1. |
| `RawSensors.FlowCalibration` | raw_sensor.py:54-55 | With the 12-bit calibration, a 4 mA raw reading gives zero flow and zero temperature. A 20 mA reading gives about 15 litres per minute. |
| `RawSensors.Sensor.constructor` | raw_sensor.py:128-136 | Flow and temperature start at 0, so the sensor starts valid: temperature >= 0 and flow either 0 or above 1. |
| `RawSensors.Sensor.Temperature` | raw_sensor.py:147-149 | Returns the last temperature reading; in a valid sensor it is >= 0. |
| `RawSensors.Sensor.FlowRate` | raw_sensor.py:151-153 | Returns the last flow reading; in a valid sensor it is 0 or above 1, never a small positive flow. |
| `RawSensors.Sensor.Reset` | raw_sensor.py:138-139 | Reset leaves all state unchanged. |
| `RawSensors.Sensor.Tick` | raw_sensor.py:141-145 | Samples only when more than SAMPLE_FREQ ns have passed, then sets the timer. Otherwise flow and temperature are unchanged. The sensor stays valid. |
| `Controllers.Updated` | controller.py:116-146 | After the update the volume is >= 0, and the valve flag is set only while volume remains. |
| `Controllers.ChangeIsAbsolute` | controller.py:119-120 | A change latch sets the volume to the encoder value itself, not a delta, and no flow is deducted. A non-positive value shuts off. |
| `Controllers.IntegratesFlow` | controller.py:122-126 | Without a change, the volume drops by ((flow + prev_flow)/120)·(timestamp − prev_timestamp)·1e-9, stopping at 0. |
| `Controllers.DispensedNonNegative` | controller.py:123-125 | With non-negative flows and time running forward, the deduction is non-negative. |
| `Controllers.VolumeNeverGrows` | controller.py:119-142 | Without a change, with non-negative flows and time running forward, one update never increases the volume. |
| `Controllers.ShutoffAtZero` | controller.py:129-142 | Whenever the volume reaches <= 0, the update leaves volume 0, encoder value 0 and the valve closed. This holds even if a push toggled the valve open in the same tick. |
| `Controllers.ButtonToggles` | controller.py:129-130 | Unless the tick ends in a shutoff or reset, a push flips the valve flag exactly once and no push keeps it. |
| `Controllers.DoubleClickResets` | controller.py:144-146 | A double push makes the update equal to reset: volume, flows and temperature 0, valve closed, latches clear, whatever else happened. Reset is idempotent. |
| `Controllers.ReadShiftsFlow` | controller.py:100-114 | The read moves the last flow into the previous flow before taking the new flow, and takes the valve flag and temperature as read. |
| `Controllers.FirstTickCountsFromOrigin` | controller.py:32 | The first tick deducts the first flow reading over the whole time since timestamp 0, because the previous timestamp starts at 0. |
| `Controllers.RunNeverRefills` | controller.py:116-146 | Over any run of ticks without a manual change, the remaining volume stays >= 0 and never increases, resets included. This assumes non-negative flows and non-decreasing timestamps. |
| `Controllers.ShutoffIsSticky` | controller.py:136-142 | Once volume is 0 and the valve closed, they stay so over any run without a manual change, whatever pushes, double pushes or flows occur. |
| `Controllers.SteadyFlowDispenses` | controller.py:122-126 | At a constant flow, n one-second ticks dispense n·flow/60 litres and leave the valve flag unchanged. |
| `Controllers.TenSecondsAtSixLitres` | controller.py:122-126 | From 10 L at 6 L/min, ten one-second ticks leave exactly 9 L. |
| `Controllers.Controller.constructor` | controller.py:30-49 | Previous timestamp 0, valve flag false, all readings, volume and latches zero. The four collaborators are the ones given. |
| `Controllers.Controller.Reset` | controller.py:51-69 | The own state becomes `Cleared` of the old one. The valve ends closed, the encoder and gauge are reset, and the sensor is untouched. |
| `Controllers.Controller.Volume` | controller.py:75-77 | Returns the remaining volume. |
| `Controllers.Controller.SetVolume` | controller.py:79-82 | Sets the volume and the held encoder value to the same value; nothing else changes. |
| `Controllers.Controller.ReadState` | controller.py:100-114 | The own state becomes `Read` of the valve flag, the sensor readings and the encoder latches and value. All three encoder latches end cleared. |
| `Controllers.Controller.UpdateState` | controller.py:116-146 | The own state becomes `Updated` of the old one. On a double push the valve, encoder and gauge are reset; otherwise they are untouched. |
| `Controllers.Controller.WriteState` | controller.py:148-164 | The valve is open iff the flag is, and the LED is blue iff open, else green. The encoder value gets the volume (clamped). The gauge gets volume, flow and temperature. |
| `Controllers.Controller.Tick` | controller.py:84-98 | The own state becomes `Step` of the old one: read, update, then previous timestamp := timestamp. Volume is >= 0 and the valve is open only while volume remains. The encoder, gauge, display line and sensor end in their stated composed states. |

## Left out

- The main program's hardware setup, its polling loop on the monotonic clock, and its
  shutdown cleanup are not modelled: they are I/O orchestration.
- Non-volatile persistence is not modelled: the byte layout of two IEEE-754 32-bit floats
  and its catch-all error handling. Its policy is only that any failure to load gives
  (0, 0) and any failure to save is dropped.
- The smoothing filter's internals are not modelled. It is an arbitrary length-preserving
  function on the window.
- The mock sensor (random numbers and floating-point maths) is not modelled.
- The I2C, UART and GPIO drivers are given as inputs or as recorded outputs:
  - the encoder device's own configuration at construction is not modelled;
  - the current receiver's channel selection is not modelled.
- Text rendering of numbers on the gauge ("{:05.2f}", the degree sign) and the 10 ms
  sleeps are not modelled. Commands are records, so the serial line records commands, not
  bytes. The three-0xFF framing of `_write_cmd` is stated only for byte payloads
  (`Gauges.Frame`, `Gauges.Split`), and no method sends bytes through it.
- Logging output is not modelled.
- Binary floating-point rounding is not modelled: arithmetic is on exact reals, and
  `pow(10, -9)` is exactly 1/1000000000.
- `Sensors.Sensor.ReadTemp`: `ReadTemp` and `ReadFlow` require that the receiver supplies
  enough samples to fill the window and take one more. The hardware always returns a
  reading, so this only states where the samples come from.
- `Controllers.Controller.Tick`: `Tick` requires the sensor to be in a valid state. Its
  constructor establishes this and its `Tick` keeps it.
- `RawSensors.Sensor.Tick`: `Tick` requires the sensor to be valid. Its constructor
  establishes this and `Tick` keeps it, so every reachable state meets it.

/**
 * The unsmoothed variant of the flow and temperature sensor: each sample converts a
 * single raw receiver reading linearly, with the 12-bit calibration.  The receiver is
 * outside the model: a tick is given the raw values it returns on each channel.
 */
module RawSensors {

  /** Minimum time between two samples, in nanoseconds. */
  const SAMPLE_FREQ: int := 100000

  /** Calibrations of a 16-bit and of a 12-bit raw reading. */
  const TEMP_M_16: real := 0.006412563919
  const FLOW_M_16: real := 0.0006027810084
  const TEMP_C_16: real := -62.5000000055
  const FLOW_C_16: real := -2.6250000009

  const TEMP_M_12: real := 0.1026480127
  const FLOW_M_12: real := 0.009648913191
  const TEMP_C_12: real := -62.5000000617
  const FLOW_C_12: real := -2.6250000007

  /** The receiver samples at 12 bits, so the 12-bit calibration is in use. */
  const TEMP_M: real := TEMP_M_12
  const FLOW_M: real := FLOW_M_12
  const TEMP_C: real := TEMP_C_12
  const FLOW_C: real := FLOW_C_12

  /** Temperature in degrees Celsius from a raw reading; anything not above zero reads as zero. */
  function TempOf(raw: int): (t: real)
    ensures t >= 0.0
    ensures t > 0.0 <==> TEMP_M * raw as real + TEMP_C > 0.0
    ensures t > 0.0 ==> t == TEMP_M * raw as real + TEMP_C
  {
    var temp := (TEMP_M * raw as real) + TEMP_C;
    if temp > 0.0 then temp else 0.0
  }

  /** Flow in litres per minute from a raw reading; anything up to 1 reads as zero. */
  function FlowOf(raw: int): (f: real)
    ensures f == 0.0 || f > 1.0
    ensures f > 1.0 <==> FLOW_M * raw as real + FLOW_C > 1.0
    ensures f > 1.0 ==> f == FLOW_M * raw as real + FLOW_C
  {
    var flow := (FLOW_M * raw as real) + FLOW_C;
    if flow > 1.0 then flow else 0.0
  }

  /** Raw readings below the 4 mA level read as zero flow; the full 20 mA scale reads about 15 litres per minute. */
  lemma FlowCalibration()
    ensures FlowOf(365) == 0.0
    ensures 14.99 < FlowOf(1827) < 15.01
    ensures TempOf(365) == 0.0
  {
  }

  class Sensor {
    const flowCh: int
    const tempCh: int

    var t1: int
    var flow: real
    var temp: real

    constructor (flowCh: int, tempCh: int)
      ensures this.flowCh == flowCh && this.tempCh == tempCh
      ensures t1 == 0 && flow == 0.0 && temp == 0.0
      ensures Valid()
    {
      this.flowCh := flowCh;
      this.tempCh := tempCh;
      t1 := 0;
      flow := 0.0;
      temp := 0.0;
    }

    /** What every state satisfies: the temperature is never negative, and the flow is 0 or above 1. */
    predicate Valid()
      reads this
    {
      temp >= 0.0 && (flow == 0.0 || flow > 1.0)
    }

    /** Resetting the sensor does nothing. */
    method Reset()
      ensures t1 == old(t1) && flow == old(flow) && temp == old(temp)
    {
    }

    /** The last temperature reading, in degrees Celsius. */
    function Temperature(): (t: real)
      reads this
      ensures t == temp
      ensures Valid() ==> t >= 0.0
    {
      temp
    }

    /** The last flow reading, in litres per minute; readings up to 1 show as 0. */
    function FlowRate(): (f: real)
      reads this
      ensures f == flow
      ensures Valid() ==> f == 0.0 || f > 1.0
    {
      flow
    }

    /** Samples both channels when due, given one raw reading of each. */
    method Tick(timestamp: int, rawFlow: int, rawTemp: int)
      requires Valid()
      modifies this
      ensures timestamp - old(t1) > SAMPLE_FREQ ==>
        t1 == timestamp && flow == FlowOf(rawFlow) && temp == TempOf(rawTemp)
      ensures timestamp - old(t1) <= SAMPLE_FREQ ==>
        t1 == old(t1) && flow == old(flow) && temp == old(temp)
      ensures Valid()
    {
      if timestamp - t1 > SAMPLE_FREQ {
        t1 := timestamp;
        flow := FlowOf(rawFlow);
        temp := TempOf(rawTemp);
      }
    }
  }
}

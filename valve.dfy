/** A normally-closed dispensing valve driven by one digital output pin. */
module Valves {

  class Valve {
    /** The board pin the relay is wired to; fixed at construction. */
    const pin: int
    /** The level driven on the relay output: true energises the relay and opens the valve. */
    var relay: bool

    /** Configures the pin as an output, which drives it low. */
    constructor (pin: int)
      ensures this.pin == pin && !relay
    {
      this.pin := pin;
      relay := false;
    }

    /** Whether the valve is open, read back from the output level. */
    function IsOpen(): (r: bool)
      reads this
      ensures r <==> relay
    {
      relay
    }

    method Open()
      modifies this
      ensures IsOpen()
    {
      relay := true;
    }

    method Close()
      modifies this
      ensures !IsOpen()
    {
      relay := false;
    }

    /** Returns the valve to its safe state, which is closed. */
    method Reset()
      modifies this
      ensures !IsOpen()
    {
      Close();
    }
  }
}

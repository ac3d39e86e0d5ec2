/** The development stand-in for one GPIO output pin. */
module MockGpioPin {
  import opened Constants

  class MockGpio {
    /** The GPIO pin number and its direction never change after construction. */
    const pin: int
    const direction: string
    /** The level last written to the pin. */
    var value: int

    /** A fresh pin reads HIGH, which leaves its relay OFF. */
    constructor(pin: int, direction: string)
      ensures this.pin == pin && this.direction == direction
      ensures ReadSync() == RELAY_OFF
    {
      this.pin := pin;
      this.direction := direction;
      value := 1;
    }

    /** Drives the pin to `v`; writing is not cumulative, so a repeated write changes nothing more. */
    method WriteSync(v: int)
      modifies this
      ensures ReadSync() == v
    {
      value := v;
    }

    /** The pin reads back the level most recently written (HIGH if none was). */
    function ReadSync(): int
      reads this
    {
      value
    }
  }
}

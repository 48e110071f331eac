/** The robot's digital pins, seen from the drivers: every mode change, read
    and write is appended to a log, and the level a read returns comes from an
    oracle that may depend on everything logged before. */
module Gpio {

  datatype PinValue = Low | High {
    /** PinValue's `!`: the other level. */
    function Not(): PinValue {
      if this == Low then High else Low
    }

    /** The explicit `(int)` conversion: Low is 0 and High is 1. */
    function ToInt(): (n: int)
      ensures n == 0 || n == 1
      ensures n == 1 <==> this == High
    {
      if this == High then 1 else 0
    }
  }

  datatype PinMode = Input | Output

  datatype PinEvent =
    | SetMode(pin: int, mode: PinMode)
    | ReadPin(pin: int, value: PinValue)
    | WritePin(pin: int, value: PinValue)

  /** level(history, pin) is what `pin` reads after `history`. */
  type Levels = (seq<PinEvent>, int) -> PinValue

  /** The log entries of writing `values` to `pin`, in order. */
  function WritesOf(pin: int, values: seq<PinValue>): seq<PinEvent>
  {
    seq(|values|, k requires 0 <= k < |values| => WritePin(pin, values[k]))
  }

  class Board {
    const level: Levels
    var log: seq<PinEvent>

    constructor (level: Levels)
      ensures this.level == level && log == []
    {
      this.level := level;
      log := [];
    }

    method SetDigitalPinMode(pin: int, mode: PinMode)
      modifies this
      ensures log == old(log) + [SetMode(pin, mode)]
    {
      log := log + [SetMode(pin, mode)];
    }

    method ReadDigitalPin(pin: int) returns (v: PinValue)
      modifies this
      ensures v == level(old(log), pin)
      ensures log == old(log) + [ReadPin(pin, v)]
    {
      v := level(log, pin);
      log := log + [ReadPin(pin, v)];
    }

    method WriteDigitalPin(pin: int, v: PinValue)
      modifies this
      ensures log == old(log) + [WritePin(pin, v)]
    {
      log := log + [WritePin(pin, v)];
    }
  }
}

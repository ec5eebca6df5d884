/**
 * The part of the GPIO controller library the module relies on: which pins are
 * held open, and in which mode. The library's own behaviour on misuse (opening
 * a pin twice, closing a pin that is not open) is not known here, so those
 * cases are excluded by preconditions instead of being given invented results.
 *
 * Every open and close is also recorded, in the order the calls happen, in a
 * ghost journal that the controller shares with its caller.
 */
module Controller {
  import opened Gpio
  import opened Reconfiguration

  class GpioController {
    /** The open pins of this controller, each with the mode it was opened in. */
    var openPins: map<int, PinMode>
    /** Where each open and close is recorded as it happens. */
    ghost const journal: Journal

    /** A fresh controller holds no pin. */
    constructor (ghost journal: Journal)
      ensures openPins == map[]
      ensures this.journal == journal
    {
      openPins := map[];
      this.journal := journal;
    }

    /** Claims `pin` in `mode`; every other pin keeps its state. */
    method OpenPin(pin: int, mode: PinMode)
      requires pin !in openPins
      modifies this, journal
      ensures openPins == old(openPins)[pin := mode]
      ensures pin in openPins && openPins[pin] == mode
      ensures journal.effects == old(journal.effects) + [PinOpened(pin, mode)]
    {
      openPins := openPins[pin := mode];
      journal.effects := journal.effects + [PinOpened(pin, mode)];
    }

    /** Releases `pin`; every other pin keeps its state. */
    method ClosePin(pin: int)
      requires pin in openPins
      modifies this, journal
      ensures openPins == old(openPins) - {pin}
      ensures pin !in openPins
      ensures journal.effects == old(journal.effects) + [PinClosed(pin)]
    {
      openPins := openPins - {pin};
      journal.effects := journal.effects + [PinClosed(pin)];
    }
  }
}

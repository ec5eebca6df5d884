/**
 * The pin modes of the GPIO controller library, as far as the module uses them.
 */
module Gpio {

  /** The two modes the module opens pins in. */
  datatype PinMode = Input | Output
}

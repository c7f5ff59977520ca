/**
 * The pieces of the hardware-abstraction contract that both output drivers
 * share: optional values, results carrying a value or an error, and the
 * capabilities a driver can be asked for.
 */
module Hal {

  /** An optional value; `None` stands for Go's nil error. */
  datatype Option<+T> = None | Some(value: T)

  /** A value or an error, for Go's `(T, error)` returns. */
  datatype Result<+T, +E> = Ok(value: T) | Err(error: E)

  /** The capabilities a driver may be asked to enumerate pins for. */
  datatype Capability = DigitalInput | DigitalOutput | PWM | AnalogInput
}

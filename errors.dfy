/** Failure values for the modelled functions.

    `validate_eccentricity` signals an invalid eccentricity by raising `AttributeError`; here
    that exception is a value, and a function that validates first returns
    the failure's error the way the Python call propagates the exception. */
module Errors {

  /** The only exception the modelled orbital functions raise on purpose:
      an eccentricity outside [0, 1), carrying the rejected value. */
  datatype Error = InvalidEccentricity(value: real)

  /** The outcome of a check that either returns nothing or raises. */
  datatype Outcome = Pass | Fail(error: Error)

  /** A value, or the exception raised instead of computing it. */
  datatype Result<+T> = Ok(value: T) | Err(error: Error)
}

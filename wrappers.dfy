/** Option, Result and Outcome values for the installer's error returns. */
module Wrappers {

  datatype Option<+T> = None | Some(value: T)

  /** A value or an error, as a Go function returning (value, error). */
  datatype Result<+T, +E> = Ok(value: T) | Err(error: E)

  /** Success or an error, as a Go function returning only an error. */
  datatype Outcome<+E> = Pass | Fail(error: E)
}

/** Option, Result and Outcome, the shapes every fallible step of the model returns. */
module Outcomes {

  /** A value that may be absent: Python's `None` or a value. */
  datatype Option<+T> = None | Some(value: T)

  /** Either a value or the error that was raised instead. */
  datatype Result<+T, +E> = Ok(value: T) | Err(error: E)

  /** What a call into the outside world did: returned a value, or raised. */
  datatype Outcome<+T> = Returned(value: T) | Raised
}

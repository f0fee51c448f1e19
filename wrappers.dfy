/** Option and Result values for the model's lookups and error paths. */
module Wrappers {

  /** A value that may be absent (JavaScript's `undefined`). */
  datatype Option<+T> = None | Some(value: T)

  /** The outcome of an operation that can throw: a value or the error it throws. */
  datatype Result<+T, +E> = Ok(value: T) | Err(error: E)
}

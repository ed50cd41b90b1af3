/** Failure-carrying values: the model's stand-in for JavaScript's `null` and `throw`. */
module Wrappers {

  /** A value that may be absent (`null` / `undefined` in the source). */
  datatype Option<+T> = None | Some(value: T)

  /** Either a value, or the error an operation would have thrown. */
  datatype Result<+T, +E> = Ok(value: T) | Err(error: E)

  /** Success without a value, or the error an operation would have thrown. */
  datatype Outcome<+E> = Pass | Fail(error: E)
}

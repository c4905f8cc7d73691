/** Failure-carrying datatypes shared by the model. */
module Wrappers {

  /** A value that may be absent (JavaScript's `undefined`, `NaN` or a failed parse). */
  datatype Option<+T> = None | Some(value: T)

  /** The outcome of an operation that throws in the source: `Err` carries the error raised. */
  datatype Result<+T, +E> = Ok(value: T) | Err(error: E)
}

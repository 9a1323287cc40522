/** Option and Result, used throughout the model. */
module Wrappers {

  /** A value that may be missing (Dart's nullable types). */
  datatype Option<+T> = None | Some(value: T)

  /** A value, or the reason it could not be produced (a thrown exception). */
  datatype Result<+T, +E> = Ok(value: T) | Err(error: E)
}

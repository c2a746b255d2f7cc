/** The `Option` and `Result` datatypes used across the model. */
module Wrappers {

  /** A value that may be absent: `None` is the resolver's `nil`. */
  datatype Option<+T> = None | Some(value: T)

  /** The outcome of an operation that may fail with an error of type `E`. */
  datatype Result<+R, +E> = Success(value: R) | Failure(error: E)
}

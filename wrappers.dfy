/** Option and Result: the model's stand-ins for Go's nil-able values and (value, error) pairs. */
module Wrappers {

  /** `None` plays the role of a nil pointer or a nil `error`. */
  datatype Option<+T> = None | Some(value: T)

  /** The outcome of a step that yields a value or fails with an error. */
  datatype Result<+R, +E> = Success(value: R) | Failure(error: E)
}

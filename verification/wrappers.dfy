/** Failure-carrying wrappers shared by the rest of the model. */
module Wrappers {

  /** A value that may be absent. `None` stands for Go's `nil` wherever a
      function returns an `error` that may be nil. */
  datatype Option<+T> = None | Some(value: T)

  /** Either a value or an error, for calls that return `(value, error)`. */
  datatype Result<+R, +E> = Success(value: R) | Failure(error: E)
}

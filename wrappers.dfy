/** Optional values and success/failure results, used for Ruby's `nil` and raised exceptions. */
module Wrappers {

  /** `nil` or a value. */
  datatype Option<+T> = None | Some(value: T)

  /** A value, or the exception raised instead of producing one. */
  datatype Result<+T, +E> = Success(value: T) | Failure(error: E)

  /** A step that either completed or raised. */
  datatype Outcome<+E> = Pass | Fail(error: E)
}

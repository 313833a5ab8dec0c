/** Option and Result, used for the null checks and the thrown errors of the app. */
module Wrappers {

  /** A value that may be absent (`null` in the app's state hooks). */
  datatype Option<+T> = None | Some(value: T)

  /** The outcome of a handler that may throw: a new value, or the reason it threw. */
  datatype Result<+R, +E> = Success(value: R) | Failure(error: E)
}

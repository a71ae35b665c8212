/** Failure-compatible wrappers used across the model: a JavaScript value that
    may be `undefined` is an Option, an operation that may throw returns a
    Result or an Outcome. */
module Wrappers {

  datatype Option<+T> = None | Some(value: T)

  datatype Result<+T, +E> = Success(value: T) | Failure(error: E)

  datatype Outcome<+E> = Pass | Fail(error: E)
}

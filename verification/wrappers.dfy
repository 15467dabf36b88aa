/** Failure-compatible wrappers: a Java reference that may be null is an
    Option, an operation that may throw is a Result. */
module Wrappers {

  datatype Option<+T> = None | Some(value: T)

  datatype Result<+T, +E> = Success(value: T) | Failure(error: E)
}

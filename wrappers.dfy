/** Option and Result wrappers used across the model: a Java reference that
    may be null is an Option, a call that may throw is a Result. */
module Wrappers {

  datatype Option<+T> = None | Some(value: T)

  datatype Result<+R, +E> = Success(value: R) | Failure(error: E)
}

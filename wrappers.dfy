/** Small generic wrappers shared by every module of the model. */
module Wrappers {
  /** A value that may be absent (a Java reference that may be null). */
  datatype Option<T> = None | Some(value: T)

  /** The outcome of an operation that either produces a value or raises an error. */
  datatype Result<T, E> = Success(value: T) | Failure(error: E)
}

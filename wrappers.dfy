/** Option and Result, the two wrappers the introspector's answers are built from. */
module Wrappers {

  /** A Java reference that may be null: None stands for null. */
  datatype Option<+T> = None | Some(value: T)

  /** The outcome of a query that can also throw: Failure carries the exception. */
  datatype Result<+R, +E> = Success(value: R) | Failure(error: E)
}

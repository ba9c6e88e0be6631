/** Failure-carrying results used across the model. */
module Wrappers {

  /** A value that may be absent: the model of a result that Go may leave nil. */
  datatype Option<+T> = None | Some(value: T)

  /** Success or an error value: the model of a Go `error` return. */
  datatype Outcome<+E> = Pass | Fail(error: E)
}

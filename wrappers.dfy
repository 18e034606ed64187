/** Option and Result, the two failure-carrying wrappers the model uses for
    JavaScript's `null` results and thrown errors. */
module Wrappers {

  datatype Option<+T> = None | Some(value: T)

  /** `Failure` carries the message of the `Error` the source would throw. */
  datatype Result<+R, +E> = Success(value: R) | Failure(error: E)
}

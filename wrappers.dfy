/** Option and Result, the two failure-carrying values the model uses in place of
    JavaScript's `undefined` and of thrown errors. */
module Wrappers {

  datatype Option<+T> = None | Some(value: T)

  /** The outcome of an operation that either returns a value or throws an error
      whose message is `error`. */
  datatype Result<+R, +E> = Success(value: R) | Failure(error: E)
}

/** Option and Result, the two failure-carrying shapes the model needs. */
module Wrappers {

  datatype Option<T> = None | Some(value: T)

  /** A Go `(T, error)` pair: either a value or the error's message. */
  datatype Result<T> = Success(value: T) | Failure(error: string)
}

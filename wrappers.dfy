/** Option and Result values for the places where the application either has a
    value or does not, and for operations that either succeed or fail with a message. */
module Wrappers {

  datatype Option<+T> = None | Some(value: T)

  datatype Result<+R, +E> = Success(value: R) | Failure(error: E)
}

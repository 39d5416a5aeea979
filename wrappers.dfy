/** Option and Result: the values used for absent keys, thrown errors and
    the success or failure of a network call. */
module Wrappers {

  datatype Option<+T> = None | Some(value: T)

  datatype Result<+R, +E> = Success(value: R) | Failure(error: E)
}

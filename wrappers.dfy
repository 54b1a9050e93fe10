/** Option and Result, the two failure-carrying wrappers the rest of the model uses
    for C#'s `null` and for thrown exceptions. */
module Wrappers {

  datatype Option<+T> = None | Some(value: T)

  datatype Result<+R, +E> = Success(value: R) | Failure(error: E)
}

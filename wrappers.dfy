/** Option and Result, the two wrapper types the model uses for "may yield nothing"
    and for operations whose failure the source turns into a panic. */
module Wrappers {

  datatype Option<+T> = None | Some(value: T)

  datatype Result<+R, +E> = Success(value: R) | Failure(error: E)
}

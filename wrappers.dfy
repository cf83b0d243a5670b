/** Optional values and results with an error reason, shared by the model's modules. */
module Wrappers {

  /** A value that may be absent. */
  datatype Option<+T> = None | Some(value: T)

  /** Either a computed value or the reason it could not be computed. */
  datatype Result<+T, +E> = Success(value: T) | Failure(error: E)
}

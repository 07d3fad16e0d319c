/** Optional values and results used to model Python's `None` and raised exceptions as values. */
module Wrappers {

  /** An optional value; stands for a Python argument that may be `None`. */
  datatype Option<+T> = None | Some(value: T)

  /** Either a value or the error a Python call would have raised. */
  datatype Result<+T, +E> = Success(value: T) | Failure(error: E)
}

/** Optional values and outcomes: a null pointer, a value left indeterminate, a step that may fail. */
module Wrappers {
  datatype Option<T> = None | Some(value: T)

  datatype Result<T, E> = Success(value: T) | Failure(error: E)
}

/** Optional values and results, used for Python's `Optional[...]` fields and raised exceptions. */
module Wrappers {

  /** `None` plays the role of Python's `None`. */
  datatype Option<+T> = None | Some(value: T)

  /** A value, or the error that prevented producing it. */
  datatype Result<+R, +E> = Success(value: R) | Failure(error: E)
}

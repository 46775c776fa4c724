/** Optional values and success-or-error results, used in place of Go's
    `(value, ok)` and `(value, error)` return pairs. */
module Wrappers {

  /** A value that may be absent. */
  datatype Option<+T> = None | Some(value: T)

  /** Either a computed value or the reason it could not be computed. */
  datatype Result<+R, +E> = Success(value: R) | Failure(error: E)
}

/** Optional values and success-or-error results, used for the catalogue's KeyError path. */
module Wrappers {

  datatype Option<+T> = None | Some(value: T)

  datatype Result<+R, +E> = Success(value: R) | Failure(error: E)
}

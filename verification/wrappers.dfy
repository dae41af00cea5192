/** Optional values and explicit success/failure outcomes. */
module Wrappers {

  /** A value that may be missing: a JSON body or query field that was not sent is `None`. */
  datatype Option<+T> = None | Some(value: T)

  /** The outcome of a store operation that can fail with an error value. */
  datatype Result<+R, +E> = Success(value: R) | Failure(error: E)
}

/** Optional values and the outcome of an asynchronous call that may reject. */
module Wrappers {

  datatype Option<+T> = None | Some(value: T)

  /** A call that resolved with a value, or rejected with an (opaque) I/O error. */
  datatype Result<+T> = Success(value: T) | Failure

  /** A call that resolves with nothing, or rejects. */
  datatype Outcome = Pass | Fail
}

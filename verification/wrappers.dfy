/** Optional values and success-or-error results, used by the ledger's handlers. */
module Wrappers {

  /** A value that may be absent; models Rust's `Option<T>`. */
  datatype Option<+T> = None | Some(value: T)

  /** The outcome of a handler; models Rust's `Result<T, E>`. */
  datatype Result<+T, +E> = Success(value: T) | Failure(error: E)
}

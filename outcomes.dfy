/** Optional values and success-or-failure results, shared by every backend. */
module Outcomes {

  /** A value that may be absent: Swift's `T?`, Kotlin's `T?`, a JavaScript `undefined`. */
  datatype Option<+T> = None | Some(value: T)

  /** The outcome of a step that either produces a value or throws/rejects with an error. */
  datatype Result<+T, +E> = Ok(value: T) | Err(error: E)
}

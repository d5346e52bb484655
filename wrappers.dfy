/** Optional values and fallible results, used for `undefined` and for errors. */
module Wrappers {

  /** `None` stands for a value that is absent (JavaScript's `undefined`). */
  datatype Option<+T> = None | Some(value: T)

  /** The outcome of an operation that can throw. */
  datatype Result<+T, +E> = Success(value: T) | Failure(error: E)
}

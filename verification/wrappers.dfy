/** Optional values and results of steps that may throw. */
module Wrappers {

  /** An optional value: JavaScript's `undefined`/`null` versus a present value. */
  datatype Option<+T> = None | Some(value: T)

  /** The outcome of a step that may throw: a value, or the thrown error. */
  datatype Result<+R, +E> = Success(value: R) | Failure(error: E)
}

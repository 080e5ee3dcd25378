/** Optional values and results with an error channel, used wherever the
    TypeScript code has `undefined`, a thrown exception or a failure path. */
module Wrappers {

  /** `None` stands for JavaScript's `undefined` (a missing value). */
  datatype Option<+T> = None | Some(value: T)

  /** `Failure` stands for an exception the source throws. */
  datatype Result<+R, +E> = Success(value: R) | Failure(error: E)
}

/** Optional values (TypeScript's `T | undefined`) and the two-way outcome of a call that can throw. */
module Outcomes {

  /** An optional field: `None` stands for an absent or `undefined` value. */
  datatype Option<+T> = None | Some(value: T)

  /** A call that returns `value` or throws `error`. */
  datatype Result<+T, +E> = Success(value: T) | Failure(error: E)
}

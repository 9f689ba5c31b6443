/** Absent-or-present values and success-or-failure results, used by every module. */
module Wrappers {

  /** `undefined`/`null` on the JavaScript side is `None`. */
  datatype Option<+T> = None | Some(value: T)

  /** The outcome of an operation that may throw: `Err` carries the error message. */
  datatype Result<+T, +E> = Ok(value: T) | Err(error: E)
}

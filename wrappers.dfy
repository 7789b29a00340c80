/** Option and Result, used where the source returns `undefined` or throws. */
module Wrappers {

  /** `None` plays the part of JavaScript's `undefined` (or `null`) for an optional value. */
  datatype Option<+T> = None | Some(value: T)

  /** `Err` carries the value the source would `throw`. */
  datatype Result<+T, +E> = Ok(value: T) | Err(error: E)
}

/** Failure-carrying values: how the model writes a JavaScript `throw`, an optional
    value (`undefined` / `null`) and a call that either returns or throws. */
module Wrappers {

  datatype Option<+T> = None | Some(value: T)

  /** A call that returns `value` or throws `error`. */
  datatype Result<+T, +E> = Ok(value: T) | Err(error: E)

  /** A call that returns nothing or throws `error`. */
  datatype Outcome<+E> = Pass | Fail(error: E)
}

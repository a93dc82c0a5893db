/** Optional values and results shared by every module, and the exceptions
    the modelled JavaScript code can throw. */
module Wrappers {

  /** A value that may be absent; `None` stands for JavaScript `null` or `undefined`. */
  datatype Option<+T> = None | Some(value: T)

  /** The outcome of an operation that produces a value or throws. */
  datatype Result<+T, +E> = Ok(value: T) | Err(error: E)

  /** The outcome of an operation that produces no value or throws. */
  datatype Outcome<+E> = Done | Fail(error: E)

  /** The built-in JavaScript errors the core can raise. */
  datatype JsException =
    | TypeError(message: string)
    | RangeError(message: string)
}

/** Optional values and results, the shapes JavaScript expresses with
    `null`/`undefined` and with thrown exceptions. */
module Wrappers {

  /** A value that may be absent (`null` or `undefined` in the source). */
  datatype Option<+T> = None | Some(value: T) {

    /** The wrapped value, or `default` when absent (JavaScript's `a || b`
        when every present value is truthy). */
    function GetOr(default: T): T {
      match this
      case Some(v) => v
      case None => default
    }
  }

  /** The outcome of a computation that can throw. */
  datatype Result<+T, +E> = Ok(value: T) | Err(error: E)
}

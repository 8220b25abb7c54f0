/** Optional values and the outcome of a request to the remote API.

    Every axios/fetch call of the client is modelled by the outcome it
    produced, passed in as a parameter: `Ok(value)` for a 2xx response
    carrying `value`, `Failed` for a thrown error (network error or non-2xx).
 */
module Wrappers {

  /** A value that may be missing: JavaScript's `undefined` / `null`. */
  datatype Option<+T> = None | Some(value: T) {

    /** The value, or `default` when it is missing (the `??` operator). */
    function GetOr(default: T): T {
      match this
      case Some(v) => v
      case None => default
    }
  }

  /** The outcome of one request to the remote API. */
  datatype Net<+T> = Ok(value: T) | Failed
}

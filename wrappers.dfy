/** Optional values and fallible results, standing for TypeScript's `undefined`
    and for the `Error` thrown inside a repository call. */
module Wrappers {

  datatype Option<+T> = None | Some(value: T) {

    /** `this ?? default`: the value, or the default when there is none. */
    function GetOr(default: T): T {
      match this
      case Some(v) => v
      case None => default
    }

    /** `this ?? other` where the fallback is itself optional. */
    function OrElse(other: Option<T>): Option<T> {
      if Some? then this else other
    }
  }

  datatype Result<+R, +E> = Success(value: R) | Failure(error: E)
}

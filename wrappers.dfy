/** Optional values and results, used for JavaScript's `null`/`undefined`
    and for rejected promises. */
module Wrappers {

  datatype Option<+T> = None | Some(value: T) {
    function GetOr(default: T): T {
      match this
      case Some(v) => v
      case None => default
    }
  }

  datatype Result<+R, +E> = Success(value: R) | Failure(error: E)

  /** JavaScript truthiness of an optional identifier: `null`, `undefined`
      and the empty string are all falsy. */
  predicate Present(id: Option<string>) {
    id.Some? && id.value != ""
  }
}

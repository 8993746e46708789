/** Option and Result, the shapes used for JavaScript's `undefined`/`null` and for thrown errors. */
module Wrappers {

  datatype Option<+T> = None | Some(value: T) {
    function GetOr(default: T): T {
      match this
      case Some(v) => v
      case None => default
    }
  }

  datatype Result<+R, +E> = Success(value: R) | Failure(error: E)

  /** A string that is present and non-empty: JavaScript's truthiness for an optional string. */
  predicate Given(s: Option<string>) {
    s.Some? && s.value != ""
  }
}

/** The optional value used throughout the model for JavaScript's
    `undefined`/`null` and for lookups that may find nothing. */
module Wrappers {
  datatype Option<T> = None | Some(value: T) {
    function GetOr(default: T): T {
      match this
      case Some(v) => v
      case None => default
    }
  }
}

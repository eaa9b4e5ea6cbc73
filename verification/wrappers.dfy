/** The optional value used for JSON fields that may be absent. */
module Wrappers {

  datatype Option<T> = None | Some(value: T) {

    /** The value when present, otherwise `default` (JavaScript's `x || default` on an absent field). */
    function GetOr(default: T): T {
      match this
      case Some(v) => v
      case None => default
    }
  }
}

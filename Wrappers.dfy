/** The usual Some/None datatype; a JavaScript value that may be absent
    (a missing object key, a `null` reference) is an `Option`. */
module Wrappers {

  datatype Option<+T> = None | Some(value: T) {

    /** The carried value, or `default` when there is none. */
    function GetOr(default: T): (r: T)
      ensures Some? ==> r == value
      ensures None? ==> r == default
    {
      match this
      case Some(v) => v
      case None => default
    }
  }
}

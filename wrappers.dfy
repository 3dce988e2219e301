/** The optional value used for the "" sentinels of the revenue bounds and for
    the result of parseInt (which yields NaN on unparsable text). */
module Wrappers {

  datatype Option<+T> = None | Some(value: T) {

    /** The encapsulated value, or `default` when there is none. */
    function GetOr(default: T): T {
      match this
      case Some(v) => v
      case None => default
    }
  }
}

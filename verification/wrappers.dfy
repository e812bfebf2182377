/** The optional-value datatype used for nullable platform readings. */
module Wrappers {

  /** A value that may be absent, as a browser's nullable field is. */
  datatype Option<+T> = None | Some(value: T) {

    /** The wrapped value, or `default` when there is none. */
    function GetOr(default: T): (r: T)
      ensures Some? ==> r == value
      ensures None? ==> r == default
    {
      match this
      case Some(v) => v
      case None => default
    }
  }
}

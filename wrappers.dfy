/** An optional value, standing for a property that may be absent from an object literal. */
module Wrappers {

  datatype Option<+T> = None | Some(value: T) {

    /** The value if present, the given default otherwise. */
    function GetOr(default: T): (r: T)
      ensures Some? ==> r == value
      ensures None? ==> r == default
    {
      match this
      case Some(v) => v
      case None => default
    }
  }
}

/** Optional values, shared by the validator and the seller-record model. */
module Wrappers {

  /** A value that may be absent: JavaScript's `undefined` or Python's `None`. */
  datatype Option<+T> = None | Some(value: T) {

    /** The value, or `default` when there is none. */
    function GetOr(default: T): (r: T)
      ensures Some? ==> r == value
      ensures None? ==> r == default
    {
      match this
      case Some(v) => v
      case None => default
    }
  }
}

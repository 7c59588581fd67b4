/** Optional values: a field of an event object that may be absent. */
module Wrappers {

  datatype Option<T> = None | Some(value: T) {

    /** The value if present, else `default`. */
    function GetOr(default: T): T {
      match this
      case Some(v) => v
      case None => default
    }
  }
}

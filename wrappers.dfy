/** Optional values: a key that a caller may or may not supply. */
module Wrappers {

  datatype Option<+T> = None | Some(value: T) {

    /** The supplied value, or `default` when none was supplied. */
    function GetOr(default: T): T {
      match this
      case Some(v) => v
      case None => default
    }
  }
}

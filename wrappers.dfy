/** Optional values, standing for the nullable columns and the null/absent values of the program. */
module Wrappers {

  datatype Option<+T> = None | Some(value: T) {

    /** The value, or the default when absent. */
    function GetOr(default: T): T
    {
      match this
      case Some(v) => v
      case None => default
    }
  }
}

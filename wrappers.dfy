/** Optional values: `None` stands for JavaScript's `null`/`undefined` where
    the source returns "nothing". */
module Wrappers {

  datatype Option<+T> = None | Some(value: T) {

    /** The value, or `default` when there is none. */
    function GetOr(default: T): T {
      match this
      case Some(v) => v
      case None => default
    }
  }
}

/** Optional values: JavaScript's `null` / `undefined` next to a present value. */
module Wrappers {
  datatype Option<+T> = None | Some(value: T) {
    /** `x ?? d`: the present value, else the default. */
    function GetOr(default: T): T {
      match this
      case Some(v) => v
      case None => default
    }
  }
}

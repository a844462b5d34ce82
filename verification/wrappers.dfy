/** An optional value, for state the scripts leave unset (`null`) until first use. */
module Wrappers {
  datatype Option<+T> = None | Some(value: T) {
    /** The value, or `default` when there is none (JavaScript's `value || default` for a missing key). */
    function GetOr(default: T): T {
      match this
      case Some(v) => v
      case None => default
    }
  }
}

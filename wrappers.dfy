/** Optional values, standing in for std::optional. */
module Wrappers {
  datatype Option<T> = None | Some(value: T) {
    /** The stored value, or `default` when there is none (std::optional::value_or). */
    function GetOr(default: T): T {
      match this
      case Some(v) => v
      case None => default
    }
  }
}

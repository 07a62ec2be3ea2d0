/** Swift optionals (`String?`, `NSData?`) are modelled by Option. */
module Wrappers {

  datatype Option<+T> = None | Some(value: T) {

    /** The `??` operator: the wrapped value, or `default` when absent. */
    function GetOr(default: T): T {
      match this
      case Some(v) => v
      case None => default
    }
  }
}

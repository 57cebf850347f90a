/** Optional values and the outcome of a Python call that may raise. */
module Wrappers {
  datatype Option<+T> = None | Some(value: T) {
    function GetOr(default: T): T {
      match this
      case Some(v) => v
      case None => default
    }
  }

  /** A Python expression either returns a value or raises an exception. */
  datatype Outcome<+T> = Returns(value: T) | Raises
}

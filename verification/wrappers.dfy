/** Option and Result: a key that may be absent from a dictionary, and a call
    that either returns a value or raises an exception. */
module Wrappers {

  datatype Option<+T> = None | Some(value: T) {
    function GetOr(default: T): T {
      match this
      case Some(v) => v
      case None => default
    }
  }

  /** A Python value that may be missing, stored as None, or stored: the three
      answers `d.get(k, default)` can see for a key of a dict. */
  datatype Slot<+T> = Missing | Null | Value(value: T)

  datatype Result<+T, +E> = Success(value: T) | Failure(error: E)
}

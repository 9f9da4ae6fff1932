/** Failure-carrying datatypes shared by the plugin modules. */
module Wrappers {

  datatype Option<+T> = None | Some(value: T) {
    /** The carried value, or `default` when there is none. */
    function GetOr(default: T): T {
      match this
      case Some(v) => v
      case None => default
    }
  }

  /** A value or the error a Python call would have raised instead. */
  datatype Result<+R, +E> = Success(value: R) | Failure(error: E)

  /** The outcome of a call that only has an effect: it returned, or it raised `error`. */
  datatype Outcome<+E> = Pass | Fail(error: E)
}

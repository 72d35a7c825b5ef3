/** Option and Result datatypes for absent values and raised errors. */
module Wrappers {

  datatype Option<+T> = None | Some(value: T) {

    /** The wrapped value, or `default` when absent (Python's `d.get(k, default)`). */
    function GetOr(default: T): T {
      match this
      case Some(v) => v
      case None => default
    }
  }

  /** Success carries the value; Failure carries the error a Python function would raise. */
  datatype Result<+R, +E> = Success(value: R) | Failure(error: E)
}

/** Failure-compatible wrappers used throughout the model: Swift optionals
    become `Option`, and `throws` becomes `Result`. */
module Wrappers {

  datatype Option<+T> = None | Some(value: T) {

    /** The Swift `??` operator: the wrapped value, or `default` when absent. */
    function GetOr(default: T): T {
      match this
      case Some(v) => v
      case None => default
    }
  }

  /** Either a value or the error a throwing function raised. */
  datatype Result<+R, +E> = Success(value: R) | Failure(error: E)
}

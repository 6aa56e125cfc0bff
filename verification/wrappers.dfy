/** Optional values and error-carrying results, used for JavaScript's
    `undefined`/`null` and for operations that throw. */
module Wrappers {

  /** `None` stands for an absent (undefined or null) value. */
  datatype Option<+T> = None | Some(value: T) {

    /** The `??` operator: the value if present, else the default. */
    function GetOr(default: T): T {
      match this
      case Some(v) => v
      case None => default
    }
  }

  /** The outcome of an operation that either returns a value or throws. */
  datatype Result<+R, +E> = Success(value: R) | Failure(error: E)
}

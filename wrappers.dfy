/** Optional values and operation outcomes, shared by the renderer modules. */
module Wrappers {

  /** A value that may be absent (Swift's optional). */
  datatype Option<+T> = None | Some(value: T) {
    /** The value, or `default` when absent (Swift's `??`). */
    function GetOr(default: T): (r: T)
      ensures Some? ==> r == value
      ensures None? ==> r == default
    {
      match this
      case Some(v) => v
      case None => default
    }
  }

  /** The outcome of an operation that returns nothing but may throw. */
  datatype Outcome<+E> = Pass | Fail(error: E)

  /** The outcome of an operation that returns a value or throws. */
  datatype Result<+R, +E> = Success(value: R) | Failure(error: E)
}

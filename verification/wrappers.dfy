/** Optional values and results, standing for C#'s nullable references and thrown exceptions. */
module Wrappers {

  /** A value that may be absent: `None` plays the part of `null`. */
  datatype Option<+T> = None | Some(value: T) {
    /** The C# `??` operator: the value when present, otherwise `default`. */
    function OrElse(default: T): T {
      match this
      case Some(v) => v
      case None => default
    }
  }

  /** The result of an operation that either returns a value or throws. */
  datatype Result<+R, +E> = Success(value: R) | Failure(error: E)
}

/** How the model writes C#'s `null` and C#'s exceptions: `Option` for a
    reference that may be null, and `Result` for an expression that either
    yields a value or throws. `Result` supports Dafny's `:-` operator, which
    stops at the first exception just as C# does. */
module Wrappers {

  /** A C# reference that may be null: `None` stands for `null`. */
  datatype Option<+T> = None | Some(value: T) {

    /** What string concatenation reads: the value, or `default` for null. */
    function GetOr(default: T): T {
      match this
      case Some(v) => v
      case None => default
    }
  }

  /** A value, or the exception thrown instead of it. */
  datatype Result<+T, +E> = Success(value: T) | Failure(error: E) {

    predicate IsFailure() {
      Failure?
    }

    function PropagateFailure<U>(): Result<U, E>
      requires Failure?
    {
      Failure(error)
    }

    function Extract(): T
      requires Success?
    {
      value
    }
  }
}

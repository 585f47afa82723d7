/** Option and Result values shared by the modules of this model. */
module Wrappers {

  /** A value that may be absent: a missing query parameter, a score not yet set. */
  datatype Option<+T> = None | Some(value: T) {

    function GetOr(default: T): T {
      match this
      case Some(v) => v
      case None => default
    }
  }

  /** Either a value or the text of the error that replaced it. In the scoring service this
      is what Python's `str(e)` gives for the exception, without its class name. */
  datatype Result<+T> = Success(value: T) | Failure(error: string) {

    predicate IsFailure() {
      Failure?
    }

    function PropagateFailure<U>(): Result<U>
      requires Failure?
    {
      Failure(error)
    }

    function Extract(): T
      requires Success?
    {
      value
    }
  }
}

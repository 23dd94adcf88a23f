/** Option and Result, the two failure-compatible wrappers the model uses for
    JavaScript's `undefined` / `??` and for thrown errors. */
module Wrappers {

  /** `None` stands for a property that is absent (`undefined`). */
  datatype Option<+T> = None | Some(value: T) {

    /** JavaScript's `??`: the value when present, otherwise the fallback. */
    function GetOr(fallback: T): (r: T)
      ensures Some? ==> r == value
      ensures None? ==> r == fallback
    {
      match this
      case Some(v) => v
      case None => fallback
    }
  }

  /** `Failure` stands for an error thrown and caught by the request handler. */
  datatype Result<+R, +E> = Success(value: R) | Failure(error: E) {

    predicate IsFailure() {
      Failure?
    }

    function PropagateFailure<U>(): Result<U, E>
      requires Failure?
    {
      Failure(error)
    }

    function Extract(): R
      requires Success?
    {
      value
    }
  }
}

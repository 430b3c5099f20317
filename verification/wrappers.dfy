/** Optional values and the outcome of a call that may raise. */
module Wrappers {

  /** Python's `Optional[str]`: `None`, or a value. */
  datatype Option<T> = None | Some(value: T)

  /** A call that either returns `value` or raises `error`. The three members
      below let `var x :- Call(...);` stop a chain of calls at the first raised
      error and pass that error on, the way an exception leaves a chain of
      method calls. */
  datatype Result<R, E> = Success(value: R) | Failure(error: E) {

    predicate IsFailure() {
      Failure?
    }

    function PropagateFailure<U>(): Result<U, E>
      requires Failure?
    {
      Failure(error)
    }

    function Extract(): R
      requires Success?
    {
      value
    }
  }
}

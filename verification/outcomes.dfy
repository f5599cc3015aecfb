/** Failure-compatible wrappers used throughout the model.

    - Option<T>: a value that may be absent (Python's `None`).
    - Result<T, E>: a value or a plain error value (a validator's `ValueError`).
    - Outcome<T>: the three ways a step of the audit pipeline can end, mirroring
      how the Python code raises: normally with a value, with a FastAPI
      `HTTPException`, or with any other exception.
 */
module Outcomes {

  datatype Option<+T> = None | Some(value: T) {

    /** Python's `d.get(key, default)` once the lookup is an Option. */
    function GetOr(default: T): T {
      if Some? then value else default
    }
  }

  datatype Result<+T, +E> = Success(value: T) | Failure(error: E)

  /** How a pipeline step ends. `HttpErr` carries the exception's `detail`,
      `OtherErr` carries `str(e)` of any other exception. */
  datatype Outcome<+T> = Ok(value: T) | HttpErr(detail: string) | OtherErr(message: string) {

    predicate IsFailure() {
      !Ok?
    }

    /** Re-raises the same exception from a step with another result type. */
    function PropagateFailure<U>(): (r: Outcome<U>)
      requires IsFailure()
      ensures r.HttpErr? <==> HttpErr?
      ensures HttpErr? ==> r.detail == detail
      ensures OtherErr? ==> r.OtherErr? && r.message == message
    {
      if HttpErr? then HttpErr(detail) else OtherErr(message)
    }

    function Extract(): T
      requires Ok?
    {
      value
    }
  }

  /** Every `HTTPException` raised in the core uses status code 500. */
  const InternalServerError: nat := 500
}

/** How an operation of the wrapper ends: it returns a value, or the process stops. */
module Outcomes {

  datatype Option<+T> = None | Some(value: T)

  /** Why the process stops instead of returning. */
  datatype Fault =
    | CheckFailed(code: int)   // CHECK saw a status other than CL_SUCCESS, printed it and asserted
    | AssertFailed             // a plain assert of the wrapper failed
    | OutOfBounds              // the wrapper indexed past one of its own fixed-size arrays

  datatype Result<+T> = Success(value: T) | Failure(fault: Fault) {
    predicate IsFailure() { Failure? }

    function PropagateFailure<U>(): Result<U>
      requires Failure?
    {
      Failure(fault)
    }

    function Extract(): T
      requires Success?
    {
      value
    }
  }
}

/**
 * Results of the memory API. A call either produces a value or aborts: the
 * source aborts through mapshaper's `stop(message)` (modelled as `Stop`) or
 * through a JavaScript TypeError when it reads a property of `null` (modelled
 * as `TypeError`). Both can be propagated with Dafny's `:-`.
 */
module Outcomes {

  datatype Option<+T> = None | Some(value: T)

  datatype Error = Stop(message: string) | TypeError(message: string)

  datatype Result<+T> = Ok(value: T) | Fail(error: Error) {

    predicate IsFailure() {
      Fail?
    }

    function PropagateFailure<U>(): Result<U>
      requires Fail?
    {
      Fail(error)
    }

    function Extract(): T
      requires Ok?
    {
      value
    }
  }
}

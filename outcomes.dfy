/** Optional values, Python exceptions and results that either hold a value or
    carry the exception a Python call would raise. */
module Outcomes {

  datatype Option<+T> = None | Some(value: T)

  /** The Python exceptions the modelled code raises or catches. */
  datatype Exception =
    | AssertionError
    | AttributeError
    | IndexError
    | KeyError
    | OverflowError
    | StopIteration
    | TypeError
    | ValueError
    | SyntaxError(detail: string)
    | OtherError(detail: string)

  /** The outcome of a Python call: a returned value, or a raised exception. */
  datatype Result<+T> = Ok(value: T) | Raise(exc: Exception) {

    predicate IsFailure() {
      Raise?
    }

    function PropagateFailure<U>(): Result<U>
      requires Raise?
    {
      Raise(exc)
    }

    function Extract(): T
      requires Ok?
    {
      value
    }
  }
}

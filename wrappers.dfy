/** Optional values, the Python exception kinds the core raises, and results
    that carry either a value or one of those exceptions. */
module Wrappers {

  datatype Option<+T> = None | Some(value: T)

  /** The exception kinds the modelled code raises or lets through. */
  datatype Error =
    | KeyError(key: string)
    | ValueError(msg: string)
    | TypeError(msg: string)
    | AttributeError(msg: string)
    | IndexError
    | StopIteration
    | ZeroDivisionError
    | LibraryError(msg: string)   // any exception raised inside a library call

  /** A computation that returns a value or raises. */
  datatype Result<+T> = Ok(value: T) | Err(error: Error) {
    predicate IsFailure() { Err? }

    function PropagateFailure<U>(): Result<U>
      requires Err?
    {
      Err(error)
    }

    function Extract(): T
      requires Ok?
    {
      value
    }
  }

  /** A computation that returns nothing or raises. */
  datatype Outcome = Pass | Fail(error: Error) {
    predicate IsFailure() { Fail? }

    function PropagateFailure<U>(): Result<U>
      requires Fail?
    {
      Err(error)
    }
  }

  /** What a statistics library call hands back: a statistic and a p-value, or
      an exception. */
  datatype StatOutcome = Returned(statistic: real, pvalue: real) | Raised(error: Error)
}

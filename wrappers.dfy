/** Option and Result, and the exception classes the modelled Python code
    can raise. A Python call that may raise is modelled as a function or
    method returning a `Result`; `:-` propagates the error the way an
    uncaught exception unwinds. */
module Wrappers {

  datatype Option<+T> = None | Some(value: T)

  /** The exceptions the modelled code can raise. `RequestError` is whatever
      the HTTP client raises for a failed call; `Unmodelled` stands for a
      result the model does not compute (the `repr` text of a list or dict). */
  datatype Error =
    | KeyError
    | TypeError
    | ValueError
    | IndexError
    | AttributeError
    | NameError
    | FileNotFound
    | RequestError
    | Unmodelled

  datatype Result<+T> = Ok(value: T) | Err(error: Error) {
    predicate IsFailure() { Err? }

    function PropagateFailure<U>(): Result<U>
      requires Err?
    {
      Err(error)
    }

    function Extract(): T
      requires Ok?
    {
      value
    }
  }

  /** The Result of a call that only has an effect: Python's implicit `None`. */
  datatype Unit = Unit
}

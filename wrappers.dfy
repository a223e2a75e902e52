/** Failure-compatible result types used throughout the model. The Python
    source raises exceptions; each exception class it can raise on the modelled
    paths is one `Error` constructor. */
module Wrappers {

  datatype Option<+T> = None | Some(value: T) {
    /** The value, or `default` when there is none (Python's `x if x else default`). */
    function GetOr(default: T): T {
      if Some? then value else default
    }
  }

  /** The Python exception classes the modelled code raises. */
  datatype Error =
    | ValueError         // bad literal, failed validation, too few tokens
    | AssertionError     // a failed `assert` statement
    | IndexError         // indexing past the end of a str or list
    | KeyError           // missing dictionary key
    | ZeroDivisionError  // float division by zero

  datatype Result<+T> = Ok(value: T) | Err(error: Error) {
    predicate IsFailure() {
      Err?
    }

    function PropagateFailure<U>(): Result<U>
      requires Err?
    {
      Err(error)
    }

    function Extract(): T
      requires Ok?
    {
      value
    }
  }
}

/** Outcome types shared by every module of the model. */
module Wrappers {

  /** Python's `None`-or-value. */
  datatype Option<+T> = None | Some(value: T)

  /** Python's `x or y` for an optional string: a missing or empty `x` gives `y`. */
  function OrElse(x: Option<string>, y: string): (r: string)
    ensures x.Some? && x.value != "" ==> r == x.value
    ensures x.None? || x.value == "" ==> r == y
  {
    if x.Some? && x.value != "" then x.value else y
  }

  /**
   * The exception classes the modelled code raises. Every `raise ValidationError(...)`
   * of the source is the single outcome `Validation`; the other tags stand for the
   * built-in exceptions that escape from the code as written.
   */
  datatype Error =
    | Validation
    | KeyError
    | IndexError
    | TypeError
    | ValueError
    | AttributeError
    | RuntimeError
    | Timeout

  /** Either the value a call returns or the exception it raises. */
  datatype Result<+T> = Ok(value: T) | Err(error: Error) {
    predicate IsFailure() { Err? }

    function PropagateFailure<U>(): Result<U>
      requires Err?
    {
      Err(error)
    }

    function Extract(): T
      requires Ok?
    {
      value
    }
  }

  /** The unit value returned by procedures that return `None` on success. */
  datatype Unit = Unit
}

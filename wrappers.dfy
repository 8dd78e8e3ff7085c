/** Option and Result wrappers shared by every module of the model. */
module Wrappers {

  /** Python's `None`-or-value, for lookups that may miss. */
  datatype Option<T> = None | Some(value: T) {
    function GetOr(default: T): T {
      if Some? then value else default
    }
  }

  /** The outcome of a step that may raise: either a value or the exception's class name. */
  datatype Result<T> = Ok(value: T) | Raise(error: string) {
    predicate IsFailure() {
      Raise?
    }

    function PropagateFailure<U>(): Result<U>
      requires Raise?
    {
      Raise(error)
    }

    function Extract(): T
      requires Ok?
    {
      value
    }
  }
}

/** Option and Result types standing in for Python's `None` and raised exceptions. */
module Wrappers {

  /** `None` or a present value. */
  datatype Option<+T> = None | Some(value: T)

  /** The Python exceptions the mapping and layout code can raise. */
  datatype Exception =
    | ValueError(message: string)
    | StopIteration
    | IndexError
    | AttributeError(name: string)
    | NotImplementedError

  /** A returned value, or the exception that was raised instead. */
  datatype Result<+T> = Ok(value: T) | Err(error: Exception) {

    predicate IsFailure() {
      Err?
    }

    function PropagateFailure<U>(): Result<U>
      requires Err?
    {
      Err(error)
    }

    function Extract(): T
      requires Ok?
    {
      value
    }
  }
}

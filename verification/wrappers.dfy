/** Python's exceptions, as the values a failed operation returns. */
module Wrappers {

  /** The exceptions the interpreter can raise. */
  datatype PyError =
    | KeyError(key: string)   // a dict lookup of an absent key
    | IndexError              // a string or list index out of range
    | ValueError              // `int(...)` of a character that is not a digit
    | StopIteration           // `next(...)` over a generator that yields nothing

  /** The value of an expression, or the exception it raises. */
  datatype Result<+T> = Ok(value: T) | Err(error: PyError) {
    predicate IsFailure() {
      Err?
    }

    function PropagateFailure<U>(): Result<U>
      requires Err?
    {
      Err(error)
    }

    function Extract(): T
      requires Ok?
    {
      value
    }
  }

  /** The outcome of a statement that returns nothing: it completes, or it raises. */
  datatype Outcome = Pass | Fail(error: PyError)
}

/** Optional values and results of operations that may throw. */
module Wrappers {
  datatype Option<T> = None | Some(value: T)

  /** The outcome of an operation that returns a value or throws a runtime error. */
  datatype Result<T> = Ok(value: T) | Err(message: string)
  {
    predicate IsFailure()
    {
      Err?
    }

    function PropagateFailure<U>(): Result<U>
      requires Err?
    {
      Err(message)
    }

    function Extract(): T
      requires Ok?
    {
      value
    }
  }

  /** The outcome of an operation without a value that may throw. */
  datatype Outcome = Pass | Fail(message: string)
}

/** Option and Result, used where the source returns null/undefined or throws. */
module Wrappers {
  datatype Option<+T> = None | Some(value: T)

  /** Err stands for an exception that leaves the call; its payload is the message. */
  datatype Result<+T> = Ok(value: T) | Err(error: string) {
    predicate IsFailure() { Err? }

    function PropagateFailure<U>(): Result<U>
      requires Err?
    {
      Err(error)
    }

    function Extract(): T
      requires Ok?
    {
      value
    }
  }
}

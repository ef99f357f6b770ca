/** Failure values shared by the models: absent values and thrown exceptions. */
module Wrappers {
  datatype Option<+T> = None | Some(value: T)

  // The three members are what `:-` uses to pass an error on to the caller.
  datatype Result<+T, +E> = Ok(value: T) | Err(error: E) {
    predicate IsFailure() { Err? }

    function PropagateFailure<U>(): Result<U, E>
      requires Err?
    {
      Err(error)
    }

    function Extract(): T
      requires Ok?
    {
      value
    }
  }
}

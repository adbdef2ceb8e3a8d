/** Failure-compatible wrappers shared by every module of the model.
    `Option` stands for a C# nullable reference, `Result` for a call that
    either returns a value or throws. */
module Wrappers {

  /** A nullable value: `None` is C#'s `null`. */
  datatype Option<+T> = None | Some(value: T)

  /** The outcome of a call that may throw: `Err` carries the exception kind. */
  datatype Result<+T, +E> = Ok(value: T) | Err(error: E) {

    predicate IsFailure() {
      Err?
    }

    function PropagateFailure<U>(): Result<U, E>
      requires Err?
    {
      Err(error)
    }

    function Extract(): T
      requires Ok?
    {
      value
    }
  }
}

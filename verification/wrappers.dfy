/** Failure-carrying datatypes shared by every module of the model.
    `Option` stands for a JavaScript value that may be `undefined` (or a SQL
    `NULL`); `Result` stands for a computation that may throw. */
module Wrappers {

  datatype Option<+T> = None | Some(value: T) {

    /** Returns the value in `Some`, or `default` for `None`. */
    function GetOr(default: T): T {
      match this
      case Some(v) => v
      case None => default
    }
  }

  /** `Err` carries the message of the exception a JavaScript function throws. */
  datatype Result<+T> = Ok(value: T) | Err(message: string) {

    predicate IsFailure() {
      Err?
    }

    function PropagateFailure<U>(): Result<U>
      requires Err?
    {
      Err(message)
    }

    function Extract(): T
      requires Ok?
    {
      value
    }
  }
}

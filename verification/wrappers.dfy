/** Failure-compatible datatypes used throughout the model: `Option` for the
    source's optional keys and `undefined` results, `Result` for code paths that
    throw. */
module Wrappers {

  /** A value that may be absent (a missing key, or `undefined`). */
  datatype Option<+T> = None | Some(value: T) {

    /** The value if present, otherwise the given default. */
    function GetOr(default: T): T {
      match this
      case Some(v) => v
      case None => default
    }
  }

  /** The outcome of a computation that may throw: `Err` carries the message of
      the error the source raises. */
  datatype Result<+T> = Ok(value: T) | Err(error: string) {

    predicate IsFailure() {
      Err?
    }

    function PropagateFailure<U>(): Result<U>
      requires Err?
    {
      Err(error)
    }

    function Extract(): T
      requires Ok?
    {
      value
    }
  }
}

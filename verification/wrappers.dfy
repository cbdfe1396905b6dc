/** Optional values and fallible results.

  Go's `*string` fields become `Option<string>`, and every `(T, error)` pair a
  Go call returns becomes a `Result<T>` whose error is the message text. */
module Wrappers {

  /** A value that may be absent: `None` plays the part of a nil pointer. */
  datatype Option<+T> = None | Some(value: T) {

    /** The held value, or `default` when absent. */
    function GetOr(default: T): T {
      match this
      case Some(v) => v
      case None => default
    }
  }

  /** The outcome of a call that can fail with a human-readable message. */
  datatype Result<+T> = Ok(value: T) | Err(error: string) {

    /** True on failure; lets `:-` propagate the error. */
    predicate IsFailure() {
      Err?
    }

    /** The same failure at another value type. */
    function PropagateFailure<U>(): Result<U>
      requires Err?
    {
      Err(error)
    }

    /** The value of a success. */
    function Extract(): T
      requires Ok?
    {
      value
    }
  }
}

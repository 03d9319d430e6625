/** Failure-compatible wrappers shared by the model: PHP's nullable values become
    `Option`, and thrown exceptions become the `Err` arm of a `Result`. */
module Results {

  /** A value that may be missing (PHP `null`, or an unset array key). */
  datatype Option<T> = None | Some(value: T) {

    /** PHP's null-coalescing `$x ?? default`. */
    function GetOr(default: T): T {
      match this
      case Some(v) => v
      case None => default
    }
  }

  /** The outcome of an operation that may throw: `Ok` carries the return value,
      `Err` the reason the source would have thrown. */
  datatype Result<T, E> = Ok(value: T) | Err(error: E) {

    predicate IsFailure() {
      Err?
    }

    function PropagateFailure<U>(): Result<U, E>
      requires Err?
    {
      Err(error)
    }

    function Extract(): T
      requires Ok?
    {
      value
    }
  }

  /** Reading a configuration key that is not there: Laravel raises PHP's
      "Undefined array key" warning as an exception. */
  datatype ConfigError = UndefinedKey(key: string)
}

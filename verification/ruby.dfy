/** Ruby's `nil` and raised exceptions, as the datatypes the rest of the model uses. */
module Ruby {

  /** A value that may be absent; Ruby's `nil` is `None`. */
  datatype Option<+T> = None | Some(value: T) {

    /** The carried value, or `default` when there is none. */
    function OrElse(default: T): T {
      match this
      case Some(v) => v
      case None => default
    }
  }

  /** The outcome of an operation that may raise: `Failure` stands for an exception. */
  datatype Result<+T, +E> = Success(value: T) | Failure(error: E)
}

/** Failure-carrying wrappers shared by the whole model. */
module Common {

  /** A value that may be absent: a nullable column, or a keyword argument
      the caller did not pass. */
  datatype Option<T> = None | Some(value: T) {
    function GetOr(default: T): T {
      match this
      case Some(v) => v
      case None => default
    }
  }

  /** The result of an operation that either produces a value or fails. */
  datatype Result<T, E> = Ok(value: T) | Err(error: E)

  /** The result of an operation that produces nothing but may fail. */
  datatype Outcome<E> = Pass | Fail(error: E)
}

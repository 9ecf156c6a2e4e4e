/** An optional value (the source's nullable references) and a
    value-or-exception result (a value, or the exception the source would
    throw). */
module Wrappers {

  /** A value that may be absent; stands for a Java reference that may be null. */
  datatype Option<+T> = None | Some(value: T) {

    /** The wrapped value, or `default` when absent. */
    function GetOr(default: T): T {
      match this
      case Some(v) => v
      case None => default
    }
  }

  /** Either a computed value or the error the computation ends in. */
  datatype Result<+T, +E> = Success(value: T) | Failure(error: E)
}

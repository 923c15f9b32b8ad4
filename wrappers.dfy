/** Optional values and results with an error, shared by the server and the client models. */
module Wrappers {

  /** A value that may be absent: JavaScript's undefined/null, Python's None. */
  datatype Option<+T> = None | Some(value: T) {

    /** The value, or `default` when absent. */
    function GetOr(default: T): T {
      match this
      case Some(v) => v
      case None => default
    }
  }

  /** The outcome of an operation that can fail with an error `E`. */
  datatype Result<+R, +E> = Success(value: R) | Failure(error: E)
}

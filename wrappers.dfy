/** Optional values (Java's nullable references and java.util.Optional) and results
    (a value or the exception an operation throws). */
module Wrappers {

  datatype Option<+T> = None | Some(value: T) {
    function GetOr(default: T): T {
      match this
      case Some(v) => v
      case None => default
    }
  }

  datatype Result<+R, +E> = Ok(value: R) | Err(error: E) {
    /** Applies `f` to the error of a failed result, as a `catch` that rethrows does. */
    function MapError<E2>(f: E -> E2): Result<R, E2> {
      match this
      case Ok(v) => Ok(v)
      case Err(e) => Err(f(e))
    }
  }
}

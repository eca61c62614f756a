/** Option and Result, the two failure-carrying types the rest of the model uses. */
module Wrappers {

  /** A value that may be absent: a missing cell (pandas NaN) or a failed lookup. */
  datatype Option<+T> = None | Some(value: T) {
    function GetOr(default: T): T {
      match this
      case Some(v) => v
      case None => default
    }
  }

  /** The outcome of an operation that can raise. */
  datatype Result<+R, +E> = Ok(value: R) | Err(error: E)

  /** Applies f inside an Option: NaN stays NaN. */
  function MapOption<T, U>(f: T -> U, o: Option<T>): Option<U> {
    match o
    case Some(v) => Some(f(v))
    case None => None
  }
}

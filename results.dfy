/** Failure-carrying values used in place of JavaScript's `undefined` and exceptions. */
module Results {

  /** A value that may be absent (an optional property that is `undefined`). */
  datatype Option<+T> = None | Some(value: T)

  /** The outcome of a call that either returns a value or throws. */
  datatype Result<+T, +E> = Success(value: T) | Failure(error: E) {
    /** The value, if there is one. */
    function ToOption(): Option<T> {
      match this
      case Success(v) => Some(v)
      case Failure(_) => None
    }
  }
}

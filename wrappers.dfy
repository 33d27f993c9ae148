/** Failure-carrying values used where the widget's JavaScript returns `undefined` or throws. */
module Wrappers {

  datatype Option<+T> = None | Some(value: T)

  datatype Result<+T, +E> = Success(value: T) | Failure(error: E) {

    /** The success value, or None for a failure. */
    function ToOption(): Option<T>
    {
      match this
      case Success(v) => Some(v)
      case Failure(_) => None
    }
  }

  datatype Outcome<+E> = Pass | Fail(error: E)
}

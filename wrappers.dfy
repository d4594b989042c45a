/** The optional-value and success-or-failure types shared by both components. */
module Wrappers {

  /** A value that may be absent; Python's `None` (and NumPy's NaN marker) is `None`. */
  datatype Option<+T> = None | Some(value: T)

  /** The outcome of an operation that either returns a value or fails with an error. */
  datatype Result<+T, +E> = Success(value: T) | Failure(error: E)
}

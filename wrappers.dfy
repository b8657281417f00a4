/** Optional values and results with an error, shared by the geometry engine and the widget. */
module Wrappers {

  /** A value that may be absent (`undefined` in the widget's props). */
  datatype Option<+T> = None | Some(value: T)

  /** The outcome of an operation that may throw. */
  datatype Result<+T, +E> = Ok(value: T) | Err(error: E)
}

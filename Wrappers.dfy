/** Optional values and results with an error, as the parsers' out-parameters are modelled. */
module Wrappers {

  /** A value that may be absent: the model of a nullable reference. */
  datatype Option<+T> = None | Some(value: T)

  /** The outcome of an operation that either yields a value or reports why it did not. */
  datatype Result<+T, +E> = Success(value: T) | Failure(error: E)
}

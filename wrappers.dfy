/** Option and Result, the two failure-carrying shapes the pipeline needs. */
module Wrappers {

  /** A value that may be missing: a blank spreadsheet cell, a NaN in a pandas column. */
  datatype Option<+T> = None | Some(value: T)

  /** The outcome of a step that either produces a value or raises an error. */
  datatype Result<+T, +E> = Success(value: T) | Failure(error: E)
}

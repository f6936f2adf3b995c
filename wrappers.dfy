/** Option and Result, the two shapes every handler result takes in this model. */
module Wrappers {

  /** A present value, or the missing value pandas writes as NaN (or Python's None). */
  datatype Option<+T> = None | Some(value: T)

  /** A payload, or the error the handler raises instead of returning one. */
  datatype Result<+T, +E> = Success(value: T) | Failure(error: E)
}

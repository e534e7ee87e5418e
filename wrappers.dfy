/** Option and Result, for the lookups that may find nothing and the steps that raise. */
module Wrappers {

  datatype Option<+T> = None | Some(value: T)

  /** `Failure` carries what the pipeline reports when it aborts (a list of missing names). */
  datatype Result<+R, +E> = Success(value: R) | Failure(error: E)
}

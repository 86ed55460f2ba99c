/** Optional values and results with an error, used for nullable cells, failed lookups and failing stages. */
module Wrappers {

  /** A value that may be missing: None stands for a null (NaN/NaT) cell or an unmatched lookup. */
  datatype Option<+T> = None | Some(value: T)

  /** The outcome of a stage that can raise: Failure carries what went wrong. */
  datatype Result<+R, +E> = Success(value: R) | Failure(error: E)
}

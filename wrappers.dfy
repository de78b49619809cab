/** Optional values and results with an error, shared by the ledger and the placement screen. */
module Wrappers {

  /** A value that may be missing: an absent database row, an unknown purchase order, a `null` column. */
  datatype Option<+T> = None | Some(value: T)

  /** The outcome of a request handler: the value it responds with, or the error it rejects the request with. */
  datatype Result<+T, +E> = Success(value: T) | Failure(error: E)
}

/** Optional values and error-carrying results, used for every abstract outcome
    (a query, a scan, a signer) that the handlers branch on. */
module Wrappers {

  datatype Option<+T> = None | Some(value: T)

  datatype Result<+R, +E> = Success(value: R) | Failure(error: E)
}

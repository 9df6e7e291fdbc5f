/** Optional values and success/failure outcomes, used for the source's optional
    out-parameters (boost::optional, Python None) and for its exceptions. */
module Wrappers {

  datatype Option<+T> = None | Some(value: T)

  datatype Result<+T, +E> = Success(value: T) | Failure(error: E)
}

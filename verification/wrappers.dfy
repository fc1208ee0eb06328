/** Optional values and failing results, the two shapes the JavaScript code
    expresses with `null`/`undefined` and with a thrown `Error`. */
module Wrappers {

  datatype Option<+T> = None | Some(value: T)

  datatype Result<+R, +E> = Success(value: R) | Failure(error: E)
}

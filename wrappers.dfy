/** Option and Result: "absent" (a nil pointer or a nil interface) and the
    error-or-value pairs that the modelled Go code returns. */
module Wrappers {

  datatype Option<+T> = None | Some(value: T)

  datatype Result<+T, +E> = Success(value: T) | Failure(error: E)
}

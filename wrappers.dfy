/** Wrappers used by the hub resolver model: a Go
    `error` that may be nil is an `Option<Error>`, and a Go pair
    `(value, error)` is a `Result`. */
module Wrappers {

  datatype Option<+T> = None | Some(value: T)

  datatype Result<+R, +E> = Success(value: R) | Failure(error: E)
}

/** An optional value (a nullable column, a `.first()` that may find nothing)
    and a value-or-error result (a value, or the error the source would
    raise). */
module Wrappers {

  datatype Option<+T> = None | Some(value: T)

  datatype Result<+R, +E> = Success(value: R) | Failure(error: E)
}

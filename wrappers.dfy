/** Failure-carrying values used by every component: a Python call that raises
    becomes a `Failure` or a `Fail`, a call that returns becomes a `Success` or a `Pass`. */
module Wrappers {

  datatype Option<T> = None | Some(value: T)

  datatype Result<T, E> = Success(value: T) | Failure(error: E)

  datatype Outcome<E> = Pass | Fail(error: E)
}

/** Failure-carrying values shared by the buffer registry and the nodes:
    Python's `None` becomes `Option`, a raised exception becomes `Result`
    or `Outcome`. */
module Wrappers {

  datatype Option<T> = None | Some(value: T)

  datatype Result<T, E> = Success(value: T) | Failure(error: E)

  /** The outcome of an operation that returns nothing but may raise. */
  datatype Outcome<E> = Pass | Fail(error: E)
}

/** Plain datatypes used by the handler model: an optional value, the
    outcome of a call that may reject or throw, and an outcome that carries
    no value (a step that either completes or throws). */
module Wrappers {

  datatype Option<+T> = None | Some(value: T)

  /** The settled state of a promise: resolved with a value or rejected. */
  datatype Result<+R, +E> = Success(value: R) | Failure(error: E)

  /** A step that either completes or throws `error`. */
  datatype Outcome<+E> = Pass | Fail(error: E)
}

/** Failure-carrying results shared by every stage of the pipeline. */
module Wrappers {

  datatype Option<T> = None | Some(value: T)

  /** A value or the error that aborted the computation (the source raises an exception). */
  datatype Result<T, E> = Ok(value: T) | Err(error: E)

  /** Success without a value, or the error raised. */
  datatype Outcome<E> = Pass | Fail(error: E)
}

/** Failure-carrying wrappers used throughout the model: an optional value,
    a value-or-error result, and a pass-or-error outcome for operations that
    return nothing (Python's `-> None` methods that may raise). */
module Outcomes {

  datatype Option<+T> = None | Some(value: T)

  datatype Result<+T, +E> = Ok(value: T) | Err(error: E)

  datatype Outcome<+E> = Pass | Fail(error: E)
}

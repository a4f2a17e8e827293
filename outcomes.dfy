/** Outcome types shared by the model: an optional value, a value-or-error
    result, and the result of running Go code that may panic. */
module Outcomes {

  datatype Option<+T> = None | Some(value: T)

  datatype Result<+T, +E> = Ok(value: T) | Err(error: E)

  /** What a Go call does: it returns a value, or it panics (an index or
      slice out of range, a failed type assertion, a call through a nil
      function value). A panic is not an error return. */
  datatype Run<+T> = Done(value: T) | Panic
}

/** Option and Result: the model's stand-ins for Python's `None` returns and raised exceptions. */
module Wrappers {

  datatype Option<+T> = None | Some(value: T)

  /** `Ok` is a normal return; `Err` is an exception the operation raises to its caller. */
  datatype Result<+T, +E> = Ok(value: T) | Err(error: E)
}

/** Option and Result: the values a call returns instead of throwing. */
module Wrappers {

  datatype Option<+T> = None | Some(value: T)

  /** `Ok` is a normal return; `Err` carries what the call threw. */
  datatype Result<+T, +E> = Ok(value: T) | Err(error: E)
}

/** Optional values and error results shared by the model's modules. */
module Wrappers {

  /** A Python `Optional[T]`: `None` or a present value. */
  datatype Option<+T> = None | Some(value: T)

  /** A value, or the error that a Python function would raise instead of returning. */
  datatype Result<+T, +E> = Ok(value: T) | Err(error: E)
}

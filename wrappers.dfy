/** Option and Result, the error-path carriers used throughout the model. */
module Wrappers {
  datatype Option<T> = None | Some(value: T)

  /** A firmware `shutdown("...")` or a host-side exception is an `Err`. */
  datatype Result<T> = Ok(value: T) | Err(msg: string)
}

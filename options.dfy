/** Failure-carrying wrappers shared by the modules of the model. */
module Options {

  /** A value that may be absent: Python's `None` versus a present value. */
  datatype Option<+T> = None | Some(value: T)

  /** The outcome of a call into the container runtime or a library: a value or the error it raised. */
  datatype Result<+T, +E> = Ok(value: T) | Err(error: E)
}

/** Small value wrappers shared by every module of the model. */
module Common {

  /** A JavaScript value that may be `undefined`. */
  datatype Option<+T> = None | Some(value: T)

  /** The outcome of a step that can throw: its value, or the thrown error. */
  datatype Result<+T, +E> = Ok(value: T) | Err(error: E)
}

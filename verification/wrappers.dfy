/** Small value wrappers shared by the other modules. */
module Wrappers {

  /** A value that may be absent (JavaScript `null`/`undefined`). */
  datatype Option<T> = None | Some(value: T)

  /** The outcome of a call to the hosting platform's API: a value, or the message of the error it threw. */
  datatype Result<T> = Ok(value: T) | Err(message: string)
}

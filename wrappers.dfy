/** Option and Outcome values shared by the whole model. */
module Wrappers {

  /** A value that may be absent: JavaScript's `null` / `undefined`. */
  datatype Option<+T> = None | Some(value: T)

  /** The result of an asynchronous operation that resolves or rejects with a message. */
  datatype Outcome = Resolved | Rejected(message: string)

  /** A value or the error that was thrown while computing it. */
  datatype Result<+T> = Ok(value: T) | Failed(message: string)
}

/** Small failure-compatible wrappers shared by every module of the model. */
module Optional {

  /** A value that may be absent: Python's `None`, TypeScript's `null`/`undefined`. */
  datatype Option<+T> = None | Some(value: T)

  /** The outcome of an operation that can throw: either a value or the thrown message. */
  datatype Result<+T> = Success(value: T) | Failure(message: string)
}

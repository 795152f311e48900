/** Option and Result, the two failure-carrying shapes the model uses in place of
    JavaScript's `undefined` and thrown errors. */
module Wrappers {

  /** `None` stands for a JavaScript value that is `undefined` (an absent key). */
  datatype Option<+T> = None | Some(value: T) {
    function GetOr(default: T): T {
      match this
      case Some(v) => v
      case None => default
    }
  }

  /** A thrown JavaScript `Error`, reduced to its `message`. */
  datatype Error = Error(message: string)

  /** The outcome of an async call: the value it resolves to, or the error it throws. */
  datatype Result<+T> = Ok(value: T) | Err(error: Error)
}

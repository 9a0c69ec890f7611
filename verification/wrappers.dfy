/** Option and Result, the two wrappers the model uses for absent keys and thrown errors. */
module Wrappers {

  /** A slot that may be absent: `None` is a key the object does not carry. */
  datatype Option<+T> = None | Some(value: T) {
    function GetOr(default: T): T {
      match this
      case Some(v) => v
      case None => default
    }
  }

  /** A computation that either returns a value or throws (`Err` carries what was thrown). */
  datatype Result<+T, +E> = Ok(value: T) | Err(error: E)
}

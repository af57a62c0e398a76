/** Option and Result, the two wrappers the handlers are written with. */
module Wrappers {

  /** A nullable value: a NULL column, or a field the request body left out. */
  datatype Option<+T> = None | Some(value: T) {

    /** The wrapped value, or `default` when there is none (Rust's `unwrap_or`). */
    function GetOr(default: T): T {
      match this
      case Some(v) => v
      case None => default
    }
  }

  /** The outcome of a handler: a value, or the error returned to the client. */
  datatype Result<+T, +E> = Ok(value: T) | Err(error: E)
}

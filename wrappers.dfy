/** Option and Result values: `null`/`undefined` fields and thrown errors of the dashboard. */
module Wrappers {

  /** A value that may be absent (`null` or `undefined` in the dashboard's JSON). */
  datatype Option<+T> = None | Some(value: T) {
    function GetOr(default: T): T {
      match this
      case Some(v) => v
      case None => default
    }
  }

  /** The outcome of an operation that either yields a value or throws an error carrying a message. */
  datatype Result<+T, +E> = Ok(value: T) | Err(error: E)
}

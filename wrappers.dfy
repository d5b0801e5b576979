/** Option and Result, used wherever the JavaScript code has `undefined`,
    `null`, or a thrown exception. */
module Wrappers {

  /** A value that may be absent (`undefined` / `null` in the source). */
  datatype Option<+T> = None | Some(value: T) {
    function GetOr(default: T): T {
      match this
      case Some(v) => v
      case None => default
    }
  }

  /** The outcome of a step that may throw. */
  datatype Result<+T> = Ok(value: T) | Failed
}

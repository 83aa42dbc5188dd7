/** Option and Result, the two failure-carrying values the model needs. */
module Wrappers {

  /** A value that may be missing: JavaScript's `undefined`/`null`, or a
      `NaN` where a number is expected. */
  datatype Option<+T> = None | Some(value: T) {
    function GetOr(default: T): T {
      match this
      case Some(v) => v
      case None => default
    }
  }

  /** The outcome of a form handler: the record it stores, or the text of
      the alert it shows instead. */
  datatype Result<+R> = Ok(value: R) | Rejected(message: string)
}

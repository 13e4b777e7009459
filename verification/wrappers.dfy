/** Small failure-carrying datatypes shared by the rest of the model. */
module Wrappers {

  /** A value that may be absent: a missing JSON field, a SQL NULL, no selection. */
  datatype Option<+T> = None | Some(value: T) {

    /** The wrapped value, or `default` when there is none (JavaScript's `x || default`
        for values that are never falsy when present). */
    function GetOr(default: T): T {
      match this
      case Some(v) => v
      case None => default
    }
  }

  /** The outcome of a request handler: a JSON body, or the `{ error }` body of a 500 reply. */
  datatype Result<+T> = Ok(value: T) | Err(message: string)
}

/** Optional values and results with an error, used wherever the source returns None or raises. */
module Wrappers {

  datatype Option<+T> = None | Some(value: T) {
    function GetOr(default: T): T {
      match this
      case Some(v) => v
      case None => default
    }
  }

  datatype Result<+R, +E> = Ok(value: R) | Err(error: E)
}

/** The exceptions the core raises or lets through, by Python exception class. */
module Errors {

  datatype PyError =
    | ValueError(message: string)
    | TypeError(message: string)
    | KeyError(key: string)
      /** An exception raised by the completion client, re-raised unchanged. */
    | ClientError(message: string)
}

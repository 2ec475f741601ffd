/** Optional values and results with an error message, as the TypeScript code
    uses `undefined` and thrown `Error`s. */
module Wrappers {

  datatype Option<+T> = None | Some(value: T) {
    function GetOr(default: T): T {
      match this
      case Some(v) => v
      case None => default
    }
  }

  /** The outcome of an operation that may throw `new Error(message)`. */
  datatype Result<+T> = Ok(value: T) | Err(message: string)
}

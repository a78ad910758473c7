/** Option for nullable values, Result for a promise that resolves or rejects.
    - Option<T> stands for a JavaScript value that may be null/undefined.
    - Result<T> stands for a promise that either resolves with a value or
      rejects with an (opaque) error, the way every network call here does.
 */
module Wrappers {

  datatype Option<+T> = None | Some(value: T) {

    /** Returns the value held in Some, or the default when None */
    function GetOr(default: T): T {
      match this
      case Some(v) => v
      case None => default
    }
  }

  /** Outcome of a network request: resolved with a value, or rejected with an error message. */
  datatype Result<+T> = Ok(value: T) | Err(error: string)
}

/** Optional and fallible values: the model's stand-ins for JavaScript's `null`
    and for thrown errors. */
module Wrappers {

  datatype Option<+T> = None | Some(value: T) {
    function GetOr(default: T): T {
      match this
      case Some(v) => v
      case None => default
    }
  }

  /** `Failure` carries the message of the `Error` the source throws. */
  datatype Result<+R> = Success(value: R) | Failure(error: string)
}

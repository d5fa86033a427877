/** Optional values and results with an error, as the routes return them. */
module Wrappers {

  datatype Option<+T> = None | Some(value: T) {
    function GetOr(default: T): T {
      match this
      case Some(v) => v
      case None => default
    }
  }

  datatype Result<+R, +E> = Ok(value: R) | Err(error: E)

  /** The gateway or the store either answers or throws. */
  datatype Reply<+T> = Threw | Returned(value: T)
}

/** Optional values (Python's `None`) and operation outcomes that can raise. */
module Wrappers {

  /** `None` stands for Python's `None`, `Some(v)` for a present value. */
  datatype Option<+T> = None | Some(value: T) {
    function GetOr(default: T): T {
      match this
      case Some(v) => v
      case None => default
    }
  }

  /** The outcome of an operation that either returns a value or raises an
      exception whose `str(e)` is `error`. */
  datatype Result<+T> = Ok(value: T) | Err(error: string)
}

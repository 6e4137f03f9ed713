/** Optional values, and the result of a Python call: the value it returns or the
    text (`str(e)`) of the exception it raises. */
module Wrappers {

  datatype Option<+T> = None | Some(value: T) {
    function GetOr(default: T): T {
      match this
      case Some(v) => v
      case None => default
    }
  }

  /** `Ok(v)`: the call returned `v`; `Raise(error)`: it raised an exception whose
      `str()` is `error`. */
  datatype Outcome<+T> = Ok(value: T) | Raise(error: string)
}

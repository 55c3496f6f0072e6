/** Python exceptions as values: the scripts only ever look at an exception's
    class (what `except` matches) and at `str(e)`, its message. */
module Exceptions {

  datatype Kind =
    | FileNotFoundError
    | RuntimeError
    | ValueError
    | OtherError(name: string)

  datatype Exception = Exception(kind: Kind, message: string)

  /** The value of an expression that either returns or raises. */
  datatype Result<T> = Ok(value: T) | Raised(error: Exception)

  /** A call made for its effect only: it completes or raises. */
  datatype Status = Done | Failed(error: Exception)
}

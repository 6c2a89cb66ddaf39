/** Small shared datatypes: optional values, bytes. */
module Wrappers {

  /** Python's `None` or a value. */
  datatype Option<T> = None | Some(value: T)
  {
    function GetOr(default: T): T
    {
      match this
      case None => default
      case Some(v) => v
    }
  }

  /** A value, or the message of the exception that was raised instead. */
  datatype Result<T> = Success(value: T) | Failure(error: string)

  /** An unsigned 8-bit value, the element of a Python `bytes` object. */
  type byte = x: int | 0 <= x < 256

  type Bytes = seq<byte>
}

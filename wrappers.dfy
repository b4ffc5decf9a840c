/** Option and Result, and the error taxonomy of the library. */
module Wrappers {

  datatype Option<+T> = None | Some(value: T) {
    function GetOr(default: T): T {
      match this
      case Some(v) => v
      case None => default
    }
  }

  datatype Result<+R, +E> = Ok(value: R) | Err(error: E)

  /** The exceptions the library raises, by PHP class, with their messages. */
  datatype Error =
    | RuntimeError(msg: string)          // \RuntimeException
    | InvalidArgument(msg: string)       // \InvalidArgumentException
    | EncryptError(msg: string)          // Illuminate EncryptException
    | DecryptError(msg: string)          // Illuminate DecryptException
    | SodiumFailure(reason: string)      // \SodiumException raised inside libsodium bindings
    | ValueError(reason: string)         // PHP engine error raised by random_bytes
    | TypeError(reason: string)          // PHP engine error for an argument of the wrong type
    | Fatal(reason: string)              // PHP fatal error (e.g. unbounded recursion)
}

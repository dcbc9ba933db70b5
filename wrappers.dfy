/** Option and Result values, used wherever the back-office returns None or raises. */
module Wrappers {
  datatype Option<+T> = None | Some(value: T) {
    function GetOr(default: T): T { if Some? then value else default }
  }

  /** A raised exception becomes `Err`, carrying what the message names. */
  datatype Result<+T, +E> = Ok(value: T) | Err(error: E)
}

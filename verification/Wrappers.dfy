/** The two result shapes the model uses for Go's nil pointers and error returns. */
module Wrappers {

  /** A pointer that may be nil, or a lookup that may find no row. */
  datatype Option<+T> = None | Some(value: T) {
    function GetOr(default: T): T {
      if Some? then value else default
    }
  }

  /** A value or an error; the error texts themselves are not modelled. */
  datatype Result<+T> = Ok(value: T) | Err
}

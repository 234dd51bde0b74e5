/** Option and Result, the two wrappers the rules engine uses for a
    missing value (JavaScript `null`/`undefined`) and for a thrown error. */
module Wrappers {

  datatype Option<+T> = None | Some(value: T)

  datatype Result<+T, +E> = Ok(value: T) | Err(error: E)
}

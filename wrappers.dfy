/** Optional values (Go's nil pointers and nil maps) and results that may
    carry a Go `error`, represented by the text its Error() method returns. */
module Wrappers {

  datatype Option<+T> = None | Some(value: T)

  datatype Result<+T> = Ok(value: T) | Err(error: string)
}

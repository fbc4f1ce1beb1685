/** Option and Result, the shapes of Go's "value or nil" and "(value, error)" returns. */
module Wrappers {

  datatype Option<+T> = None | Some(value: T)

  /** A Go `(value, err)` pair where exactly one side is meaningful; errors are their Error() text. */
  datatype Result<+T> = Ok(value: T) | Err(error: string)

  /** Opening and JSON-decoding a file: which step failed, with its error text, or the decoded value. */
  datatype FileLoad<+T> = OpenFailed(openError: string) | DecodeFailed(decodeError: string) | Loaded(value: T)
}

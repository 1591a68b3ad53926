/** Small shared types: an optional value and an HTTP reply. */
module Common {

  /** A value that may be missing (JavaScript `undefined`). */
  datatype Option<+T> = None | Some(value: T)

  /** The status code and message body a handler sends back. */
  datatype Reply = Reply(status: int, message: string)

  /** The generic message every 500 reply of the API carries. */
  const InternalErrorMessage: string := "An Unknown Error Occurred"
}

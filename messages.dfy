/**
 * The values the call/response protocol exchanges: Go's dynamically typed
 * payload values, its `error` values, the two wire headers and the messages
 * the codec encodes onto a channel one at a time.
 */
module Messages {
  import opened Wrappers

  /** A Go `error`; only its message is observable. */
  datatype Error = Error(message: string)

  /**
   * A handler's return value or a streamed value (Go's `any`): the nil
   * interface, a value that implements `error`, or any other value, held
   * abstractly by its encoded form.
   */
  datatype Value = Nil | ErrorValue(message: string) | Datum(repr: string)

  /** CallHeader: the selector naming the remote operation. */
  datatype CallHeader = CallHeader(s: string)

  /** ResponseHeader: `e` is the remote error message (Go `*string`), `c` the continue flag. */
  datatype ResponseHeader = ResponseHeader(e: Option<string>, c: bool)

  /** One value encoded on a channel: a response header or a payload value. */
  datatype Msg = Header(header: ResponseHeader) | Payload(value: Value)

  /**
   * What the peer's next encoded value turns into when the codec decodes it:
   * a value, or a decode failure.
   */
  datatype Incoming = Decoded(value: Value) | Undecodable(failure: Error)
}

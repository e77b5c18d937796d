/**
 * The error taxonomy of the client (`WebSocketError`), and Swift's open `Error`
 * existential, of which `WebSocketError` is one conforming type.
 */
module WebSocketErrors {

  /** An octet of a UTF-8 or binary payload. */
  newtype byte = b: int | 0 <= b < 256

  type Bytes = seq<byte>

  /**
   * Any Swift `Error`: either one of the client's own kinds, or an error
   * raised by code outside the model (the JSON coders, the transport),
   * identified only by its description.
   */
  datatype Error =
    | WebSocket(kind: WebSocketError)
    | Foreign(description: string)

  /**
   * The client's error kinds. `EncodingFaild` keeps the source's spelling;
   * `DecodingFailed` exists in the taxonomy but nothing in the client raises it.
   */
  datatype WebSocketError =
    | ConnectionFailed
    | Disconnected
    | InvalidMessage
    | DecodingFailed(decodingCause: Error)
    | EncodingFaild(encodingCause: Error)
    | ServerError(message: string)

  /** The detail `send` attaches when the encoded bytes are not valid UTF-8. */
  const NotUtf8Detail: string := "Failed to encode message as UTF-8 string"

  /** True of an error that `send` raised after it found a transport. */
  predicate IsEncodingFailure(e: Error) {
    e.WebSocket? && e.kind.EncodingFaild?
  }
}

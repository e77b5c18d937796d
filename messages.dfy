/** The frames the client sends: the authentication payload and the generic envelope. */
module Messages {
  import opened Wrappers

  /**
   * `AuthPayload`: a token; its `action` is a constant member, not a field,
   * so no payload can carry another action.
   */
  datatype AuthPayload = AuthPayload(token: string) {
    const action: string := "authenticate"
  }

  /** Every auth payload, whatever its token, carries the action "authenticate". */
  lemma AuthActionIsConstant(token: string)
    ensures AuthPayload(token).token == token
    ensures AuthPayload(token).action == "authenticate"
  {
  }

  /** `WebSocketMessage.Meta`: optional metadata; a date is an instant in seconds. */
  datatype Meta = Meta(timestamp: Option<int>)

  /** `WebSocketMessage<T>`: a free-form type tag, a payload and optional metadata. */
  datatype WebSocketMessage<T> = WebSocketMessage(kind: string, payload: T, meta: Option<Meta>)
}

/** Values shared by the four form components: optional query parameters,
    the settled outcome of a remote call, and the alert message a form shows. */
module Common {

  /** A value that may be absent: `URLSearchParams.get` yields `null` for a
      missing parameter, and several fields start as `null`. */
  datatype Option<+T> = None | Some(value: T)

  /** Either a value or an error, for decisions that end in an inline error. */
  datatype Result<+T, +E> = Ok(value: T) | Err(error: E)

  /** How the awaited promise of a call to the authentication client
      settles: it resolves or it rejects (the `catch` branch). */
  datatype Outcome = Resolved | Rejected

  /** The `"success" | "error"` type of an alert message, also the type of
      the email-verification page's status. */
  datatype MessageType = Success | Error

  /** The `{ type, text }` message a form keeps in its state. */
  datatype Message = Message(kind: MessageType, text: string)

  /** JavaScript truthiness of a `string | null`: neither null nor "". */
  predicate Truthy(s: Option<string>)
  {
    s.Some? && s.value != ""
  }
}

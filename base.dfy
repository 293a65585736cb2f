/** Values shared by every part of the bridge: optional values, the exceptions the
    JavaScript code throws, and the result of an operation that may throw. */
module Base {

  datatype Option<T> = None | Some(value: T)

  /** The exceptions the bridge can raise. */
  datatype JsError =
    | InvalidStateErr            // send() before the connection is established
    | NullFlash                  // a call through `__flash` while it is still null
    | UnknownSocket(id: nat)     // `__instances[id]` is undefined, so `.__handleEvent` fails
    | UnknownEventType(kind: string)
    | MalformedUri               // URIError: encodeURIComponent or decodeURIComponent rejected its input

  /** The completion of a call: a returned value or a thrown exception. */
  datatype Result<T> = Return(value: T) | Throw(error: JsError)

  type Listener = nat    // a callback, known only by its identity (`===`)
}

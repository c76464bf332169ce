/**
 * The part of `apiCall` that is not transport: its credential precondition and
 * the rule that a response carrying an `error` field is a failure. The HTTP
 * request itself is a collaborator; its result enters the model as a `Reply`.
 */
module Api {
  import opened Credentials

  /**
   * What the transport delivers for one request: a transport failure, or a parsed
   * JSON object with its `error` field ("" when absent or falsy) and its payload.
   */
  datatype Reply<T> = TransportError | Response(error: string, data: T)

  /** The settled promise that `apiCall` returns. */
  datatype Outcome<T> = Resolved(value: T) | Rejected

  /** The promise settles with the payload only when the transport succeeded and no `error` is set. */
  function Settle<T>(reply: Reply<T>): (o: Outcome<T>)
    ensures o.Resolved? <==> reply.Response? && reply.error == ""
    ensures o.Resolved? ==> o.value == reply.data
  {
    match reply
    case TransportError => Rejected
    case Response(error, data) => if error != "" then Rejected else Resolved(data)
  }

  /** `apiCall` makes a request only when a usable API key is stored; otherwise it logs out and throws. */
  predicate HasApiKey(store: Store)
    ensures HasApiKey(store) <==> KeyApiKey in store && store[KeyApiKey] != ""
  {
    GetStoredCredentials(store).key.Some?
  }

  /** An error field always wins over the payload, whatever the payload is. */
  lemma ErrorFieldRejects<T>(error: string, data: T)
    requires error != ""
    ensures Settle(Response(error, data)).Rejected?
  {
  }
}

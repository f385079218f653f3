/** Values exchanged between the plugin and the document store. The HTTP
    transport is replaced by the outcome each request completes with. */
module Wire {

  datatype Option<T> = None | Some(value: T)

  /** How a request completes: the transport failed, or the store answered
      with a status code and its reason phrase. */
  datatype Response = TransportError | Reply(status: int, message: string)

  /** A reply carrying the given status (any reason phrase). */
  predicate HasStatus(r: Response, status: int) {
    r.Reply? && r.status == status
  }

  datatype Verb = HEAD | PUT | POST

  /** A JSON value, as far as the fixed provisioning bodies need one. */
  datatype Json = JObject(members: seq<(string, Json)>) | JString(s: string)

  /** A field of a metric document. Timestamps and metric values are doubles
      that are only passed through; integers stand in for them. */
  datatype Field = Time(t: int) | Text(s: string) | Number(n: int)

  datatype Body = NoBody | JsonBody(json: Json) | Document(fields: map<string, Field>)

  /** One request issued to the store. */
  datatype Request = Request(verb: Verb, url: string, body: Body)
}

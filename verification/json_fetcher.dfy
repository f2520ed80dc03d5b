/**
 * `EtherscanJSONFetcher.Fetch` (fetchers/JSONFetcher.go): one GET whose body
 * is decoded twice, once into the caller's typed destination (in place, errors
 * ignored) and once into an untyped object whose `status` member decides
 * between "response ready" and an error built from its `message` member.
 */
module JsonFetcher {
  import opened Base
  import opened Wire
  import opened Runtime

  /** The provider's success sentinel in the `status` member. */
  const SuccessStatus := "1"

  /**
   * The type assertions `untypedResponse["status"].(string)` and, on a failure
   * status, `untypedResponse["message"].(string)` succeed. Otherwise Go panics;
   * the model makes it a precondition.
   */
  predicate NoPanic(reply: Reply, decodeObject: string -> Outcome<JsonObject>)
  {
    reply.Response? && decodeObject(reply.body).Value? ==>
      var obj := decodeObject(reply.body).value;
      && "status" in obj && obj["status"].JString?
      && (obj["status"].text != SuccessStatus ==> "message" in obj && obj["message"].JString?)
  }

  /** The JSON object of the reply declares success. */
  predicate Succeeded(reply: Reply, decodeObject: string -> Outcome<JsonObject>)
  {
    && reply.Response?
    && decodeObject(reply.body).Value?
    && "status" in decodeObject(reply.body).value
    && decodeObject(reply.body).value["status"] == JString(SuccessStatus)
  }

  /** What one fetch signals: `None` for "response ready", otherwise the error. */
  function Status(reply: Reply, decodeObject: string -> Outcome<JsonObject>): (r: Option<Error>)
    requires NoPanic(reply, decodeObject)
    // a transport error is passed on verbatim
    ensures reply.TransportError? ==> r == Some(reply.error)
    // a body that is not a JSON object gives the decoding error
    ensures reply.Response? && decodeObject(reply.body).Failed? ==> r == Some(decodeObject(reply.body).error)
    // ready exactly when status is "1"
    ensures r == None <==> Succeeded(reply, decodeObject)
    // any other status gives the message member, verbatim
    ensures reply.Response? && decodeObject(reply.body).Value? && !Succeeded(reply, decodeObject) ==>
              r == Some(Message(decodeObject(reply.body).value["message"].text))
  {
    match reply
    case TransportError(e) => Some(e)
    case Response(_, _, body) =>
      match decodeObject(body)
      case Failed(e) => Some(e)
      case Value(obj) =>
        if obj["status"].text != SuccessStatus then Some(Message(obj["message"].text)) else None
  }

  /** The destination after the fetch: decoded onto whenever a body was read. */
  function Decoded<T>(reply: Reply, unmarshal: (string, T) -> T, before: T): T
  {
    if reply.Response? then unmarshal(reply.body, before) else before
  }

  method Fetch<T>(client: Client, url: string, dest: Payload<T>, unmarshal: (string, T) -> T,
                  decodeObject: string -> Outcome<JsonObject>) returns (err: Option<Error>)
    requires NoPanic(client.serve(url), decodeObject)
    modifies client, dest
    ensures client.requested == old(client.requested) + [url]
    ensures err == Status(client.serve(url), decodeObject)
    // decoded before the status check, so also on the error paths that read a body
    ensures dest.value == Decoded(client.serve(url), unmarshal, old(dest.value))
  {
    var reply := client.Get(url);
    if reply.TransportError? {
      return Some(reply.error);
    }
    dest.value := unmarshal(reply.body, dest.value);
    var untyped := decodeObject(reply.body);
    if untyped.Failed? {
      return Some(untyped.error);
    }
    if untyped.value["status"].text != SuccessStatus {
      return Some(Message(untyped.value["message"].text));
    }
    err := None;
  }

  /** Only the transport error and the `status` member decide; the HTTP status never does. */
  lemma StatusCodeIgnored(code1: int, status1: string, code2: int, status2: string, body: string,
                          decodeObject: string -> Outcome<JsonObject>)
    requires NoPanic(Response(code1, status1, body), decodeObject)
    ensures NoPanic(Response(code2, status2, body), decodeObject)
    ensures Status(Response(code1, status1, body), decodeObject) == Status(Response(code2, status2, body), decodeObject)
  {
  }
}

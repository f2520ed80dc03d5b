/**
 * `WebNumberFetcher.Fetch` (fetchers/NumberFetcher.go): one GET whose whole
 * body is a decimal number. The reply is classified into exactly one of a
 * value or an error.
 */
module NumberFetcher {
  import opened Base

  /**
   * The lowest status treated as a failure: the 3xx, 4xx and 5xx classes of
   * section 15 of RFC 9110 (and anything above them).
   */
  const FirstFailureStatus: int := 300

  /** The error of a failure status: the body when there is one, else the status text. */
  function StatusError(status: string, body: string): (e: Error)
    ensures |body| > 0 ==> e == Message(body)
    ensures |body| == 0 ==> e == Message(status)
  {
    if |body| > 0 then Message(body) else Message(status)
  }

  function Fetch(reply: Reply, parse: string -> Option<real>): (r: Outcome<real>)
    // a transport error is passed on verbatim
    ensures reply.TransportError? ==> r == Failed(reply.error)
    // a failure status gives the body, or the status text when the body is empty
    ensures reply.Response? && reply.statusCode >= FirstFailureStatus ==>
              r == Failed(StatusError(reply.status, reply.body))
    // a value is produced exactly when the status is below 300 and the body parses, and it is that number
    ensures r.Value? <==> reply.Response? && reply.statusCode < FirstFailureStatus && parse(reply.body).Some?
    ensures r.Value? ==> r.value == parse(reply.body).value
    // an unparsable success body gives the parse error for that body
    ensures reply.Response? && reply.statusCode < FirstFailureStatus && parse(reply.body).None? ==>
              r == Failed(NumError(reply.body))
  {
    match reply
    case TransportError(e) => Failed(e)
    case Response(code, status, body) =>
      if code >= FirstFailureStatus then Failed(StatusError(status, body))
      else match parse(body)
        case None => Failed(NumError(body))
        case Some(v) => Value(v)
  }

  /** The body of a failure reply is never handed to the parser. */
  lemma ErrorBodyNeverParsed(code: int, status: string, body: string, p: string -> Option<real>, q: string -> Option<real>)
    requires code >= FirstFailureStatus
    ensures Fetch(Response(code, status, body), p) == Fetch(Response(code, status, body), q)
    ensures Fetch(Response(code, status, body), p).Failed?
  {
  }

  /** 299 still goes to the parser; 300 is already a failure. */
  lemma StatusBoundary(status: string, body: string, parse: string -> Option<real>)
    requires parse(body).Some?
    ensures Fetch(Response(FirstFailureStatus - 1, status, body), parse) == Value(parse(body).value)
    ensures Fetch(Response(FirstFailureStatus, status, body), parse).Failed?
  {
  }
}

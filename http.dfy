/**
 * HTTP exchanges as the client sees them through Laravel's HTTP client:
 * the request it hands over and the response it gets back. The transport
 * itself (connections, timeouts, retries) is not modelled.
 */
module Http {
  import opened Wrappers
  import opened PhpValues

  datatype Verb = GET | POST | PUT | DELETE

  /** One file part of a multipart body, as `attach` receives it. */
  datatype Attachment = Attachment(name: Value, contents: Value, filename: Value)

  datatype Payload =
    | NoPayload
    | Data(data: seq<Entry>)              // form or JSON data
    | Xml(xml: string)                    // a raw `application/xml` body
    | Parts(parts: seq<Attachment>)       // attached files

  /** `retry($times, $sleep)` as set on a pending request. */
  datatype Retry = Retry(times: Value, sleep: Value)

  /** The transport settings a pending request carries: timeouts and, when set, retries. */
  datatype Options = Options(timeout: Value, connectTimeout: Value, retry: Option<Retry>)

  /**
   * A request as the client hands it over: for GET the query goes as URL
   * parameters in `query`; the other verbs carry any query string already
   * appended to `url`.
   */
  datatype Request = Request(verb: Verb, url: string, query: seq<Entry>, payload: Payload, options: Options)

  /** The outcome of `json_decode($body, true)`: a syntax error, or the decoded value. */
  datatype Parse = Invalid | Decoded(v: Value)

  datatype Response = Response(status: int, body: string, json: Parse)

  /** `$response->failed()`: a client or server error status. */
  predicate Failed(r: Response)
  {
    r.status >= 400
  }

  /** `$response->json()`: the decoded body, null when it does not decode. */
  function Json(r: Response): (v: Value)
    ensures r.json.Invalid? ==> v == Null
    ensures r.json.Decoded? ==> v == r.json.v
  {
    match r.json
    case Invalid => Null
    case Decoded(v) => v
  }
}

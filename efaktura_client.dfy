/**
 * `EfakturaClient`: the one object that talks to the e-invoicing API. It
 * holds the API key, the base URL and the transport settings, hands each
 * request to the transport and turns each response into an array or an
 * `EfakturaException`.
 *
 * The transport is not modelled: the client's `server` gives the response
 * to each request, which may depend on every request handed over before
 * it, and `sent` records the requests in the order they were handed over. `http_build_query` is a library call and is given to the
 * client as `encodeQuery`.
 */
module Client {
  import opened Wrappers
  import opened PhpValues
  import opened Http
  import opened EfakturaExceptions

  const ProductionUrl: string := "https://efaktura.mfin.gov.rs"
  const DemoUrl: string := "https://demoefaktura.mfin.gov.rs"

  /** `rtrim($s, '/')`: `s` without its trailing slashes. */
  function RTrimSlash(s: string): (r: string)
    ensures r <= s
    ensures r == [] || r[|r| - 1] != '/'
    ensures forall i :: |r| <= i < |s| ==> s[i] == '/'
  {
    if s != [] && s[|s| - 1] == '/' then RTrimSlash(s[..|s| - 1]) else s
  }

  /** Trimming is idempotent, and a URL without a trailing slash is kept as given. */
  lemma {:induction false} RTrimSlashKeeps(s: string)
    ensures RTrimSlash(RTrimSlash(s)) == RTrimSlash(s)
    ensures s == [] || s[|s| - 1] != '/' ==> RTrimSlash(s) == s
    ensures RTrimSlash(s + "/") == RTrimSlash(s)
  {
    assert (s + "/")[..|s + "/"| - 1] == s;
  }

  /** `$config[$outer][$inner]`, present and not null, when `$config[$outer]` is an array. */
  function Nested(config: seq<Entry>, outer: string, inner: string): (r: Option<Value>)
    ensures r.Some? ==> r.value != Null
    ensures r.Some? <==> IsSet(config, StrKey(outer)) && Lookup(config, StrKey(outer)).value.Arr? &&
                         IsSet(Lookup(config, StrKey(outer)).value.entries, StrKey(inner))
  {
    if IsSet(config, StrKey(outer)) && Lookup(config, StrKey(outer)).value.Arr? &&
       IsSet(Lookup(config, StrKey(outer)).value.entries, StrKey(inner))
    then Some(Lookup(Lookup(config, StrKey(outer)).value.entries, StrKey(inner)).value)
    else None
  }

  /** `$config[$outer][$inner] ?? $default`. */
  function NestedOr(config: seq<Entry>, outer: string, inner: string, default: Value): Value
  {
    match Nested(config, outer, inner)
    case Some(v) => v
    case None => default
  }

  /**
   * The settings `makeRequest` puts on every request: timeout (default 30),
   * connect timeout (default 10), and a retry only when `retry.times`
   * (default 0) is above zero by PHP's loose `>`, passing that value on as
   * it is and sleeping `retry.sleep` (default 100) between attempts.
   */
  function OptionsOf(config: seq<Entry>): (o: Options)
    ensures o.timeout == Coalesce(config, StrKey("timeout"), Int(30))
    ensures o.connectTimeout == Coalesce(config, StrKey("connect_timeout"), Int(10))
    ensures o.retry.Some? <==> Nested(config, "retry", "times").Some? && AboveZero(Nested(config, "retry", "times").value)
    ensures o.retry.Some? ==> o.retry.value.times == Nested(config, "retry", "times").value &&
                              o.retry.value.sleep == NestedOr(config, "retry", "sleep", Int(100))
  {
    var times := NestedOr(config, "retry", "times", Int(0));
    var retry := if AboveZero(times) then Some(Retry(times, NestedOr(config, "retry", "sleep", Int(100)))) else None;
    Options(Coalesce(config, StrKey("timeout"), Int(30)), Coalesce(config, StrKey("connect_timeout"), Int(10)), retry)
  }

  /**
   * A retry count given as a decimal string, as `env()` returns it, turns
   * retries on exactly when the number it spells is above zero, and is
   * passed on as the string.
   */
  lemma StringTimesRetry(config: seq<Entry>, negative: bool, d: string)
    requires AllDigits(d) && |d| > 0
    requires Nested(config, "retry", "times") == Some(Str((if negative then "-" else "") + d))
    ensures OptionsOf(config).retry.Some? <==> !negative && DigitsValue(d) > 0
    ensures OptionsOf(config).retry.Some? ==> OptionsOf(config).retry.value.times == Str((if negative then "-" else "") + d)
  {
    DecimalTextAboveZero(negative, d, (if negative then "-" else "") + d);
  }

  /** With nothing configured, the defaults: 30 and 10 seconds, no retry. */
  lemma DefaultOptions()
    ensures OptionsOf([]) == Options(Int(30), Int(10), None)
  {
    assert !IsSet([], StrKey("timeout")) && !IsSet([], StrKey("connect_timeout"));
    assert Nested([], "retry", "times").None?;
  }

  /**
   * `handleResponse`: a failed response raises the exception built from
   * it; an empty body ('' or '0') gives an empty array; a body that is not
   * JSON gives `['raw' => body]`; a JSON array is returned as decoded. Any
   * other JSON (a scalar, or null) is refused by the `array` return type.
   * Building the exception can itself fail (see `FromResponse`); then that
   * error is what the call raises.
   */
  function HandleResponse(resp: Response): (r: Result<seq<Entry>, Failure>)
    ensures Failed(resp) ==> r.Err?
    ensures Failed(resp) && FromResponse(resp, "").Ok? ==> r == Err(Efaktura(FromResponse(resp, "").value))
    ensures Failed(resp) && FromResponse(resp, "").Err? ==> r == Err(FromResponse(resp, "").error)
    ensures !Failed(resp) && !TruthyString(resp.body) ==> r == Ok([])
    ensures !Failed(resp) && TruthyString(resp.body) && resp.json.Invalid? ==> r == Ok(Single("raw", Str(resp.body)))
    ensures !Failed(resp) && TruthyString(resp.body) && resp.json.Decoded? ==>
              (r.Ok? <==> resp.json.v.Arr?) && (r.Ok? ==> r.value == resp.json.v.entries)
  {
    if Failed(resp) then
      var e :- FromResponse(resp, "");
      Err(Efaktura(e))
    else if !TruthyString(resp.body) then Ok([])
    else
      match resp.json
      case Invalid => Ok(Single("raw", Str(resp.body)))
      case Decoded(Arr(es)) => Ok(es)
      case Decoded(_) => Err(TypeError("handleResponse(): Return value must be of type array"))
  }

  /** `getFile`'s tail: the raw body, byte for byte, unless the response failed. */
  function FileResponse(resp: Response): (r: Result<string, Failure>)
    ensures !Failed(resp) ==> r == Ok(resp.body)
  {
    if Failed(resp) then
      var e :- FromResponse(resp, "");
      Err(Efaktura(e))
    else Ok(resp.body)
  }

  /** A file download fails exactly as a JSON call does, with the same exception. */
  lemma SameFailureRule(resp: Response)
    ensures FileResponse(resp).Err? <==> HandleResponse(resp).Err? && Failed(resp)
    ensures Failed(resp) ==> FileResponse(resp).error == HandleResponse(resp).error
  {
  }

  /** A successful response whose body is not JSON comes back as its text under `raw`. */
  lemma RawSuccess(resp: Response)
    requires !Failed(resp) && TruthyString(resp.body) && resp.json.Invalid?
    ensures HandleResponse(resp).Ok?
    ensures Lookup(HandleResponse(resp).value, StrKey("raw")) == Some(Str(resp.body))
    ensures Keys(HandleResponse(resp).value) == [StrKey("raw")]
  {
  }

  /** `is_resource($item['contents'])`, with `isset` first: the item is an array holding an open stream. */
  predicate Attachable(item: Value)
  {
    item.Arr? && IsSet(item.entries, StrKey("contents")) && Lookup(item.entries, StrKey("contents")).value.Resource?
  }

  /** An attachable item without `name`: `$item['name']` is read unguarded and throws. */
  predicate Unnamed(item: Value)
  {
    Attachable(item) && StrKey("name") !in Keys(item.entries)
  }

  /** `attach($item['name'], $item['contents'], $item['filename'] ?? null)`. */
  function AttachmentOf(item: Value): (r: Result<Attachment, Failure>)
    requires Attachable(item)
    ensures r.Ok? <==> !Unnamed(item)
    ensures r.Err? ==> r.error == UndefinedKey("name")
    ensures r.Ok? ==> Lookup(item.entries, StrKey("name")) == Some(r.value.name) &&
                      Lookup(item.entries, StrKey("contents")) == Some(r.value.contents) &&
                      r.value.filename == Coalesce(item.entries, StrKey("filename"), Null)
  {
    var name :- Required(item.entries, "name");
    Ok(Attachment(name, Lookup(item.entries, StrKey("contents")).value, Coalesce(item.entries, StrKey("filename"), Null)))
  }

  /**
   * The files `postMultipart` attaches: the attachable items, in order.
   * The first attachable item without `name` throws, whatever follows it.
   */
  function Attachments(items: seq<Value>): (r: Result<seq<Attachment>, Failure>)
    ensures r.Ok? <==> forall i :: 0 <= i < |items| ==> !Unnamed(items[i])
    ensures r.Err? ==> r.error == UndefinedKey("name")
    ensures r.Ok? ==> |r.value| <= |items|
  {
    if items == [] then Ok([])
    else
      var init, last := items[..|items| - 1], items[|items| - 1];
      assert forall i :: 0 <= i < |init| ==> init[i] == items[i];
      var parts :- Attachments(init);
      if Attachable(last) then
        var part :- AttachmentOf(last);
        Ok(parts + [part])
      else Ok(parts)
  }

  /**
   * Items that are not open streams are skipped; those that are keep
   * their order, each under its own name, contents and filename.
   */
  lemma {:induction false} AttachmentsFilter(items: seq<Value>)
    ensures (forall i :: 0 <= i < |items| ==> !Attachable(items[i])) ==> Attachments(items) == Ok([])
    ensures (forall i :: 0 <= i < |items| ==> Attachable(items[i]) && !Unnamed(items[i])) ==>
      Attachments(items).Ok? && |Attachments(items).value| == |items|
    ensures Attachments(items).Ok? ==>
      forall a :: a in Attachments(items).value ==>
        exists i :: 0 <= i < |items| && Attachable(items[i]) && AttachmentOf(items[i]) == Ok(a)
  {
    if items != [] {
      var init := items[..|items| - 1];
      AttachmentsFilter(init);
      assert forall i :: 0 <= i < |init| ==> init[i] == items[i];
    }
  }

  class EfakturaClient {
    const apiKey: string
    const baseUrl: string
    const config: seq<Entry>
    /** The API: the response it gives to a request, after the requests already sent. */
    const server: (seq<Request>, Request) -> Response
    /** `http_build_query`. */
    const encodeQuery: seq<Entry> -> string
    /** The requests handed to the transport so far, oldest first. */
    var sent: seq<Request>

    /** `new EfakturaClient($apiKey, $baseUrl, $config)`: the base URL loses its trailing slashes. */
    constructor(apiKey: string, baseUrl: string, config: seq<Entry>, server: (seq<Request>, Request) -> Response, encodeQuery: seq<Entry> -> string)
      ensures this.apiKey == apiKey && this.baseUrl == RTrimSlash(baseUrl) && this.config == config
      ensures this.server == server && this.encodeQuery == encodeQuery
      ensures sent == []
    {
      this.apiKey := apiKey;
      this.baseUrl := RTrimSlash(baseUrl);
      this.config := config;
      this.server := server;
      this.encodeQuery := encodeQuery;
      sent := [];
    }

    /** `buildQueryString`: nothing for an empty query, else '?' and the encoded pairs. */
    function BuildQueryString(query: seq<Entry>): (s: string)
      ensures s == "" <==> query == []
      ensures query != [] ==> s[0] == '?' && s[1..] == encodeQuery(query)
    {
      if query == [] then "" else "?" + encodeQuery(query)
    }

    /** The URL of a `post`, `postXml`, `postMultipart` or `put`: the endpoint, then the query string. */
    function WithQuery(endpoint: string, query: seq<Entry>): (url: string)
      ensures query == [] ==> url == endpoint
      ensures query != [] ==> url == endpoint + "?" + encodeQuery(query)
    {
      assert endpoint + "" == endpoint;
      endpoint + BuildQueryString(query)
    }

    /** The request `verb` on `url` as `makeRequest` prepares it. */
    function Prepared(verb: Verb, url: string, query: seq<Entry>, payload: Payload): (req: Request)
    {
      Request(verb, url, query, payload, OptionsOf(config))
    }

    /** Hands `req` to the transport and returns the response. */
    method Send(req: Request) returns (resp: Response)
      modifies this
      ensures sent == old(sent) + [req]
      ensures resp == server(old(sent), req)
    {
      resp := server(sent, req);
      sent := sent + [req];
    }

    /** `get($endpoint, $query)`. */
    method Get(endpoint: string, query: seq<Entry>) returns (r: Result<seq<Entry>, Failure>)
      modifies this
      ensures sent == old(sent) + [Prepared(GET, endpoint, query, NoPayload)]
      ensures r == HandleResponse(server(old(sent), Prepared(GET, endpoint, query, NoPayload)))
    {
      var resp := Send(Prepared(GET, endpoint, query, NoPayload));
      r := HandleResponse(resp);
    }

    /** `post($endpoint, $data, $query)`: the query goes into the URL. */
    method Post(endpoint: string, data: seq<Entry>, query: seq<Entry>) returns (r: Result<seq<Entry>, Failure>)
      modifies this
      ensures sent == old(sent) + [Prepared(POST, WithQuery(endpoint, query), [], Data(data))]
      ensures r == HandleResponse(server(old(sent), Prepared(POST, WithQuery(endpoint, query), [], Data(data))))
    {
      var resp := Send(Prepared(POST, WithQuery(endpoint, query), [], Data(data)));
      r := HandleResponse(resp);
    }

    /** `postXml($endpoint, $xml, $query)`: the XML is the raw body. */
    method PostXml(endpoint: string, xml: string, query: seq<Entry>) returns (r: Result<seq<Entry>, Failure>)
      modifies this
      ensures sent == old(sent) + [Prepared(POST, WithQuery(endpoint, query), [], Xml(xml))]
      ensures r == HandleResponse(server(old(sent), Prepared(POST, WithQuery(endpoint, query), [], Xml(xml))))
    {
      var resp := Send(Prepared(POST, WithQuery(endpoint, query), [], Xml(xml)));
      r := HandleResponse(resp);
    }

    /**
     * `postMultipart($endpoint, $multipart, $query)`: every item holding an
     * open stream is attached. An attachable item without `name` throws
     * while the request is being built, so nothing is sent.
     */
    method PostMultipart(endpoint: string, multipart: seq<Value>, query: seq<Entry>) returns (r: Result<seq<Entry>, Failure>)
      modifies this
      ensures Attachments(multipart).Err? ==> r == Err(UndefinedKey("name")) && sent == old(sent)
      ensures Attachments(multipart).Ok? ==>
        sent == old(sent) + [Prepared(POST, WithQuery(endpoint, query), [], Parts(Attachments(multipart).value))] &&
        r == HandleResponse(server(old(sent), Prepared(POST, WithQuery(endpoint, query), [], Parts(Attachments(multipart).value))))
    {
      var parts := [];
      var i := 0;
      while i < |multipart|
        invariant 0 <= i <= |multipart|
        invariant Attachments(multipart[..i]) == Ok(parts)
      {
        assert multipart[..i + 1][..i] == multipart[..i];
        var item := multipart[i];
        if Attachable(item) {
          var part := AttachmentOf(item);
          if part.Err? {
            assert Unnamed(multipart[i]);
            return Err(part.error);
          }
          parts := parts + [part.value];
        }
        i := i + 1;
      }
      assert multipart[..i] == multipart;
      var resp := Send(Prepared(POST, WithQuery(endpoint, query), [], Parts(parts)));
      r := HandleResponse(resp);
    }

    /** `put($endpoint, $data, $query)`. */
    method Put(endpoint: string, data: seq<Entry>, query: seq<Entry>) returns (r: Result<seq<Entry>, Failure>)
      modifies this
      ensures sent == old(sent) + [Prepared(PUT, WithQuery(endpoint, query), [], Data(data))]
      ensures r == HandleResponse(server(old(sent), Prepared(PUT, WithQuery(endpoint, query), [], Data(data))))
    {
      var resp := Send(Prepared(PUT, WithQuery(endpoint, query), [], Data(data)));
      r := HandleResponse(resp);
    }

    /** `delete($endpoint, $data)`. */
    method Delete(endpoint: string, data: seq<Entry>) returns (r: Result<seq<Entry>, Failure>)
      modifies this
      ensures sent == old(sent) + [Prepared(DELETE, endpoint, [], Data(data))]
      ensures r == HandleResponse(server(old(sent), Prepared(DELETE, endpoint, [], Data(data))))
    {
      var resp := Send(Prepared(DELETE, endpoint, [], Data(data)));
      r := HandleResponse(resp);
    }

    /** `getFile($endpoint, $query)`: the raw body, with the same failure rule. */
    method GetFile(endpoint: string, query: seq<Entry>) returns (r: Result<string, Failure>)
      modifies this
      ensures sent == old(sent) + [Prepared(GET, endpoint, query, NoPayload)]
      ensures r == FileResponse(server(old(sent), Prepared(GET, endpoint, query, NoPayload)))
    {
      var resp := Send(Prepared(GET, endpoint, query, NoPayload));
      r := FileResponse(resp);
    }
  }
}

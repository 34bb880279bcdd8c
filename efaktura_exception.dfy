/**
 * The exception the client raises for a failed API response, and the
 * throwables a call can end in.
 */
module EfakturaExceptions {
  import opened Wrappers
  import opened PhpValues
  import opened Http

  /**
   * An `EfakturaException`: message and code as any exception has them, plus
   * the decoded response body, the HTTP status and the response itself.
   * Nothing changes these after construction.
   */
  datatype EfakturaException = EfakturaException(
    message: string,
    code: int,
    responseBody: Option<seq<Entry>>,
    httpStatusCode: Option<int>,
    response: Option<Response>)

  /** What a call can throw. */
  datatype Failure =
    | Efaktura(e: EfakturaException)
    | TypeError(what: string)             // a strict-typing violation
    | Error(what: string)                 // another PHP `Error`, e.g. a protected method called from outside
    | ErrorException(message: string)     // a PHP warning, rethrown by Laravel's error handler
    | InvalidArgument(message: string)
    | BadMethodCall(message: string)

  /** `new EfakturaException($message)`: every other argument at its default. */
  function WithMessage(message: string): (e: EfakturaException)
    ensures e.message == message && e.code == 0
    ensures e.responseBody.None? && e.httpStatusCode.None? && e.response.None?
  {
    EfakturaException(message, 0, None, None, None)
  }

  /** What a failed string conversion throws. */
  function CastFailure(f: CastFault): (e: Failure)
    ensures f == ArrayToString ==> e == ErrorException("Array to string conversion")
    ensures f == NotStringable ==> e.Error?
  {
    match f
    case ArrayToString => ErrorException("Array to string conversion")
    case NotStringable => Error("Object could not be converted to string")
  }

  /** The warning an unguarded read of a missing key raises, as Laravel rethrows it. */
  function UndefinedKey(k: string): Failure
  {
    ErrorException("Undefined array key \"" + k + "\"")
  }

  /**
   * `$a['k']` read without `??` or `isset`: the stored value, which may be
   * `null`, when the key is there; the rethrown warning when it is not.
   */
  function Required(es: seq<Entry>, k: string): (r: Result<Value, Failure>)
    ensures r.Ok? <==> StrKey(k) in Keys(es)
    ensures r.Ok? ==> Lookup(es, StrKey(k)) == Some(r.value)
    ensures r.Err? ==> r.error == UndefinedKey(k)
  {
    match Lookup(es, StrKey(k))
    case Some(v) => Ok(v)
    case None => Err(UndefinedKey(k))
  }

  /**
   * `implode($sep, $items)`: the items' string forms joined by `sep`. The
   * items are converted in order, so the first one that cannot be
   * converted decides what is thrown.
   */
  function Implode(sep: string, items: seq<Entry>): (r: Result<string, CastFault>)
    ensures r.Ok? <==> forall i :: 0 <= i < |items| ==> StringCast(items[i].val).Ok?
    ensures |items| == 1 && r.Ok? ==> r.value == StringCast(items[0].val).value
    ensures items != [] && StringCast(items[0].val).Err? ==> r == Err(StringCast(items[0].val).error)
  {
    if items == [] then Ok("")
    else
      var head := StringCast(items[0].val);
      var tail := Implode(sep, items[1..]);
      assert forall i :: 1 <= i < |items| ==> items[i] == items[1..][i - 1];
      if head.Err? then Err(head.error)
      else if tail.Err? then Err(tail.error)
      else if |items| == 1 then head
      else Ok(head.value + sep + tail.value)
  }

  /** A failed `implode` throws the fault of its first item that does not convert. */
  lemma {:induction false} ImplodeFault(sep: string, items: seq<Entry>)
    requires Implode(sep, items).Err?
    ensures exists i :: 0 <= i < |items| && StringCast(items[i].val).Err? &&
              Implode(sep, items).error == StringCast(items[i].val).error &&
              forall j :: 0 <= j < i ==> StringCast(items[j].val).Ok?
  {
    if StringCast(items[0].val).Ok? {
      var tail := items[1..];
      ImplodeFault(sep, tail);
      var i :| 0 <= i < |tail| && StringCast(tail[i].val).Err? &&
               Implode(sep, tail).error == StringCast(tail[i].val).error &&
               forall j :: 0 <= j < i ==> StringCast(tail[j].val).Ok?;
      assert items[i + 1] == tail[i];
      assert forall j :: 1 <= j < i + 1 ==> items[j] == tail[j - 1];
    }
  }

  /**
   * `extractErrorMessage`: the first of `message`, `error` and `Message`
   * that is set; failing those, the `errors` list joined by ", "; failing
   * that, 'Unknown error'. The method is declared to return a string, so a
   * chosen value that is not a string is a TypeError under strict typing.
   */
  function ExtractErrorMessage(body: seq<Entry>): (r: Result<string, Failure>)
    ensures IsSet(body, StrKey("message")) ==> r == AsMessage(Lookup(body, StrKey("message")).value)
    ensures !IsSet(body, StrKey("message")) && IsSet(body, StrKey("error")) ==>
              r == AsMessage(Lookup(body, StrKey("error")).value)
    ensures !IsSet(body, StrKey("message")) && !IsSet(body, StrKey("error")) && IsSet(body, StrKey("Message")) ==>
              r == AsMessage(Lookup(body, StrKey("Message")).value)
    ensures !IsSet(body, StrKey("message")) && !IsSet(body, StrKey("error")) && !IsSet(body, StrKey("Message")) ==>
              if IsSet(body, StrKey("errors")) && Lookup(body, StrKey("errors")).value.Arr? then
                (var joined := Implode(", ", Lookup(body, StrKey("errors")).value.entries);
                 r == if joined.Ok? then Ok(joined.value) else Err(CastFailure(joined.error)))
              else r == Ok("Unknown error")
  {
    if IsSet(body, StrKey("message")) then AsMessage(Lookup(body, StrKey("message")).value)
    else if IsSet(body, StrKey("error")) then AsMessage(Lookup(body, StrKey("error")).value)
    else if IsSet(body, StrKey("Message")) then AsMessage(Lookup(body, StrKey("Message")).value)
    else if IsSet(body, StrKey("errors")) && Lookup(body, StrKey("errors")).value.Arr? then
      match Implode(", ", Lookup(body, StrKey("errors")).value.entries)
      case Ok(s) => Ok(s)
      case Err(f) => Err(CastFailure(f))
    else Ok("Unknown error")
  }

  /** A value returned where a string is declared. */
  function AsMessage(v: Value): (r: Result<string, Failure>)
    ensures r.Ok? <==> v.Str?
    ensures r.Ok? ==> r.value == v.s
  {
    if v.Str? then Ok(v.s) else Err(TypeError("extractErrorMessage(): Return value must be of type string"))
  }

  /**
   * The body an exception keeps: the decoded JSON, or `['raw' => body]`
   * when the body does not decode or decodes to null.
   */
  function StoredBody(resp: Response): (v: Value)
    ensures Json(resp) != Null ==> v == Json(resp)
    ensures Json(resp) == Null ==> v == Arr(Single("raw", Str(resp.body)))
  {
    var j := Json(resp);
    if j != Null then j else Arr(Single("raw", Str(resp.body)))
  }

  /**
   * `EfakturaException::fromResponse`. A stored body that is not an array
   * (a JSON scalar) is refused by the array-typed parameters it is passed to.
   */
  function FromResponse(resp: Response, message: string): (r: Result<EfakturaException, Failure>)
    ensures !StoredBody(resp).Arr? ==> r.Err? && r.error.TypeError?
    ensures r.Ok? ==> r.value.code == resp.status && r.value.httpStatusCode == Some(resp.status)
    ensures r.Ok? ==> r.value.responseBody == Some(StoredBody(resp).entries) && r.value.response == Some(resp)
    ensures StoredBody(resp).Arr? && TruthyString(message) ==> r.Ok? && r.value.message == message
    ensures StoredBody(resp).Arr? && !TruthyString(message) ==>
              (ExtractErrorMessage(StoredBody(resp).entries).Ok? <==> r.Ok?) &&
              (r.Ok? ==> r.value.message == ExtractErrorMessage(StoredBody(resp).entries).value)
  {
    var body := StoredBody(resp);
    if !body.Arr? then Err(TypeError("EfakturaException: responseBody must be of type ?array"))
    else
      var msg := if TruthyString(message) then Ok(message) else ExtractErrorMessage(body.entries);
      match msg
      case Err(f) => Err(f)
      case Ok(m) => Ok(EfakturaException(m, resp.status, Some(body.entries), Some(resp.status), Some(resp)))
  }

  /** `context()`: the status and the body, under exactly these two keys. */
  function Context(e: EfakturaException): (r: seq<Entry>)
    ensures Keys(r) == [StrKey("http_status"), StrKey("response_body")]
    ensures Lookup(r, StrKey("http_status")) == Some(if e.httpStatusCode.Some? then Int(e.httpStatusCode.value) else Null)
    ensures Lookup(r, StrKey("response_body")) == Some(if e.responseBody.Some? then Arr(e.responseBody.value) else Null)
  {
    [Entry(StrKey("http_status"), if e.httpStatusCode.Some? then Int(e.httpStatusCode.value) else Null),
     Entry(StrKey("response_body"), if e.responseBody.Some? then Arr(e.responseBody.value) else Null)]
  }

  /** A failure body that is not JSON yields 'Unknown error' unless the caller gave a message. */
  lemma RawBodyMessage(resp: Response, message: string)
    requires resp.json.Invalid?
    ensures FromResponse(resp, message).Ok?
    ensures FromResponse(resp, message).value.message == if TruthyString(message) then message else "Unknown error"
    ensures FromResponse(resp, message).value.responseBody == Some(Single("raw", Str(resp.body)))
  {
    var body := Single("raw", Str(resp.body));
    assert Keys(body) == [StrKey("raw")];
    assert !IsSet(body, StrKey("message")) && !IsSet(body, StrKey("error"));
    assert !IsSet(body, StrKey("Message")) && !IsSet(body, StrKey("errors"));
  }

  /** `message` wins over `error` wherever the two stand, as long as it is set. */
  lemma MessageWinsOverError(m: string, e: Value, rest: seq<Entry>)
    requires StrKey("message") !in Keys(rest)
    ensures ExtractErrorMessage([Entry(StrKey("message"), Str(m)), Entry(StrKey("error"), e)] + rest) == Ok(m)
  {
    var body := [Entry(StrKey("message"), Str(m)), Entry(StrKey("error"), e)] + rest;
    LookupPastSuffix(body, 2, StrKey("message"));
    assert body[..2][..1] == [Entry(StrKey("message"), Str(m))];
  }

  /**
   * A validation answer such as `{"errors": {"field": ["..."]}}`: the
   * errors list holds an array, so `implode` warns and the message is
   * never built.
   */
  lemma FieldErrorsThrow(body: seq<Entry>, es: seq<Entry>)
    requires body == [Entry(StrKey("errors"), Arr(es))]
    requires es != [] && es[0].val.Arr?
    ensures ExtractErrorMessage(body) == Err(ErrorException("Array to string conversion"))
  {
  }

  /** A key the suffix lacks is found in the prefix. */
  lemma LookupPastSuffix(es: seq<Entry>, n: nat, k: Key)
    requires n <= |es|
    requires Lookup(es[n..], k).None?
    ensures Lookup(es, k) == Lookup(es[..n], k)
    decreases |es|
  {
    if |es| > n {
      assert es[n..][|es[n..]| - 1] == es[|es| - 1];
      assert es[..|es| - 1][n..] == es[n..][..|es[n..]| - 1];
      assert Lookup(es[n..][..|es[n..]| - 1], k).None?;
      LookupPastSuffix(es[..|es| - 1], n, k);
      assert es[..|es| - 1][..n] == es[..n];
    } else {
      assert es[..n] == es;
    }
  }
}

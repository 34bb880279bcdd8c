/**
 * `SalesInvoiceService`: the outgoing-invoice endpoints. Each operation
 * shapes one request, hands it to the shared client and hydrates the
 * answer; the VAT-exemption list goes through the shared cache.
 *
 * `SimpleSalesInvoiceDto`, `SalesInvoicesDto` and the `SendToCir` enum are
 * not part of this model: `get` and `getIds` return the client's array,
 * and a `SendToCir` case is given by its backing string.
 */
module SalesInvoices {
  import opened Wrappers
  import opened PhpValues
  import opened Http
  import opened DtoSchemas
  import opened EfakturaExceptions
  import opened Client
  import opened CacheStores
  import opened Queries
  import opened Dtos

  /** The last path segment of `s`: everything after its last '/'. */
  function LastSegment(s: string): (b: string)
    ensures |b| <= |s| && s[|s| - |b|..] == b
    ensures forall i :: 0 <= i < |b| ==> b[i] != '/'
    ensures |b| < |s| ==> s[|s| - |b| - 1] == '/'
  {
    if s == [] || s[|s| - 1] == '/' then []
    else LastSegment(s[..|s| - 1]) + [s[|s| - 1]]
  }

  /** `basename($path)`: trailing slashes are ignored, then the last segment is kept. */
  function Basename(path: string): string
  {
    LastSegment(RTrimSlash(path))
  }

  /** `$sendToCir->value`, when a `SendToCir` case was given. */
  function UblQuery(requestId: Option<string>, sendToCir: Option<string>, executeValidation: bool): seq<Entry>
  {
    var q := PutIfGiven(PutIfGiven([], "requestId", requestId), "sendToCir", sendToCir);
    Put(q, StrKey("executeValidation"), Str(if executeValidation then "true" else "false"))
  }

  /** The first two steps of the UBL query; `executeValidation` is not yet a key. */
  lemma RequestIdThenSendToCir(requestId: Option<string>, sendToCir: Option<string>)
    ensures PutIfGiven(PutIfGiven([], "requestId", requestId), "sendToCir", sendToCir) ==
      EntryIfGiven("requestId", requestId) + EntryIfGiven("sendToCir", sendToCir)
    ensures StrKey("executeValidation") !in Keys(EntryIfGiven("requestId", requestId) + EntryIfGiven("sendToCir", sendToCir))
  {
    var q1 := PutIfGiven([], "requestId", requestId);
    PutIfGivenAppends([], "requestId", requestId);
    assert Keys(q1) == KeyIfGiven("requestId", requestId);
    PutIfGivenAppends(q1, "sendToCir", sendToCir);
  }

  /**
   * `buildUblQuery`: `requestId` exactly when given, then `sendToCir`
   * exactly when given, then always `executeValidation` as 'true' or
   * 'false'.
   */
  lemma UblQueryEntries(requestId: Option<string>, sendToCir: Option<string>, executeValidation: bool)
    ensures UblQuery(requestId, sendToCir, executeValidation) ==
      EntryIfGiven("requestId", requestId) + EntryIfGiven("sendToCir", sendToCir) +
      [Entry(StrKey("executeValidation"), Str(if executeValidation then "true" else "false"))]
  {
    RequestIdThenSendToCir(requestId, sendToCir);
  }

  /** The `contents` of the upload item: the opened stream, or `false`. */
  function StreamOf(file: FileOutcome<nat>): (v: Value)
    ensures v.Resource? <==> file.Done?
    ensures file.Done? ==> v == Resource(file.value)
  {
    if file.Done? then Resource(file.value) else Bool(false)
  }

  /** The multipart item `uploadUbl` sends: the opened file as `ublFile`, named after the path's last segment. */
  function UblPart(path: string, stream: Value): Value
  {
    UblItem(stream, Basename(path))
  }

  /** `['name' => 'ublFile', 'contents' => $stream, 'filename' => $filename]`. */
  function UblItem(stream: Value, filename: string): Value
  {
    Arr([Entry(StrKey("name"), Str("ublFile")), Entry(StrKey("contents"), stream),
         Entry(StrKey("filename"), Str(filename))])
  }

  /**
   * The upload carries the file when `fopen` opened it, under `ublFile`
   * with the path's base name. When `fopen` gave `false` without a warning
   * the item is skipped and the request goes out with no file; a warning
   * ends `uploadUbl` before any request (see `UploadUbl`). The item always
   * has a `name`, so building the request never throws.
   */
  lemma UblPartAttached(path: string, stream: Value)
    ensures stream.Resource? ==> Attachments([UblPart(path, stream)]) == Ok([Attachment(Str("ublFile"), stream, Str(Basename(path)))])
    ensures !stream.Resource? ==> Attachments([UblPart(path, stream)]) == Ok([])
  {
    UblItemAttached(stream, Basename(path));
  }

  /** The item is attached exactly when its contents are an open stream, under its name and filename. */
  lemma UblItemAttached(stream: Value, filename: string)
    ensures stream.Resource? ==> Attachments([UblItem(stream, filename)]) == Ok([Attachment(Str("ublFile"), stream, Str(filename))])
    ensures !stream.Resource? ==> Attachments([UblItem(stream, filename)]) == Ok([])
  {
    var item := UblItem(stream, filename);
    assert [item][..0] == [];
    UblItemLookups(stream, filename);
    assert Keys(item.entries)[0] == StrKey("name");
    if stream.Resource? {
      assert Attachable(item);
      var part := Attachment(Str("ublFile"), stream, Str(filename));
      assert AttachmentOf(item) == Ok(part);
      assert Attachments([item][..0]) == Ok([]);
      assert [] + [part] == [part];
    }
  }

  /** The upload item's `contents`, `filename` and `name`, each under its own key. */
  lemma UblItemLookups(stream: Value, filename: string)
    ensures Lookup(UblItem(stream, filename).entries, StrKey("contents")) == Some(stream)
    ensures Lookup(UblItem(stream, filename).entries, StrKey("filename")) == Some(Str(filename))
    ensures Lookup(UblItem(stream, filename).entries, StrKey("name")) == Some(Str("ublFile"))
  {
    var es := UblItem(stream, filename).entries;
    var first := [Entry(StrKey("name"), Str("ublFile"))];
    assert es[..2] == first + [Entry(StrKey("contents"), stream)];
    assert es[..2][..1] == first;
    assert Lookup(es[..2], StrKey("contents")) == Some(stream);
    assert Lookup(es[..2], StrKey("name")) == Lookup(first, StrKey("name"));
  }

  /**
   * `(int) ($response[0] ?? $invoiceId)`: the id the API reports as
   * deleted, or the requested one when it reports none.
   */
  function DeletedId(response: seq<Entry>, invoiceId: int): (id: int)
    ensures !IsSet(response, IntKey(0)) ==> id == invoiceId
    ensures Lookup(response, IntKey(0)) == Some(Int(invoiceId)) ==> id == invoiceId
    ensures forall n :: Lookup(response, IntKey(0)) == Some(Int(n)) ==> id == n
    ensures forall s :: Lookup(response, IntKey(0)) == Some(Str(s)) ==> id == StringToInt(s)
  {
    IntCast(Coalesce(response, IntKey(0), Int(invoiceId)))
  }

  /** `findByNumber`: the API has no search by number, so there is never a match. */
  function FindByNumber(invoiceNumber: string): (r: Option<Record>)
    ensures r.None?
  {
    None
  }

  /** The body of `cancel` and `storno`: the id and the reason under `reasonKey`, null included. */
  function ReasonBody(invoiceId: int, reasonKey: string, reason: Option<string>): (body: seq<Entry>)
    ensures Keys(body) == [StrKey("invoiceId"), StrKey(reasonKey)]
  {
    [Entry(StrKey("invoiceId"), Int(invoiceId)), Entry(StrKey(reasonKey), Nullable(reason))]
  }

  const VatName: string := "vat_exemptions"
  const VatCaller: string := "SalesInvoiceService::getVatExemptionReasons"

  class SalesInvoiceService {
    const client: EfakturaClient
    const cacheConfig: seq<Entry>
    const cache: CacheStore

    constructor(client: EfakturaClient, cacheConfig: seq<Entry>, cache: CacheStore)
      ensures this.client == client && this.cacheConfig == cacheConfig && this.cache == cache
    {
      this.client := client;
      this.cacheConfig := cacheConfig;
      this.cache := cache;
    }

    /** The JSON outcome of `req` sent after `history`. */
    function Answer(history: seq<Request>, req: Request): Result<seq<Entry>, Failure>
    {
      HandleResponse(client.server(history, req))
    }

    /** `MiniInvoiceDto::fromArray` of the outcome of `req`. */
    function MiniInvoice(history: seq<Request>, req: Request): Result<Record, Failure>
    {
      var data :- Answer(history, req);
      FromArray(MiniInvoiceDto, data, false)
    }

    /** `InvoiceDto::fromArray` of the outcome of `req`. */
    function Invoice(history: seq<Request>, req: Request): Result<Record, Failure>
    {
      var data :- Answer(history, req);
      FromArray(InvoiceDto, data, false)
    }

    function UploadRequest(path: string, stream: Value, requestId: Option<string>, sendToCir: Option<string>, executeValidation: bool): Request
    {
      client.Prepared(POST, client.WithQuery("/api/publicApi/sales-invoice/ubl/upload", UblQuery(requestId, sendToCir, executeValidation)),
                      [], Parts(UblPartAttached(path, stream); Attachments([UblPart(path, stream)]).value))
    }

    function ImportRequest(xml: string, requestId: Option<string>, sendToCir: Option<string>, executeValidation: bool): Request
    {
      client.Prepared(POST, client.WithQuery("/api/publicApi/sales-invoice/ubl", UblQuery(requestId, sendToCir, executeValidation)),
                      [], Xml(xml))
    }

    function CancelRequest(invoiceId: int, cancelComments: Option<string>): Request
    {
      client.Prepared(POST, "/api/publicApi/sales-invoice/cancel", [], Data(ReasonBody(invoiceId, "cancelComments", cancelComments)))
    }

    function StornoRequest(invoiceId: int, stornoReason: Option<string>): Request
    {
      client.Prepared(POST, "/api/publicApi/sales-invoice/storno", [], Data(ReasonBody(invoiceId, "stornoReason", stornoReason)))
    }

    function VatRequest(): Request
    {
      client.Prepared(GET, "/api/publicApi/sales-invoice/getValueAddedTaxExemptionReasonList", [], NoPayload)
    }

    /** `fetchVatExemptionReasons` after `history`: the list, each item a `ValueAddedTaxExemptionReasonDto`. */
    function VatFetch(history: seq<Request>): Result<seq<Entry>, Failure>
    {
      var data :- Answer(history, VatRequest());
      CollectionOf(ValueAddedTaxExemptionReasonDto, data, false)
    }

    /** `get($invoiceId)`: the invoice by id, as the client's array. */
    method Get(invoiceId: int) returns (r: Result<seq<Entry>, Failure>)
      modifies client
      ensures var req := client.Prepared(GET, "/api/publicApi/sales-invoice", InvoiceQuery(invoiceId), NoPayload);
        client.sent == old(client.sent) + [req] && r == Answer(old(client.sent), req)
    {
      r := client.Get("/api/publicApi/sales-invoice", InvoiceQuery(invoiceId));
    }

    /**
     * `uploadUbl`: the file goes out as the multipart item `ublFile`, the
     * options in the URL. `file` is what `fopen($path, 'r')` gave; its
     * warning, rethrown by Laravel, ends the call before any request.
     */
    method UploadUbl(path: string, file: FileOutcome<nat>, requestId: Option<string>, sendToCir: Option<string>, executeValidation: bool)
      returns (r: Result<Record, Failure>)
      modifies client
      ensures file.Warned? ==> r == Err(ErrorException(file.warning)) && client.sent == old(client.sent)
      ensures !file.Warned? ==>
        client.sent == old(client.sent) + [UploadRequest(path, StreamOf(file), requestId, sendToCir, executeValidation)] &&
        r == MiniInvoice(old(client.sent), UploadRequest(path, StreamOf(file), requestId, sendToCir, executeValidation))
    {
      var query := UblQuery(requestId, sendToCir, executeValidation);
      if file.Warned? {
        return Err(ErrorException(file.warning));
      }
      UblPartAttached(path, StreamOf(file));
      var data :- client.PostMultipart("/api/publicApi/sales-invoice/ubl/upload", [UblPart(path, StreamOf(file))], query);
      r := FromArray(MiniInvoiceDto, data, false);
    }

    /** `importUbl`: the XML is the body, the options in the URL. */
    method ImportUbl(xml: string, requestId: Option<string>, sendToCir: Option<string>, executeValidation: bool)
      returns (r: Result<Record, Failure>)
      modifies client
      ensures client.sent == old(client.sent) + [ImportRequest(xml, requestId, sendToCir, executeValidation)]
      ensures r == MiniInvoice(old(client.sent), ImportRequest(xml, requestId, sendToCir, executeValidation))
    {
      var query := UblQuery(requestId, sendToCir, executeValidation);
      var data :- client.PostXml("/api/publicApi/sales-invoice/ubl", xml, query);
      r := FromArray(MiniInvoiceDto, data, false);
    }

    /**
     * `importUblFromFile`: `content` is what `file_get_contents($path)`
     * gave. Its warning, rethrown by Laravel, ends the call; a `false`
     * without a warning is "Cannot read file"; neither sends a request.
     * Otherwise this is `importUbl` of the content.
     */
    method ImportUblFromFile(path: string, content: FileOutcome<string>, requestId: Option<string>, sendToCir: Option<string>, executeValidation: bool)
      returns (r: Result<Record, Failure>)
      modifies client
      ensures content.Warned? ==> r == Err(ErrorException(content.warning)) && client.sent == old(client.sent)
      ensures content.Quiet? ==> r == Err(Efaktura(WithMessage("Cannot read file: " + path))) && client.sent == old(client.sent)
      ensures content.Done? ==>
        client.sent == old(client.sent) + [ImportRequest(content.value, requestId, sendToCir, executeValidation)] &&
        r == MiniInvoice(old(client.sent), ImportRequest(content.value, requestId, sendToCir, executeValidation))
    {
      match content
      case Warned(w) =>
        return Err(ErrorException(w));
      case Quiet =>
        return Err(Efaktura(WithMessage("Cannot read file: " + path)));
      case Done(text) =>
        r := ImportUbl(text, requestId, sendToCir, executeValidation);
    }

    /** `deleteMultiple($invoiceIds)`: the ids are the DELETE body; the answer is returned as is. */
    method DeleteMultiple(invoiceIds: seq<Entry>) returns (r: Result<seq<Entry>, Failure>)
      modifies client
      ensures var req := client.Prepared(DELETE, "/api/publicApi/sales-invoice", [], Data(invoiceIds));
        client.sent == old(client.sent) + [req] && r == Answer(old(client.sent), req)
    {
      r := client.Delete("/api/publicApi/sales-invoice", invoiceIds);
    }

    /** `delete($invoiceId)`: the id goes in the path; the result is the id the API reports, else the requested one. */
    method Delete(invoiceId: int) returns (r: Result<int, Failure>)
      modifies client
      ensures var req := client.Prepared(DELETE, "/api/publicApi/sales-invoice/" + IntText(invoiceId), [], Data([]));
        client.sent == old(client.sent) + [req] &&
        (r.Ok? <==> Answer(old(client.sent), req).Ok?) &&
        (r.Ok? ==> r.value == DeletedId(Answer(old(client.sent), req).value, invoiceId)) &&
        (r.Err? ==> r.error == Answer(old(client.sent), req).error)
    {
      var response :- client.Delete("/api/publicApi/sales-invoice/" + IntText(invoiceId), []);
      r := Ok(DeletedId(response, invoiceId));
    }

    /** `cancel($invoiceId, $cancelComments)`: both keys are sent, a missing comment as null. */
    method Cancel(invoiceId: int, cancelComments: Option<string>) returns (r: Result<Record, Failure>)
      modifies client
      ensures client.sent == old(client.sent) + [CancelRequest(invoiceId, cancelComments)]
      ensures r == Invoice(old(client.sent), CancelRequest(invoiceId, cancelComments))
    {
      var data :- client.Post("/api/publicApi/sales-invoice/cancel", ReasonBody(invoiceId, "cancelComments", cancelComments), []);
      r := FromArray(InvoiceDto, data, false);
    }

    /** `storno($invoiceId, $stornoReason)`: both keys are sent, a missing reason as null. */
    method Storno(invoiceId: int, stornoReason: Option<string>) returns (r: Result<Record, Failure>)
      modifies client
      ensures client.sent == old(client.sent) + [StornoRequest(invoiceId, stornoReason)]
      ensures r == Invoice(old(client.sent), StornoRequest(invoiceId, stornoReason))
    {
      var data :- client.Post("/api/publicApi/sales-invoice/storno", ReasonBody(invoiceId, "stornoReason", stornoReason), []);
      r := FromArray(InvoiceDto, data, false);
    }

    /** `getPdf($invoiceId)`: the PDF bytes. */
    method GetPdf(invoiceId: int) returns (r: Result<string, Failure>)
      modifies client
      ensures var req := client.Prepared(GET, "/api/publicApi/sales-invoice/pdf", InvoiceQuery(invoiceId), NoPayload);
        client.sent == old(client.sent) + [req] && r == FileResponse(client.server(old(client.sent), req))
    {
      r := client.GetFile("/api/publicApi/sales-invoice/pdf", InvoiceQuery(invoiceId));
    }

    /** `getXml($invoiceId)`: the UBL document. */
    method GetXml(invoiceId: int) returns (r: Result<string, Failure>)
      modifies client
      ensures var req := client.Prepared(GET, "/api/publicApi/sales-invoice/xml", InvoiceQuery(invoiceId), NoPayload);
        client.sent == old(client.sent) + [req] && r == FileResponse(client.server(old(client.sent), req))
    {
      r := client.GetFile("/api/publicApi/sales-invoice/xml", InvoiceQuery(invoiceId));
    }

    /** `getSignature($invoiceId)`: the signature file. */
    method GetSignature(invoiceId: int) returns (r: Result<string, Failure>)
      modifies client
      ensures var req := client.Prepared(GET, "/api/publicApi/sales-invoice/signature", InvoiceQuery(invoiceId), NoPayload);
        client.sent == old(client.sent) + [req] && r == FileResponse(client.server(old(client.sent), req))
    {
      r := client.GetFile("/api/publicApi/sales-invoice/signature", InvoiceQuery(invoiceId));
    }

    /** `getChanges($date)`: an empty body, only `date` in the URL; each item a `SalesInvoiceStatusChangeDto`. */
    method GetChanges(date: string) returns (r: Result<seq<Entry>, Failure>)
      modifies client
      ensures var req := client.Prepared(POST, client.WithQuery("/api/publicApi/sales-invoice/changes", Single("date", Str(date))), [], Data([]));
        client.sent == old(client.sent) + [req] &&
        r == (var data :- Answer(old(client.sent), req); CollectionOf(SalesInvoiceStatusChangeDto, data, false))
    {
      var data :- client.Post("/api/publicApi/sales-invoice/changes", [], Single("date", Str(date)));
      r := CollectionOf(SalesInvoiceStatusChangeDto, data, false);
    }

    /** `getIds`: an empty body, the given filters in the URL. */
    method GetIds(status: Option<string>, dateFrom: Option<string>, dateTo: Option<string>) returns (r: Result<seq<Entry>, Failure>)
      modifies client
      ensures var req := client.Prepared(POST, client.WithQuery("/api/publicApi/sales-invoice/ids", FilterQuery(status, dateFrom, dateTo)), [], Data([]));
        client.sent == old(client.sent) + [req] && r == Answer(old(client.sent), req)
    {
      var query := FilterQuery(status, dateFrom, dateTo);
      r := client.Post("/api/publicApi/sales-invoice/ids", [], query);
    }

    /** `fetchVatExemptionReasons`: always asks the API. */
    method FetchVatExemptionReasons() returns (r: Result<seq<Entry>, Failure>)
      modifies client
      ensures client.sent == old(client.sent) + [VatRequest()]
      ensures r == VatFetch(old(client.sent))
    {
      var data :- client.Get("/api/publicApi/sales-invoice/getValueAddedTaxExemptionReasonList", []);
      r := CollectionOf(ValueAddedTaxExemptionReasonDto, data, false);
    }

    /**
     * `getVatExemptionReasons`: the key is built first (and can fail on a
     * prefix that is not a string). With caching off every call asks the
     * API and the store is untouched; with caching on the call is
     * `Cache::remember` under the key, with the configured time to live.
     */
    method GetVatExemptionReasons() returns (r: Result<seq<Entry>, Failure>)
      modifies client, cache
      ensures var o := Cached(cacheConfig, old(cache.entries), VatName, VatName, VatFetch(old(client.sent)), VatCaller);
        r == o.result && cache.entries == o.entries && client.sent == old(client.sent) + (if o.fetched then [VatRequest()] else [])
    {
      ghost var fetch := VatFetch(client.sent);
      var key := CacheKey(cacheConfig, VatName);
      if key.Err? {
        return Err(key.error);
      }
      var ttl := Ttl(cacheConfig, VatName);
      if Enabled(cacheConfig) {
        var found := cache.Get(key.value);
        if found != Null {
          return ArrayReturn(found, VatCaller);
        }
        r := FetchVatExemptionReasons();
        assert r == fetch;
        if r.Ok? {
          cache.Put(key.value, Arr(r.value), ttl);
        }
        return;
      }
      r := FetchVatExemptionReasons();
    }
  }
}

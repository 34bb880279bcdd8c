/**
 * `PurchaseInvoiceService`: the incoming-invoice endpoints. Each operation
 * shapes one request, hands it to the shared client and hydrates the
 * answer; `accept`, `reject`, their by-CIR forms and `getNew` only fix an
 * argument of another operation.
 */
module PurchaseInvoices {
  import opened Wrappers
  import opened PhpValues
  import opened Http
  import opened DtoSchemas
  import opened EfakturaExceptions
  import opened Client
  import opened Queries
  import opened Dtos
  import SimplePurchaseInvoice

  /**
   * The accept/reject body: the invoice under `idKey`, the decision, and
   * the comment, which is sent as null when there is none.
   */
  function DecisionBody(idKey: string, id: Value, accepted: bool, comment: Option<string>): seq<Entry>
  {
    [Entry(StrKey(idKey), id), Entry(StrKey("accepted"), Bool(accepted)), Entry(StrKey("comment"), Nullable(comment))]
  }

  /**
   * The decision body always has exactly the three keys, in order, and
   * carries the decision and the comment (null when none) as given.
   */
  lemma DecisionBodyEntries(idKey: string, id: Value, accepted: bool, comment: Option<string>)
    requires idKey != "accepted" && idKey != "comment"
    ensures var body := DecisionBody(idKey, id, accepted, comment);
      Keys(body) == [StrKey(idKey), StrKey("accepted"), StrKey("comment")] &&
      Lookup(body, StrKey(idKey)) == Some(id) &&
      Lookup(body, StrKey("accepted")) == Some(Bool(accepted)) &&
      Lookup(body, StrKey("comment")) == Some(if comment.Some? then Str(comment.value) else Null)
  {
    var body := DecisionBody(idKey, id, accepted, comment);
    var first := [Entry(StrKey(idKey), id)];
    assert body[..2] == first + [Entry(StrKey("accepted"), Bool(accepted))];
    assert body[..2][..1] == first;
    assert Lookup(first, StrKey(idKey)) == Some(id);
    assert Lookup(body[..2], StrKey(idKey)) == Lookup(first, StrKey(idKey));
  }

  /** `assignCirInvoice`'s query: `AssignerPartyJBKJS`, then `AssignationContractNumber`, each only when given. */
  function AssignQuery(assignerPartyJbkjs: Option<string>, assignationContractNumber: Option<string>): seq<Entry>
  {
    PutIfGiven(PutIfGiven([], "AssignerPartyJBKJS", assignerPartyJbkjs), "AssignationContractNumber", assignationContractNumber)
  }

  /** The assignment query holds exactly the given identifiers, in source order. */
  lemma AssignQueryEntries(assignerPartyJbkjs: Option<string>, assignationContractNumber: Option<string>)
    ensures AssignQuery(assignerPartyJbkjs, assignationContractNumber) ==
      EntryIfGiven("AssignerPartyJBKJS", assignerPartyJbkjs) + EntryIfGiven("AssignationContractNumber", assignationContractNumber)
  {
    var q1 := PutIfGiven([], "AssignerPartyJBKJS", assignerPartyJbkjs);
    PutIfGivenAppends([], "AssignerPartyJBKJS", assignerPartyJbkjs);
    assert Keys(q1) == KeyIfGiven("AssignerPartyJBKJS", assignerPartyJbkjs);
    PutIfGivenAppends(q1, "AssignationContractNumber", assignationContractNumber);
  }

  /** The body of `recordVatReverseCharge`: the invoice, the VAT amount and the comment, null included. */
  function ReverseChargeBody(purchaseInvoiceId: int, vatAmount: FloatRep, comment: Option<string>): seq<Entry>
  {
    [Entry(StrKey("purchaseInvoiceId"), Int(purchaseInvoiceId)), Entry(StrKey("vatAmount"), Float(vatAmount)),
     Entry(StrKey("comment"), Nullable(comment))]
  }

  class PurchaseInvoiceService {
    const client: EfakturaClient
    const cacheConfig: seq<Entry>

    constructor(client: EfakturaClient, cacheConfig: seq<Entry>)
      ensures this.client == client && this.cacheConfig == cacheConfig
    {
      this.client := client;
      this.cacheConfig := cacheConfig;
    }

    /** The JSON outcome of `req` sent after `history`. */
    function Answer(history: seq<Request>, req: Request): Result<seq<Entry>, Failure>
    {
      HandleResponse(client.server(history, req))
    }

    /** `Cls::fromArray` of the outcome of `req`. */
    function Hydrated(history: seq<Request>, req: Request, cls: DtoClass): Result<Record, Failure>
    {
      var data :- Answer(history, req);
      FromArray(cls, data, false)
    }

    /**
     * An answer holding an array under an object-typed property makes
     * `get` (a party) and the accept/reject family (the invoice) fail with
     * a `TypeError` instead of returning a DTO.
     */
    lemma NestedAnswerRejected(history: seq<Request>, req: Request, cls: DtoClass, key: string)
      requires (cls == SimplePurchaseInvoiceDto && key in SimplePurchaseInvoice.Parties) ||
               (cls == AcceptRejectResponseDto && key == "invoice")
      requires Answer(history, req).Ok?
      requires Lookup(Answer(history, req).value, StrKey(key)).Some? && Lookup(Answer(history, req).value, StrKey(key)).value.Arr?
      ensures Hydrated(history, req, cls).Err? && Hydrated(history, req, cls).error.TypeError?
    {
      AsWrittenNestedRejected(cls, Answer(history, req).value, key);
    }

    /** `Cls::collection` of the outcome of `req`. */
    function Listed(history: seq<Request>, req: Request, cls: DtoClass): Result<seq<Entry>, Failure>
    {
      var data :- Answer(history, req);
      CollectionOf(cls, data, false)
    }

    function DecisionRequest(invoiceId: int, accepted: bool, comment: Option<string>): Request
    {
      client.Prepared(POST, "/api/publicApi/purchase-invoice/acceptRejectPurchaseInvoice", [],
                      Data(DecisionBody("invoiceId", Int(invoiceId), accepted, comment)))
    }

    function CirDecisionRequest(cirInvoiceId: string, accepted: bool, comment: Option<string>): Request
    {
      client.Prepared(POST, "/api/publicApi/purchase-invoice/acceptRejectPurchaseInvoiceByCirInvoiceId", [],
                      Data(DecisionBody("cirInvoiceId", Str(cirInvoiceId), accepted, comment)))
    }

    function OverviewRequest(status: Option<string>, dateFrom: Option<string>, dateTo: Option<string>): Request
    {
      client.Prepared(GET, "/api/publicApi/purchase-invoice/overview", FilterQuery(status, dateFrom, dateTo), NoPayload)
    }

    function AssignRequest(cirInvoiceId: string, assignerPartyJbkjs: Option<string>, assignationContractNumber: Option<string>): Request
    {
      client.Prepared(POST, client.WithQuery("/api/publicApi/purchase-invoice/" + cirInvoiceId + "/assign",
                                             AssignQuery(assignerPartyJbkjs, assignationContractNumber)), [], Data([]))
    }

    /** `get($invoiceId)`: the invoice, hydrated by `SimplePurchaseInvoiceDto`'s own constructor. */
    method Get(invoiceId: int) returns (r: Result<Record, Failure>)
      modifies client
      ensures var req := client.Prepared(GET, "/api/publicApi/purchase-invoice", InvoiceQuery(invoiceId), NoPayload);
        client.sent == old(client.sent) + [req] && r == Hydrated(old(client.sent), req, SimplePurchaseInvoiceDto)
    {
      var data :- client.Get("/api/publicApi/purchase-invoice", InvoiceQuery(invoiceId));
      r := FromArray(SimplePurchaseInvoiceDto, data, false);
    }

    /** `getPdf($invoiceId)`: the PDF bytes. */
    method GetPdf(invoiceId: int) returns (r: Result<string, Failure>)
      modifies client
      ensures var req := client.Prepared(GET, "/api/publicApi/purchase-invoice/pdf", InvoiceQuery(invoiceId), NoPayload);
        client.sent == old(client.sent) + [req] && r == FileResponse(client.server(old(client.sent), req))
    {
      r := client.GetFile("/api/publicApi/purchase-invoice/pdf", InvoiceQuery(invoiceId));
    }

    /** `getXml($invoiceId)`: the UBL document. */
    method GetXml(invoiceId: int) returns (r: Result<string, Failure>)
      modifies client
      ensures var req := client.Prepared(GET, "/api/publicApi/purchase-invoice/xml", InvoiceQuery(invoiceId), NoPayload);
        client.sent == old(client.sent) + [req] && r == FileResponse(client.server(old(client.sent), req))
    {
      r := client.GetFile("/api/publicApi/purchase-invoice/xml", InvoiceQuery(invoiceId));
    }

    /** `getUblByCirInvoiceId($cirInvoiceId)`: the CIR id goes in the path, no query. */
    method GetUblByCirInvoiceId(cirInvoiceId: string) returns (r: Result<string, Failure>)
      modifies client
      ensures var req := client.Prepared(GET, "/api/publicApi/purchase-invoice/ubl/" + cirInvoiceId, [], NoPayload);
        client.sent == old(client.sent) + [req] && r == FileResponse(client.server(old(client.sent), req))
    {
      r := client.GetFile("/api/publicApi/purchase-invoice/ubl/" + cirInvoiceId, []);
    }

    /** `getSignature($invoiceId)`: the signature file. */
    method GetSignature(invoiceId: int) returns (r: Result<string, Failure>)
      modifies client
      ensures var req := client.Prepared(GET, "/api/publicApi/purchase-invoice/signature", InvoiceQuery(invoiceId), NoPayload);
        client.sent == old(client.sent) + [req] && r == FileResponse(client.server(old(client.sent), req))
    {
      r := client.GetFile("/api/publicApi/purchase-invoice/signature", InvoiceQuery(invoiceId));
    }

    /** `acceptReject($invoiceId, $accepted, $comment)`: the decision body; the answer is an `AcceptRejectResponseDto`. */
    method AcceptReject(invoiceId: int, accepted: bool, comment: Option<string>) returns (r: Result<Record, Failure>)
      modifies client
      ensures client.sent == old(client.sent) + [DecisionRequest(invoiceId, accepted, comment)]
      ensures r == Hydrated(old(client.sent), DecisionRequest(invoiceId, accepted, comment), AcceptRejectResponseDto)
    {
      var data :- client.Post("/api/publicApi/purchase-invoice/acceptRejectPurchaseInvoice",
                              DecisionBody("invoiceId", Int(invoiceId), accepted, comment), []);
      r := FromArray(AcceptRejectResponseDto, data, false);
    }

    /** `accept`: `acceptReject` with the decision `true`. */
    method Accept(invoiceId: int, comment: Option<string>) returns (r: Result<Record, Failure>)
      modifies client
      ensures client.sent == old(client.sent) + [DecisionRequest(invoiceId, true, comment)]
      ensures r == Hydrated(old(client.sent), DecisionRequest(invoiceId, true, comment), AcceptRejectResponseDto)
    {
      r := AcceptReject(invoiceId, true, comment);
    }

    /** `reject`: `acceptReject` with the decision `false`. */
    method Reject(invoiceId: int, comment: Option<string>) returns (r: Result<Record, Failure>)
      modifies client
      ensures client.sent == old(client.sent) + [DecisionRequest(invoiceId, false, comment)]
      ensures r == Hydrated(old(client.sent), DecisionRequest(invoiceId, false, comment), AcceptRejectResponseDto)
    {
      r := AcceptReject(invoiceId, false, comment);
    }

    /** `acceptRejectByCirInvoiceId`: the same decision, naming the invoice by its CIR id. */
    method AcceptRejectByCirInvoiceId(cirInvoiceId: string, accepted: bool, comment: Option<string>) returns (r: Result<Record, Failure>)
      modifies client
      ensures client.sent == old(client.sent) + [CirDecisionRequest(cirInvoiceId, accepted, comment)]
      ensures r == Hydrated(old(client.sent), CirDecisionRequest(cirInvoiceId, accepted, comment), AcceptRejectResponseDto)
    {
      var data :- client.Post("/api/publicApi/purchase-invoice/acceptRejectPurchaseInvoiceByCirInvoiceId",
                              DecisionBody("cirInvoiceId", Str(cirInvoiceId), accepted, comment), []);
      r := FromArray(AcceptRejectResponseDto, data, false);
    }

    /** `acceptByCirId`: the by-CIR decision `true`. */
    method AcceptByCirId(cirInvoiceId: string, comment: Option<string>) returns (r: Result<Record, Failure>)
      modifies client
      ensures client.sent == old(client.sent) + [CirDecisionRequest(cirInvoiceId, true, comment)]
      ensures r == Hydrated(old(client.sent), CirDecisionRequest(cirInvoiceId, true, comment), AcceptRejectResponseDto)
    {
      r := AcceptRejectByCirInvoiceId(cirInvoiceId, true, comment);
    }

    /** `rejectByCirId`: the by-CIR decision `false`. */
    method RejectByCirId(cirInvoiceId: string, comment: Option<string>) returns (r: Result<Record, Failure>)
      modifies client
      ensures client.sent == old(client.sent) + [CirDecisionRequest(cirInvoiceId, false, comment)]
      ensures r == Hydrated(old(client.sent), CirDecisionRequest(cirInvoiceId, false, comment), AcceptRejectResponseDto)
    {
      r := AcceptRejectByCirInvoiceId(cirInvoiceId, false, comment);
    }

    /** `getChanges($date)`: an empty body, only `date` in the URL; each item a `PurchaseInvoiceStatusChangeDto`. */
    method GetChanges(date: string) returns (r: Result<seq<Entry>, Failure>)
      modifies client
      ensures var req := client.Prepared(POST, client.WithQuery("/api/publicApi/purchase-invoice/changes", Single("date", Str(date))), [], Data([]));
        client.sent == old(client.sent) + [req] && r == Listed(old(client.sent), req, PurchaseInvoiceStatusChangeDto)
    {
      var data :- client.Post("/api/publicApi/purchase-invoice/changes", [], Single("date", Str(date)));
      r := CollectionOf(PurchaseInvoiceStatusChangeDto, data, false);
    }

    /** `getIds`: an empty body, the given filters in the URL; the answer is a `PurchaseInvoicesDto`. */
    method GetIds(status: Option<string>, dateFrom: Option<string>, dateTo: Option<string>) returns (r: Result<Record, Failure>)
      modifies client
      ensures var req := client.Prepared(POST, client.WithQuery("/api/publicApi/purchase-invoice/ids", FilterQuery(status, dateFrom, dateTo)), [], Data([]));
        client.sent == old(client.sent) + [req] && r == Hydrated(old(client.sent), req, PurchaseInvoicesDto)
    {
      var query := FilterQuery(status, dateFrom, dateTo);
      var data :- client.Post("/api/publicApi/purchase-invoice/ids", [], query);
      r := FromArray(PurchaseInvoicesDto, data, false);
    }

    /** `getOverview`: a GET with the given filters; each item a `PurchaseInvoiceOverviewDto`. */
    method GetOverview(status: Option<string>, dateFrom: Option<string>, dateTo: Option<string>) returns (r: Result<seq<Entry>, Failure>)
      modifies client
      ensures client.sent == old(client.sent) + [OverviewRequest(status, dateFrom, dateTo)]
      ensures r == Listed(old(client.sent), OverviewRequest(status, dateFrom, dateTo), PurchaseInvoiceOverviewDto)
    {
      var query := FilterQuery(status, dateFrom, dateTo);
      var data :- client.Get("/api/publicApi/purchase-invoice/overview", query);
      r := CollectionOf(PurchaseInvoiceOverviewDto, data, false);
    }

    /** `getNew`: the overview of invoices in status `New`. */
    method GetNew(dateFrom: Option<string>, dateTo: Option<string>) returns (r: Result<seq<Entry>, Failure>)
      modifies client
      ensures client.sent == old(client.sent) + [OverviewRequest(Some("New"), dateFrom, dateTo)]
      ensures r == Listed(old(client.sent), OverviewRequest(Some("New"), dateFrom, dateTo), PurchaseInvoiceOverviewDto)
    {
      r := GetOverview(Some("New"), dateFrom, dateTo);
    }

    /** `recordVatReverseCharge`: the body with the comment, null included; the answer is returned as is. */
    method RecordVatReverseCharge(purchaseInvoiceId: int, vatAmount: FloatRep, comment: Option<string>) returns (r: Result<seq<Entry>, Failure>)
      modifies client
      ensures var req := client.Prepared(POST, "/api/publicApi/purchase-invoice/vatReverseCharge", [],
                                         Data(ReverseChargeBody(purchaseInvoiceId, vatAmount, comment)));
        client.sent == old(client.sent) + [req] && r == Answer(old(client.sent), req)
    {
      r := client.Post("/api/publicApi/purchase-invoice/vatReverseCharge", ReverseChargeBody(purchaseInvoiceId, vatAmount, comment), []);
    }

    /** `assignCirInvoice`: the CIR id in the path, the given identifiers in the URL; the answer is a `PurchaseInvoiceDto`. */
    method AssignCirInvoice(cirInvoiceId: string, assignerPartyJbkjs: Option<string>, assignationContractNumber: Option<string>)
      returns (r: Result<Record, Failure>)
      modifies client
      ensures client.sent == old(client.sent) + [AssignRequest(cirInvoiceId, assignerPartyJbkjs, assignationContractNumber)]
      ensures r == Hydrated(old(client.sent), AssignRequest(cirInvoiceId, assignerPartyJbkjs, assignationContractNumber), PurchaseInvoiceDto)
    {
      var query := AssignQuery(assignerPartyJbkjs, assignationContractNumber);
      var data :- client.Post("/api/publicApi/purchase-invoice/" + cirInvoiceId + "/assign", [], query);
      r := FromArray(PurchaseInvoiceDto, data, false);
    }

    /** `cancelCirAssignment`: a GET on the CIR id's `cancelassign` path. */
    method CancelCirAssignment(cirInvoiceId: string) returns (r: Result<Record, Failure>)
      modifies client
      ensures var req := client.Prepared(GET, "/api/publicApi/purchase-invoice/" + cirInvoiceId + "/cancelassign", [], NoPayload);
        client.sent == old(client.sent) + [req] && r == Hydrated(old(client.sent), req, PurchaseInvoiceDto)
    {
      var data :- client.Get("/api/publicApi/purchase-invoice/" + cirInvoiceId + "/cancelassign", []);
      r := FromArray(PurchaseInvoiceDto, data, false);
    }
  }
}

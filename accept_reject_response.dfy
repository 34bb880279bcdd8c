/**
 * `AcceptRejectResponseDto`: the base constructor, then the nested
 * `invoice` re-hydrated as a `ChangeStatusInvoiceResponseDto` when the data
 * holds an array under that key.
 */
module AcceptRejectResponse {
  import opened Wrappers
  import opened DtoSchemas
  import opened PhpValues
  import opened EfakturaExceptions
  import opened BaseDto

  /** `new AcceptRejectResponseDto($data)`, with the base constructor as written or corrected. */
  function Hydrate(data: seq<Entry>, fixNested: bool): Result<Record, Failure>
  {
    var base :- BaseConstruct(AcceptRejectResponseDto, data, fixNested);
    RehydrateRecord(base, data, "invoice", ChangeStatusInvoiceResponseDto, fixNested)
  }

  /** The constructor: `parent::__construct($data)`, then the conditional overwrite of `invoice`. */
  method Construct(data: seq<Entry>, fixNested: bool) returns (res: Result<Record, Failure>)
    ensures res == Hydrate(data, fixNested)
  {
    res := BaseDto.Construct(AcceptRejectResponseDto, data, fixNested);
    if res.Ok? && IsSet(data, StrKey("invoice")) && Lookup(data, StrKey("invoice")).value.Arr? {
      var invoice := BaseDto.Construct(ChangeStatusInvoiceResponseDto, Lookup(data, StrKey("invoice")).value.entries, fixNested);
      if invoice.Err? {
        return Err(invoice.error);
      }
      res := Ok(Record(res.value.cls, res.value.props["invoice" := Obj(invoice.value)]));
    }
  }

  /**
   * The response has exactly the four declared properties, so every other
   * key of the data is ignored.
   */
  lemma PropertiesDeclared(data: seq<Entry>, fixNested: bool)
    requires Hydrate(data, fixNested).Ok?
    ensures var r := Hydrate(data, fixNested).value;
      r.cls == AcceptRejectResponseDto && forall n :: n in r.props <==> n in Properties(AcceptRejectResponseDto)
  {
    AbsorbKeepsProperties(SchemaOf(AcceptRejectResponseDto), data, fixNested);
    assert "invoice" in Properties(AcceptRejectResponseDto);
  }

  /**
   * `success`, `message` and `httpStatus` are copied from the data when
   * present, unconverted, and stay null otherwise.
   */
  lemma ScalarCopied(data: seq<Entry>, fixNested: bool, n: string)
    requires Hydrate(data, fixNested).Ok?
    requires n == "success" || n == "message" || n == "httpStatus"
    ensures var r := Hydrate(data, fixNested).value;
      n in r.props && r.props[n] == if Lookup(data, StrKey(n)).Some? then Lookup(data, StrKey(n)).value else Null
  {
    ScalarFacts(n);
    PropertyFromData(SchemaOf(AcceptRejectResponseDto), data, fixNested, n);
  }

  lemma ScalarFacts(n: string)
    requires n == "success" || n == "message" || n == "httpStatus"
    ensures n in Properties(AcceptRejectResponseDto)
    ensures PropertyType(AcceptRejectResponseDto, n) == if n == "success" then Some(TBool) else Some(TString)
  {
  }

  /** Without an `invoice` entry that is set, `invoice` stays null. */
  lemma InvoiceAbsent(data: seq<Entry>, fixNested: bool)
    requires Hydrate(data, fixNested).Ok?
    requires !IsSet(data, StrKey("invoice"))
    ensures "invoice" in Hydrate(data, fixNested).value.props && Hydrate(data, fixNested).value.props["invoice"] == Null
  {
    AbsorbSpec(SchemaOf(AcceptRejectResponseDto), data, fixNested);
  }

  /**
   * As written, an array under `invoice` makes the base constructor assign
   * it to the `?ChangeStatusInvoiceResponseDto` property: a TypeError, so
   * the re-hydration below it is never reached.
   */
  lemma AsWrittenRejectsInvoiceArray(data: seq<Entry>)
    requires Lookup(data, StrKey("invoice")).Some? && Lookup(data, StrKey("invoice")).value.Arr?
    ensures Hydrate(data, false).Err? && Hydrate(data, false).error.TypeError?
  {
    InvoiceFacts();
    RecordArrayRejected(SchemaOf(AcceptRejectResponseDto), data, "invoice");
  }

  lemma InvoiceFacts()
    ensures "invoice" in Properties(AcceptRejectResponseDto)
    ensures PropertyType(AcceptRejectResponseDto, "invoice") == Some(TObject(ChangeStatusInvoiceResponseDto))
  {
  }

  /** Corrected, an array under `invoice` becomes the nested record built from it. */
  lemma InvoiceHydrated(data: seq<Entry>)
    requires Hydrate(data, true).Ok?
    requires IsSet(data, StrKey("invoice")) && Lookup(data, StrKey("invoice")).value.Arr?
    ensures var nested := BaseConstruct(ChangeStatusInvoiceResponseDto, Lookup(data, StrKey("invoice")).value.entries, true);
      nested.Ok? && Hydrate(data, true).value.props["invoice"] == Obj(nested.value)
  {
  }

  /**
   * A response whose `invoice` is set serialises it as a nested array with
   * exactly the non-null ones of `invoiceNumber` and `status`.
   */
  lemma InvoiceSerialised(r: Record, inv: Record, k: Key)
    requires r.cls == AcceptRejectResponseDto && "invoice" in r.props && r.props["invoice"] == Obj(inv)
    requires inv.cls == ChangeStatusInvoiceResponseDto
    ensures Lookup(AsArray(r), StrKey("invoice")) == Some(Arr(AsArray(inv)))
    ensures Lookup(AsArray(inv), k) ==
      if k in [StrKey("invoiceNumber"), StrKey("status")] && k.s in inv.props && inv.props[k.s] != Null
      then Some(SerializeValue(inv.props[k.s])) else None
  {
    assert "invoice" in Properties(AcceptRejectResponseDto);
    AsArrayLookup(r, StrKey("invoice"));
    InvoiceFields(inv, k);
  }

  lemma InvoiceFields(inv: Record, k: Key)
    requires inv.cls == ChangeStatusInvoiceResponseDto
    ensures Lookup(AsArray(inv), k) ==
      if k in [StrKey("invoiceNumber"), StrKey("status")] && k.s in inv.props && inv.props[k.s] != Null
      then Some(SerializeValue(inv.props[k.s])) else None
  {
    assert Properties(ChangeStatusInvoiceResponseDto) == ["invoiceNumber", "status"];
    AsArrayLookup(inv, k);
  }

  /** A response as `toArray` can write it and the corrected constructor read it back. */
  ghost predicate Canonical(r: Record)
  {
    r.cls == AcceptRejectResponseDto &&
    RestorableProps(SchemaOf(AcceptRejectResponseDto), r.props) &&
    (r.props["invoice"] == Null || PlainRecord(r.props["invoice"].rec))
  }

  /** Corrected, `fromArray($r->toArray())` gives back the response, nested invoice included. */
  lemma RoundTrip(r: Record)
    requires Canonical(r)
    ensures Hydrate(AsArray(r), true) == Ok(r)
  {
    var s := SchemaOf(AcceptRejectResponseDto);
    CorrectedBase(r);
    var q := BaseConstruct(AcceptRejectResponseDto, AsArray(r), true).value;
    NestedRestored(s, r, q, "invoice", ChangeStatusInvoiceResponseDto);
    Overwritten(r.props, q.props, "invoice");
  }

  /** Two maps with the same keys that agree off `key` agree once `key` is copied over. */
  lemma Overwritten(a: map<string, Value>, b: map<string, Value>, key: string)
    requires key in a && forall n :: n in a <==> n in b
    requires forall n :: n in a && n != key ==> b[n] == a[n]
    ensures b[key := a[key]] == a
  {
  }

  /** The corrected base constructor over a response's serialisation restores all but the invoice. */
  lemma CorrectedBase(r: Record)
    requires Canonical(r)
    ensures var q := BaseConstruct(AcceptRejectResponseDto, AsArray(r), true);
      q.Ok? && q.value.cls == AcceptRejectResponseDto &&
      (forall n :: n in q.value.props <==> n in r.props) &&
      (forall n :: n in r.props && n != "invoice" ==> q.value.props[n] == r.props[n]) &&
      "invoice" in r.props &&
      (r.props["invoice"] == Null ==> q.value.props["invoice"] == Null) &&
      (r.props["invoice"] == Null || (r.props["invoice"].Obj? &&
        r.props["invoice"].rec.cls == ChangeStatusInvoiceResponseDto && PlainRecord(r.props["invoice"].rec)))
  {
    var s := SchemaOf(AcceptRejectResponseDto);
    CorrectedAbsorb(r);
    InvoiceFacts();
    assert BaseConstruct(AcceptRejectResponseDto, AsArray(r), true) ==
      Ok(Record(AcceptRejectResponseDto, AbsorbAll(s, Emit(r, s.names), true).value));
  }

  /** The corrected loop over a response's serialisation: the property set, the scalars, a null invoice. */
  lemma CorrectedAbsorb(r: Record)
    requires Canonical(r)
    ensures var s := SchemaOf(AcceptRejectResponseDto);
      AbsorbAll(s, Emit(r, s.names), true).Ok? &&
      var props := AbsorbAll(s, Emit(r, s.names), true).value;
      (forall n :: n in props <==> n in r.props) &&
      (forall n :: n in r.props && n != "invoice" ==> props[n] == r.props[n]) &&
      ("invoice" in r.props && r.props["invoice"] == Null ==> props["invoice"] == Null)
  {
    var s := SchemaOf(AcceptRejectResponseDto);
    AbsorbOfEmitCorrected(s, r);
    var props := AbsorbAll(s, Emit(r, s.names), true).value;
    ScalarsArePlain(r);
    forall n | n in r.props && n != "invoice"
      ensures props[n] == r.props[n]
    {
      if r.props[n] != Null {
        SerializePlain(r.props[n]);
      }
    }
  }

  /** The three scalar properties of a well-typed response are plain values. */
  lemma ScalarsArePlain(r: Record)
    requires Canonical(r)
    ensures forall n :: n in r.props && n != "invoice" ==> Plain(r.props[n])
  {
    forall n | n in r.props && n != "invoice"
      ensures Plain(r.props[n])
    {
      assert n in Properties(AcceptRejectResponseDto);
      ScalarFacts(n);
    }
  }

  /** As written, `fromArray($r->toArray())` fails for every response whose `invoice` is set. */
  lemma AsWrittenRoundTripFails(r: Record)
    requires r.cls == AcceptRejectResponseDto && "invoice" in r.props && r.props["invoice"].Obj?
    ensures Hydrate(AsArray(r), false).Err?
  {
    AsArrayLookup(r, StrKey("invoice"));
    AsWrittenRejectsInvoiceArray(AsArray(r));
  }

  /** The smallest input that shows it: `['invoice' => ['invoiceNumber' => '1']]`. */
  lemma InvoiceArrayExample()
    ensures var data := [Entry(StrKey("invoice"), Arr([Entry(StrKey("invoiceNumber"), Str("1"))]))];
      Hydrate(data, false).Err? && Hydrate(data, true).Ok? &&
      var props := Hydrate(data, true).value.props;
      "invoice" in props && props["invoice"].Obj? &&
      "invoiceNumber" in props["invoice"].rec.props && props["invoice"].rec.props["invoiceNumber"] == Str("1")
  {
    var data := [Entry(StrKey("invoice"), Arr([Entry(StrKey("invoiceNumber"), Str("1"))]))];
    AsWrittenRejectsInvoiceArray(data);
    ExampleBase(data);
    ExampleInvoice([Entry(StrKey("invoiceNumber"), Str("1"))]);
  }

  lemma ExampleBase(data: seq<Entry>)
    requires data == [Entry(StrKey("invoice"), Arr([Entry(StrKey("invoiceNumber"), Str("1"))]))]
    ensures BaseConstruct(AcceptRejectResponseDto, data, true).Ok?
  {
    var s := SchemaOf(AcceptRejectResponseDto);
    assert s.typeOf("invoice") == Some(TObject(ChangeStatusInvoiceResponseDto));
    assert Accepted(s, data[0], true);
    AbsorbSucceeds(s, data, true);
  }

  lemma ExampleInvoice(inner: seq<Entry>)
    requires inner == [Entry(StrKey("invoiceNumber"), Str("1"))]
    ensures var rec := BaseConstruct(ChangeStatusInvoiceResponseDto, inner, true);
      rec.Ok? && "invoiceNumber" in rec.value.props && rec.value.props["invoiceNumber"] == Str("1")
  {
    var si := SchemaOf(ChangeStatusInvoiceResponseDto);
    assert si.typeOf("invoiceNumber") == Some(TString);
    assert Accepted(si, inner[0], true);
    AbsorbSpec(si, inner, true);
    assert Lookup(inner, StrKey("invoiceNumber")) == Some(Str("1"));
  }
}

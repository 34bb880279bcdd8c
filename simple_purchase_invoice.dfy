/**
 * `SimplePurchaseInvoiceDto`: the base constructor, then the four parties
 * re-hydrated as `PartyDto` records and the two lists as lists of
 * `TaxSubtotalDto` and `InvoiceLineDto` records, each only when the data
 * holds an array under its key.
 */
module SimplePurchaseInvoice {
  import opened Wrappers
  import opened DtoSchemas
  import opened PhpValues
  import opened EfakturaExceptions
  import opened BaseDto

  /** The record-valued properties, in the order the constructor rebuilds them. */
  const Parties: seq<string> := ["accountingSupplierParty", "accountingCustomerParty", "deliveryParty", "payeeParty"]

  /** Properties the constructor rebuilds after the base constructor. */
  predicate Nested(n: string)
  {
    n == "accountingSupplierParty" || n == "accountingCustomerParty" || n == "deliveryParty" ||
    n == "payeeParty" || n == "taxSubtotals" || n == "invoiceLines"
  }

  /** `new SimplePurchaseInvoiceDto($data)`, with the base constructor as written or corrected. */
  function Hydrate(data: seq<Entry>, fixNested: bool): Result<Record, Failure>
  {
    var base :- BaseConstruct(SimplePurchaseInvoiceDto, data, fixNested);
    Rebuild(base, data, fixNested)
  }

  /** The six conditional overwrites after the base constructor, in source order. */
  function Rebuild(base: Record, data: seq<Entry>, fixNested: bool): Result<Record, Failure>
  {
    var withParties :- RebuildParties(base, data, fixNested);
    RebuildLists(withParties, data, fixNested)
  }

  /** The four party overwrites. */
  function RebuildParties(base: Record, data: seq<Entry>, fixNested: bool): Result<Record, Failure>
  {
    var r1 :- RehydrateRecord(base, data, "accountingSupplierParty", PartyDto, fixNested);
    var r2 :- RehydrateRecord(r1, data, "accountingCustomerParty", PartyDto, fixNested);
    var r3 :- RehydrateRecord(r2, data, "deliveryParty", PartyDto, fixNested);
    RehydrateRecord(r3, data, "payeeParty", PartyDto, fixNested)
  }

  /** The two list overwrites. */
  function RebuildLists(r: Record, data: seq<Entry>, fixNested: bool): Result<Record, Failure>
  {
    var r5 :- RehydrateList(r, data, "taxSubtotals", TaxSubtotalDto, fixNested);
    RehydrateList(r5, data, "invoiceLines", InvoiceLineDto, fixNested)
  }

  /** The constructor: `parent::__construct($data)`, then the six conditional overwrites in order. */
  method Construct(data: seq<Entry>, fixNested: bool) returns (res: Result<Record, Failure>)
    ensures res == Hydrate(data, fixNested)
  {
    res := BaseDto.Construct(SimplePurchaseInvoiceDto, data, fixNested);
    if res.Ok? {
      res := RehydrateRecord(res.value, data, "accountingSupplierParty", PartyDto, fixNested);
    }
    if res.Ok? {
      res := RehydrateRecord(res.value, data, "accountingCustomerParty", PartyDto, fixNested);
    }
    if res.Ok? {
      res := RehydrateRecord(res.value, data, "deliveryParty", PartyDto, fixNested);
    }
    if res.Ok? {
      res := RehydrateRecord(res.value, data, "payeeParty", PartyDto, fixNested);
    }
    if res.Ok? {
      res := RehydrateList(res.value, data, "taxSubtotals", TaxSubtotalDto, fixNested);
    }
    if res.Ok? {
      res := RehydrateList(res.value, data, "invoiceLines", InvoiceLineDto, fixNested);
    }
  }

  /** The six rebuilt keys are distinct. */
  lemma KeysDistinct()
    ensures "accountingSupplierParty" != "accountingCustomerParty" && "accountingSupplierParty" != "deliveryParty"
    ensures "accountingSupplierParty" != "payeeParty" && "accountingCustomerParty" != "deliveryParty"
    ensures "accountingCustomerParty" != "payeeParty" && "deliveryParty" != "payeeParty"
    ensures forall p :: p in Parties ==> p != "taxSubtotals" && p != "invoiceLines"
    ensures "taxSubtotals" != "invoiceLines"
  {
  }

  /**
   * The result has exactly the declared properties: the constructor adds
   * none, so keys of the data that name no property are dropped.
   */
  lemma PropertiesDeclared(data: seq<Entry>, fixNested: bool)
    requires Hydrate(data, fixNested).Ok?
    ensures var r := Hydrate(data, fixNested).value;
      r.cls == SimplePurchaseInvoiceDto && forall n :: n in r.props <==> n in Properties(SimplePurchaseInvoiceDto)
  {
    var s := SchemaOf(SimplePurchaseInvoiceDto);
    AbsorbKeepsProperties(s, data, fixNested);
    NestedDeclared();
    RebuildKeeps(BaseConstruct(SimplePurchaseInvoiceDto, data, fixNested).value, data, fixNested);
  }

  /** The six overwrites add and remove no property. */
  lemma RebuildKeeps(base: Record, data: seq<Entry>, fixNested: bool)
    requires Rebuild(base, data, fixNested).Ok?
    requires forall n :: Nested(n) ==> n in base.props
    ensures var r := Rebuild(base, data, fixNested).value;
      r.cls == base.cls && r.props.Keys == base.props.Keys
  {
    var r1 := RehydrateRecord(base, data, "accountingSupplierParty", PartyDto, fixNested).value;
    var r2 := RehydrateRecord(r1, data, "accountingCustomerParty", PartyDto, fixNested).value;
    var r3 := RehydrateRecord(r2, data, "deliveryParty", PartyDto, fixNested).value;
    var r4 := RebuildParties(base, data, fixNested).value;
    assert r4.props.Keys == base.props.Keys;
    var r5 := RehydrateList(r4, data, "taxSubtotals", TaxSubtotalDto, fixNested).value;
    assert r5.props.Keys == base.props.Keys;
  }

  /** The rebuilt properties are declared ones. */
  lemma NestedDeclared()
    ensures forall n :: Nested(n) ==> n in Properties(SimplePurchaseInvoiceDto)
  {
  }

  /**
   * A declared property the constructor does not rebuild holds `$data[$n]`
   * as assigned under strict typing, or null when the data does not name it.
   */
  lemma ScalarCopied(data: seq<Entry>, fixNested: bool, n: string)
    requires Hydrate(data, fixNested).Ok?
    requires n in Properties(SimplePurchaseInvoiceDto) && !Nested(n)
    ensures var r := Hydrate(data, fixNested).value;
      n in r.props &&
      (Lookup(data, StrKey(n)).None? ==> r.props[n] == Null) &&
      (Lookup(data, StrKey(n)).Some? ==>
         Assign(PropertyType(SimplePurchaseInvoiceDto, n), Lookup(data, StrKey(n)).value) == Ok(r.props[n]))
  {
    NonNestedNotRecord(n);
    PropertyFromData(SchemaOf(SimplePurchaseInvoiceDto), data, fixNested, n);
    RebuildKeepsKey(BaseConstruct(SimplePurchaseInvoiceDto, data, fixNested).value, data, fixNested, n);
  }

  /** The six overwrites leave every other property as it was. */
  lemma RebuildKeepsKey(base: Record, data: seq<Entry>, fixNested: bool, n: string)
    requires Rebuild(base, data, fixNested).Ok?
    requires !Nested(n) && n in base.props
    ensures var r := Rebuild(base, data, fixNested).value;
      n in r.props && r.props[n] == base.props[n]
  {
    var r4 := RebuildParties(base, data, fixNested).value;
    assert n in r4.props && r4.props[n] == base.props[n];
  }

  /** Only the four parties are record-typed properties. */
  lemma NonNestedNotRecord(n: string)
    requires !Nested(n)
    ensures PropertyType(SimplePurchaseInvoiceDto, n).Some? ==> !PropertyType(SimplePurchaseInvoiceDto, n).value.TObject?
  {
  }

  /** `status` and `cirStatus` given as strings are kept verbatim, whatever the text. */
  lemma StatusPreserved(data: seq<Entry>, fixNested: bool, n: string, x: string)
    requires Hydrate(data, fixNested).Ok?
    requires n == "status" || n == "cirStatus"
    requires Lookup(data, StrKey(n)) == Some(Str(x))
    ensures n in Hydrate(data, fixNested).value.props && Hydrate(data, fixNested).value.props[n] == Str(x)
  {
    StatusFacts(n);
    StringKept(SchemaOf(SimplePurchaseInvoiceDto), data, fixNested, n, x);
    RebuildKeepsKey(BaseConstruct(SimplePurchaseInvoiceDto, data, fixNested).value, data, fixNested, n);
  }

  lemma StatusFacts(n: string)
    requires n == "status" || n == "cirStatus"
    ensures PropertyType(SimplePurchaseInvoiceDto, n) == Some(TString)
    ensures n in Properties(SimplePurchaseInvoiceDto)
    ensures !Nested(n)
  {
    if n == "status" {
      StatusTyped();
      StatusDeclared();
    } else {
      CirStatusTyped();
      CirStatusDeclared();
    }
  }

  lemma StatusTyped()
    ensures PropertyType(SimplePurchaseInvoiceDto, "status") == Some(TString)
  {
  }

  lemma StatusDeclared()
    ensures "status" in Properties(SimplePurchaseInvoiceDto)
  {
  }

  lemma CirStatusTyped()
    ensures PropertyType(SimplePurchaseInvoiceDto, "cirStatus") == Some(TString)
  {
  }

  lemma CirStatusDeclared()
    ensures "cirStatus" in Properties(SimplePurchaseInvoiceDto)
  {
  }

  /** An integer given for a float amount is widened, as strict typing allows. */
  lemma AmountWidened(data: seq<Entry>, fixNested: bool, i: int)
    requires Hydrate(data, fixNested).Ok?
    requires Lookup(data, StrKey("payableAmount")) == Some(Int(i))
    ensures "payableAmount" in Hydrate(data, fixNested).value.props
    ensures Hydrate(data, fixNested).value.props["payableAmount"] == Float(Widen(i))
  {
    AmountFacts();
    IntWidened(SchemaOf(SimplePurchaseInvoiceDto), data, fixNested, "payableAmount", i);
    RebuildKeepsKey(BaseConstruct(SimplePurchaseInvoiceDto, data, fixNested).value, data, fixNested, "payableAmount");
  }

  lemma AmountFacts()
    ensures PropertyType(SimplePurchaseInvoiceDto, "payableAmount") == Some(TFloat)
    ensures "payableAmount" in Properties(SimplePurchaseInvoiceDto)
    ensures !Nested("payableAmount")
  {
    AmountTyped();
    AmountDeclared();
  }

  lemma AmountTyped()
    ensures PropertyType(SimplePurchaseInvoiceDto, "payableAmount") == Some(TFloat)
  {
  }

  lemma AmountDeclared()
    ensures "payableAmount" in Properties(SimplePurchaseInvoiceDto)
  {
  }

  /**
   * As written, an array under any of the four party keys makes the base
   * constructor assign it to a `?PartyDto` property: a TypeError, before
   * the party is rebuilt.
   */
  lemma AsWrittenRejectsPartyArray(data: seq<Entry>, p: string)
    requires p in Parties
    requires Lookup(data, StrKey(p)).Some? && Lookup(data, StrKey(p)).value.Arr?
    ensures Hydrate(data, false).Err? && Hydrate(data, false).error.TypeError?
  {
    PartyTyped(p);
    PartyDeclared(p);
    RecordArrayRejected(SchemaOf(SimplePurchaseInvoiceDto), data, p);
  }

  lemma PartyDeclared(p: string)
    requires p in Parties
    ensures p in Properties(SimplePurchaseInvoiceDto)
  {
  }

  lemma PartyTyped(p: string)
    requires p in Parties
    ensures PropertyType(SimplePurchaseInvoiceDto, p) == Some(TObject(PartyDto))
  {
  }

  /** Corrected, an array under a party key becomes the `PartyDto` built from it. */
  lemma PartyHydrated(data: seq<Entry>, p: string)
    requires Hydrate(data, true).Ok?
    requires p in Parties
    requires IsSet(data, StrKey(p)) && Lookup(data, StrKey(p)).value.Arr?
    ensures var party := BaseConstruct(PartyDto, Lookup(data, StrKey(p)).value.entries, true);
      party.Ok? && p in Hydrate(data, true).value.props &&
      Hydrate(data, true).value.props[p] == Obj(party.value)
  {
    RebuildParty(BaseConstruct(SimplePurchaseInvoiceDto, data, true).value, data, p);
  }

  lemma RebuildParty(base: Record, data: seq<Entry>, p: string)
    requires Rebuild(base, data, true).Ok?
    requires p in Parties
    requires IsSet(data, StrKey(p)) && Lookup(data, StrKey(p)).value.Arr?
    ensures var party := BaseConstruct(PartyDto, Lookup(data, StrKey(p)).value.entries, true);
      party.Ok? && p in Rebuild(base, data, true).value.props &&
      Rebuild(base, data, true).value.props[p] == Obj(party.value)
  {
    KeysDistinct();
    PartiesParty(base, data, p);
  }

  lemma PartiesParty(base: Record, data: seq<Entry>, p: string)
    requires RebuildParties(base, data, true).Ok?
    requires p in Parties
    requires IsSet(data, StrKey(p)) && Lookup(data, StrKey(p)).value.Arr?
    ensures var party := BaseConstruct(PartyDto, Lookup(data, StrKey(p)).value.entries, true);
      party.Ok? && p in RebuildParties(base, data, true).value.props &&
      RebuildParties(base, data, true).value.props[p] == Obj(party.value)
  {
    KeysDistinct();
  }

  /**
   * An array under `taxSubtotals` or `invoiceLines` becomes, when the
   * constructor succeeds, the list of records built from its items: every
   * item was an array, and keys, order and length are kept.
   */
  lemma ListHydrated(data: seq<Entry>, fixNested: bool, key: string, cls: DtoClass)
    requires Hydrate(data, fixNested).Ok?
    requires (key, cls) == ("taxSubtotals", TaxSubtotalDto) || (key, cls) == ("invoiceLines", InvoiceLineDto)
    requires IsSet(data, StrKey(key)) && Lookup(data, StrKey(key)).value.Arr?
    ensures var items := Lookup(data, StrKey(key)).value.entries;
      var r := Hydrate(data, fixNested).value;
      key in r.props && r.props[key].Arr? && |r.props[key].entries| == |items| &&
      forall i :: 0 <= i < |items| ==>
        items[i].val.Arr? && BaseConstruct(cls, items[i].val.entries, fixNested).Ok? &&
        r.props[key].entries[i] == Entry(items[i].key, Obj(BaseConstruct(cls, items[i].val.entries, fixNested).value))
  {
    var base := BaseConstruct(SimplePurchaseInvoiceDto, data, fixNested).value;
    RebuildList(RebuildParties(base, data, fixNested).value, data, fixNested, key, cls);
  }

  lemma RebuildList(base: Record, data: seq<Entry>, fixNested: bool, key: string, cls: DtoClass)
    requires RebuildLists(base, data, fixNested).Ok?
    requires (key, cls) == ("taxSubtotals", TaxSubtotalDto) || (key, cls) == ("invoiceLines", InvoiceLineDto)
    requires IsSet(data, StrKey(key)) && Lookup(data, StrKey(key)).value.Arr?
    ensures var items := Lookup(data, StrKey(key)).value.entries;
      var r := RebuildLists(base, data, fixNested).value;
      key in r.props && r.props[key].Arr? && |r.props[key].entries| == |items| &&
      forall i :: 0 <= i < |items| ==>
        items[i].val.Arr? && BaseConstruct(cls, items[i].val.entries, fixNested).Ok? &&
        r.props[key].entries[i] == Entry(items[i].key, Obj(BaseConstruct(cls, items[i].val.entries, fixNested).value))
  {
  }

  /**
   * An invoice as `toArray` can write it and the corrected constructor
   * read it back: its properties null or of their declared types, the
   * scalars plain, each party null or a plain `PartyDto`, each list null
   * or a list of plain records of its class.
   */
  ghost predicate Canonical(r: Record)
  {
    r.cls == SimplePurchaseInvoiceDto && Restorable(SchemaOf(SimplePurchaseInvoiceDto), r)
  }

  /** `Canonical` for the schema `s`. */
  ghost predicate Restorable(s: Schema, r: Record)
  {
    RestorableProps(s, r.props) &&
    (forall n :: n in r.props && !Nested(n) ==> Plain(r.props[n])) &&
    (forall p :: p in Parties ==>
       p in r.props && (r.props[p] == Null || (r.props[p].Obj? && r.props[p].rec.cls == PartyDto && PlainRecord(r.props[p].rec)))) &&
    "taxSubtotals" in r.props && (r.props["taxSubtotals"] == Null || PlainRecordList(r.props["taxSubtotals"], TaxSubtotalDto)) &&
    "invoiceLines" in r.props && (r.props["invoiceLines"] == Null || PlainRecordList(r.props["invoiceLines"], InvoiceLineDto))
  }

  /** Corrected, `fromArray($r->toArray())` gives back the invoice, parties and lists included. */
  lemma RoundTrip(r: Record)
    requires Canonical(r)
    ensures Hydrate(AsArray(r), true) == Ok(r)
  {
    var s := SchemaOf(SimplePurchaseInvoiceDto);
    RebuiltFrom(s, r);
    var props := AbsorbAll(s, Emit(r, s.names), true).value;
    assert BaseConstruct(SimplePurchaseInvoiceDto, AsArray(r), true) == Ok(Record(r.cls, props));
  }

  /** The corrected base step and the six overwrites over a restorable invoice's serialisation give it back. */
  lemma RebuiltFrom(s: Schema, r: Record)
    requires Restorable(s, r)
    ensures AbsorbAll(s, Emit(r, s.names), true).Ok?
    ensures Rebuild(Record(r.cls, AbsorbAll(s, Emit(r, s.names), true).value), Emit(r, s.names), true) == Ok(r)
  {
    var data := Emit(r, s.names);
    CorrectedAbsorb(s, r);
    var q0 := Record(r.cls, AbsorbAll(s, data, true).value);
    PartiesRestored(s, r, q0);
    var q4 := RebuildParties(q0, data, true).value;
    ListsRestored(s, r, q4);
    Reassembled(r.props, q0.props);
  }

  /**
   * The corrected loop over an invoice's serialisation: it succeeds, puts
   * back every scalar, and leaves null each party and list that was null.
   */
  lemma CorrectedAbsorb(s: Schema, r: Record)
    requires RestorableProps(s, r.props)
    requires forall n :: n in r.props && !Nested(n) ==> Plain(r.props[n])
    ensures AbsorbAll(s, Emit(r, s.names), true).Ok?
    ensures var props := AbsorbAll(s, Emit(r, s.names), true).value;
      (forall n :: n in props <==> n in r.props) &&
      (forall n :: n in r.props && !Nested(n) ==> props[n] == r.props[n]) &&
      (forall n :: n in r.props && r.props[n] == Null ==> props[n] == Null)
  {
    AbsorbOfEmitCorrected(s, r);
    var props := AbsorbAll(s, Emit(r, s.names), true).value;
    forall n | n in r.props && !Nested(n) && r.props[n] != Null
      ensures props[n] == r.props[n]
    {
      SerializePlain(r.props[n]);
    }
  }

  /** The scalars taken from the base, the six rebuilt properties from the invoice: the invoice's own map. */
  lemma Reassembled(r: map<string, Value>, q0: map<string, Value>)
    requires forall n :: n in q0 <==> n in r
    requires forall n :: n in r && !Nested(n) ==> q0[n] == r[n]
    requires forall p :: p in Parties ==> p in r
    requires "taxSubtotals" in r && "invoiceLines" in r
    ensures q0[Parties[0] := r[Parties[0]]][Parties[1] := r[Parties[1]]]
              [Parties[2] := r[Parties[2]]][Parties[3] := r[Parties[3]]]
              ["taxSubtotals" := r["taxSubtotals"]]
              ["invoiceLines" := r["invoiceLines"]] == r
  {
  }

  /** The corrected party overwrites put back each party of the invoice. */
  lemma PartiesRestored(s: Schema, r: Record, q0: Record)
    requires forall p :: p in Parties ==>
      p in s.names && p in r.props && p in q0.props &&
      (r.props[p] == Null || (r.props[p].Obj? && r.props[p].rec.cls == PartyDto && PlainRecord(r.props[p].rec))) &&
      (r.props[p] == Null ==> q0.props[p] == Null)
    ensures RebuildParties(q0, Emit(r, s.names), true) ==
      Ok(Record(q0.cls, q0.props[Parties[0] := r.props[Parties[0]]][Parties[1] := r.props[Parties[1]]]
                                [Parties[2] := r.props[Parties[2]]][Parties[3] := r.props[Parties[3]]]))
  {
    KeysDistinct();
    NestedRestored(s, r, q0, Parties[0], PartyDto);
    var q1 := Record(q0.cls, q0.props[Parties[0] := r.props[Parties[0]]]);
    NestedRestored(s, r, q1, Parties[1], PartyDto);
    var q2 := Record(q1.cls, q1.props[Parties[1] := r.props[Parties[1]]]);
    NestedRestored(s, r, q2, Parties[2], PartyDto);
    var q3 := Record(q2.cls, q2.props[Parties[2] := r.props[Parties[2]]]);
    NestedRestored(s, r, q3, Parties[3], PartyDto);
  }

  /** The corrected list overwrites put back both lists of the invoice. */
  lemma ListsRestored(s: Schema, r: Record, q4: Record)
    requires "taxSubtotals" in s.names && "taxSubtotals" in r.props && "taxSubtotals" in q4.props
    requires "invoiceLines" in s.names && "invoiceLines" in r.props && "invoiceLines" in q4.props
    requires r.props["taxSubtotals"] == Null || PlainRecordList(r.props["taxSubtotals"], TaxSubtotalDto)
    requires r.props["invoiceLines"] == Null || PlainRecordList(r.props["invoiceLines"], InvoiceLineDto)
    requires r.props["taxSubtotals"] == Null ==> q4.props["taxSubtotals"] == Null
    requires r.props["invoiceLines"] == Null ==> q4.props["invoiceLines"] == Null
    ensures RebuildLists(q4, Emit(r, s.names), true) ==
      Ok(Record(q4.cls, q4.props["taxSubtotals" := r.props["taxSubtotals"]]["invoiceLines" := r.props["invoiceLines"]]))
  {
    ListRestored(s, r, q4, "taxSubtotals", TaxSubtotalDto);
    var q5 := Record(q4.cls, q4.props["taxSubtotals" := r.props["taxSubtotals"]]);
    ListRestored(s, r, q5, "invoiceLines", InvoiceLineDto);
  }

  /** As written, `fromArray($r->toArray())` fails for every invoice with a party set. */
  lemma AsWrittenRoundTripFails(r: Record, p: string)
    requires r.cls == SimplePurchaseInvoiceDto && p in Parties && p in r.props && r.props[p].Obj?
    ensures Hydrate(AsArray(r), false).Err?
  {
    PartyDeclared(p);
    AsArrayLookup(r, StrKey(p));
    AsWrittenRejectsPartyArray(AsArray(r), p);
  }
}

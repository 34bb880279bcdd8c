/**
 * `fromArray` and `collection` as the services call them: `new static($data)`
 * runs the class's own constructor where it has one (`SimplePurchaseInvoiceDto`,
 * `AcceptRejectResponseDto`) and the base constructor otherwise. `fixNested`
 * chooses between the constructors as written (`false`, which the services
 * use) and the corrected ones (`true`) that leave an object-typed property
 * to the subclass.
 */
module Dtos {
  import opened Wrappers
  import opened DtoSchemas
  import opened PhpValues
  import opened EfakturaExceptions
  import opened BaseDto
  import SimplePurchaseInvoice
  import AcceptRejectResponse

  /** `Cls::fromArray($data)`. */
  function FromArray(cls: DtoClass, data: seq<Entry>, fixNested: bool): Result<Record, Failure>
  {
    match cls
    case SimplePurchaseInvoiceDto => SimplePurchaseInvoice.Hydrate(data, fixNested)
    case AcceptRejectResponseDto => AcceptRejectResponse.Hydrate(data, fixNested)
    case _ => BaseConstruct(cls, data, fixNested)
  }

  /** `Cls::collection($items)`: `fromArray` on every item, keys and order kept. */
  function CollectionOf(cls: DtoClass, items: seq<Entry>, fixNested: bool): Result<seq<Entry>, Failure>
  {
    Collection(items, d => FromArray(cls, d, fixNested))
  }

  /** Whatever the class, `fromArray` gives an instance of it with exactly its declared properties. */
  lemma FromArrayDeclared(cls: DtoClass, data: seq<Entry>, fixNested: bool)
    requires FromArray(cls, data, fixNested).Ok?
    ensures FromArray(cls, data, fixNested).value.cls == cls
    ensures forall n :: n in FromArray(cls, data, fixNested).value.props <==> n in Properties(cls)
  {
    if cls == SimplePurchaseInvoiceDto {
      SimplePurchaseInvoice.PropertiesDeclared(data, fixNested);
    } else if cls == AcceptRejectResponseDto {
      AcceptRejectResponse.PropertiesDeclared(data, fixNested);
    } else {
      BaseDeclared(cls, data, fixNested);
    }
  }

  /** A class without its own constructor: the base constructor declares exactly the schema's properties. */
  lemma BaseDeclared(cls: DtoClass, data: seq<Entry>, fixNested: bool)
    requires cls != SimplePurchaseInvoiceDto && cls != AcceptRejectResponseDto
    requires FromArray(cls, data, fixNested).Ok?
    ensures FromArray(cls, data, fixNested).value.cls == cls
    ensures forall n :: n in FromArray(cls, data, fixNested).value.props <==> n in Properties(cls)
  {
    assert FromArray(cls, data, fixNested) == BaseConstruct(cls, data, fixNested);
    AbsorbKeepsProperties(SchemaOf(cls), data, fixNested);
  }

  /**
   * `collection` keeps the length and order of its input, and item `i` of
   * the result is `fromArray` of item `i`, an instance of the class.
   */
  lemma CollectionItems(cls: DtoClass, items: seq<Entry>, fixNested: bool)
    requires CollectionOf(cls, items, fixNested).Ok?
    ensures |CollectionOf(cls, items, fixNested).value| == |items|
    ensures forall i :: 0 <= i < |items| ==>
      items[i].val.Arr? && FromArray(cls, items[i].val.entries, fixNested).Ok? &&
      CollectionOf(cls, items, fixNested).value[i] == Entry(items[i].key, Obj(FromArray(cls, items[i].val.entries, fixNested).value)) &&
      CollectionOf(cls, items, fixNested).value[i].val.rec.cls == cls
  {
    forall i | 0 <= i < |items|
      ensures FromArray(cls, items[i].val.entries, fixNested).Ok? && FromArray(cls, items[i].val.entries, fixNested).value.cls == cls
    {
      FromArrayDeclared(cls, items[i].val.entries, fixNested);
    }
  }

  /**
   * As written, `fromArray` of either class with its own constructor fails
   * with a `TypeError` when the answer holds an array under one of its
   * object-typed properties: a party of the purchase invoice, or the
   * invoice of the accept/reject answer.
   */
  lemma AsWrittenNestedRejected(cls: DtoClass, data: seq<Entry>, key: string)
    requires (cls == SimplePurchaseInvoiceDto && key in SimplePurchaseInvoice.Parties) ||
             (cls == AcceptRejectResponseDto && key == "invoice")
    requires Lookup(data, StrKey(key)).Some? && Lookup(data, StrKey(key)).value.Arr?
    ensures FromArray(cls, data, false).Err? && FromArray(cls, data, false).error.TypeError?
  {
    if cls == SimplePurchaseInvoiceDto {
      SimplePurchaseInvoice.AsWrittenRejectsPartyArray(data, key);
    } else {
      AcceptRejectResponse.AsWrittenRejectsInvoiceArray(data);
    }
  }

  /**
   * For a class that keeps the base constructor, `fromArray($r->toArray())`
   * rebuilds a record of plain values exactly, as written or corrected.
   */
  lemma FromArrayRoundTrip(r: Record, fixNested: bool)
    requires r.cls != SimplePurchaseInvoiceDto && r.cls != AcceptRejectResponseDto
    requires PlainRecord(r)
    ensures FromArray(r.cls, AsArray(r), fixNested) == Ok(r)
  {
    BaseDto.FromArrayOfToArray(r, fixNested);
  }
}

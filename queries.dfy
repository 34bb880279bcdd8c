/**
 * The query arrays the invoice services build step by step: start empty
 * and insert each filter only when it was given.
 */
module Queries {
  import opened Wrappers
  import opened PhpValues

  /** `if ($v !== null) { $query[$k] = $v; }`. */
  function PutIfGiven(query: seq<Entry>, k: string, v: Option<string>): (q: seq<Entry>)
  {
    if v.Some? then Put(query, StrKey(k), Str(v.value)) else query
  }

  /** A nullable string argument as PHP puts it into an array literal: the string, or null. */
  function Nullable(s: Option<string>): Value
  {
    if s.Some? then Str(s.value) else Null
  }

  /** `['invoiceId' => $invoiceId]`. */
  function InvoiceQuery(invoiceId: int): seq<Entry>
  {
    Single("invoiceId", Int(invoiceId))
  }

  /** The key `k`, when its value was given. */
  function KeyIfGiven(k: string, v: Option<string>): seq<Key>
  {
    if v.Some? then [StrKey(k)] else []
  }

  /**
   * The `status`/`dateFrom`/`dateTo` query of `getIds` and `getOverview`
   * (dates already in ISO 8601 form).
   */
  function FilterQuery(status: Option<string>, dateFrom: Option<string>, dateTo: Option<string>): (q: seq<Entry>)
  {
    PutIfGiven(PutIfGiven(PutIfGiven([], "status", status), "dateFrom", dateFrom), "dateTo", dateTo)
  }

  /** The entry `k => v`, when `v` was given. */
  function EntryIfGiven(k: string, v: Option<string>): seq<Entry>
  {
    if v.Some? then [Entry(StrKey(k), Str(v.value))] else []
  }

  /** A conditional insert of a key not yet in the query appends its entry when given and changes nothing else. */
  lemma PutIfGivenAppends(query: seq<Entry>, k: string, v: Option<string>)
    requires StrKey(k) !in Keys(query)
    ensures PutIfGiven(query, k, v) == query + EntryIfGiven(k, v)
  {
  }

  /** The first two steps of the filter query: `status`, then `dateFrom`; `dateTo` is not yet a key. */
  lemma StatusThenDateFrom(status: Option<string>, dateFrom: Option<string>)
    ensures PutIfGiven(PutIfGiven([], "status", status), "dateFrom", dateFrom) ==
      EntryIfGiven("status", status) + EntryIfGiven("dateFrom", dateFrom)
    ensures StrKey("dateTo") !in Keys(EntryIfGiven("status", status) + EntryIfGiven("dateFrom", dateFrom))
  {
    var q1 := PutIfGiven([], "status", status);
    PutIfGivenAppends([], "status", status);
    assert Keys(q1) == KeyIfGiven("status", status);
    PutIfGivenAppends(q1, "dateFrom", dateFrom);
  }

  /**
   * The filter query holds exactly the given filters, each with its value,
   * in the order `status`, `dateFrom`, `dateTo`.
   */
  lemma FilterQueryEntries(status: Option<string>, dateFrom: Option<string>, dateTo: Option<string>)
    ensures FilterQuery(status, dateFrom, dateTo) ==
      EntryIfGiven("status", status) + EntryIfGiven("dateFrom", dateFrom) + EntryIfGiven("dateTo", dateTo)
  {
    StatusThenDateFrom(status, dateFrom);
    PutIfGivenAppends(EntryIfGiven("status", status) + EntryIfGiven("dateFrom", dateFrom), "dateTo", dateTo);
  }
}

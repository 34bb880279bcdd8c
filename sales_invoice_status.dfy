/**
 * `SalesInvoiceStatus`: the status of an invoice the company sent, a
 * string-backed enum whose backing strings are the case names.
 */
module SalesInvoiceStatuses {
  import opened Wrappers

  datatype SalesInvoiceStatus =
    | Draft
    | New
    | Sent
    | Delivered
    | Mistake
    | Approved
    | Rejected
    | Cancelled
    | Storno
    | Sending

  /** `cases()`: every case, in declaration order. */
  const Cases: seq<SalesInvoiceStatus> :=
    [Draft, New, Sent, Delivered, Mistake, Approved, Rejected, Cancelled, Storno, Sending]

  /** `->value`: the backing string. */
  function Value(s: SalesInvoiceStatus): string
  {
    match s
    case Draft => "Draft"
    case New => "New"
    case Sent => "Sent"
    case Delivered => "Delivered"
    case Mistake => "Mistake"
    case Approved => "Approved"
    case Rejected => "Rejected"
    case Cancelled => "Cancelled"
    case Storno => "Storno"
    case Sending => "Sending"
  }

  /** `tryFrom($v)`: the case backed by `v`, or none. */
  function TryFrom(v: string): (r: Option<SalesInvoiceStatus>)
    ensures r.Some? ==> Value(r.value) == v
  {
    if v == "Draft" then Some(Draft)
    else if v == "New" then Some(New)
    else if v == "Sent" then Some(Sent)
    else if v == "Delivered" then Some(Delivered)
    else if v == "Mistake" then Some(Mistake)
    else if v == "Approved" then Some(Approved)
    else if v == "Rejected" then Some(Rejected)
    else if v == "Cancelled" then Some(Cancelled)
    else if v == "Storno" then Some(Storno)
    else if v == "Sending" then Some(Sending)
    else None
  }

  /** `label()`: the Serbian display name. */
  function Label(s: SalesInvoiceStatus): string
  {
    match s
    case Draft => "Nacrt"
    case New => "Nova"
    case Sent => "Poslata"
    case Delivered => "Isporučena"
    case Mistake => "Greška"
    case Approved => "Odobrena"
    case Rejected => "Odbijena"
    case Cancelled => "Otkazana"
    case Storno => "Stornirana"
    case Sending => "U slanju"
  }

  /** `isFinal()`: membership in the list of settled statuses. */
  predicate IsFinal(s: SalesInvoiceStatus)
  {
    s in [Approved, Rejected, Cancelled, Storno]
  }

  /** The case list holds every case once: ten cases. */
  lemma CasesComplete()
    ensures |Cases| == 10
    ensures forall s :: s in Cases
    ensures forall i, j :: 0 <= i < j < |Cases| ==> Cases[i] != Cases[j]
  {
    forall s
      ensures s in Cases
    {
      match s
      case Draft => assert Cases[0] == s;
      case New => assert Cases[1] == s;
      case Sent => assert Cases[2] == s;
      case Delivered => assert Cases[3] == s;
      case Mistake => assert Cases[4] == s;
      case Approved => assert Cases[5] == s;
      case Rejected => assert Cases[6] == s;
      case Cancelled => assert Cases[7] == s;
      case Storno => assert Cases[8] == s;
      case Sending => assert Cases[9] == s;
    }
  }

  /** Decoding a case's backing string gives the case back. */
  lemma ValueRoundTrip(s: SalesInvoiceStatus)
    ensures TryFrom(Value(s)) == Some(s)
  {
  }

  /** Distinct cases have distinct backing strings, so decoding is injective. */
  lemma ValueInjective(a: SalesInvoiceStatus, b: SalesInvoiceStatus)
    ensures Value(a) == Value(b) ==> a == b
  {
  }

  /** The four settled statuses are final; the six in flight, 'Mistake' among them, are not. */
  lemma FinalCases(s: SalesInvoiceStatus)
    ensures IsFinal(s) <==> s == Approved || s == Rejected || s == Cancelled || s == Storno
    ensures s in [Draft, New, Sent, Delivered, Mistake, Sending] <==> !IsFinal(s)
  {
  }

  /** Every case has a label, and no two cases share one. */
  lemma LabelsDistinct(a: SalesInvoiceStatus, b: SalesInvoiceStatus)
    ensures |Label(a)| > 0
    ensures Label(a) == Label(b) ==> a == b
  {
  }
}

/**
 * `PurchaseInvoiceStatus`: the status of an invoice the company received,
 * a string-backed enum whose backing strings are the case names, the
 * misspelt 'UnsuccesfullyDelivered' included.
 */
module PurchaseInvoiceStatuses {
  import opened Wrappers

  datatype PurchaseInvoiceStatus =
    | New
    | Seen
    | Approved
    | Rejected
    | Cancelled
    | Storno
    | UnsuccesfullyDelivered

  /** `cases()`: every case, in declaration order. */
  const Cases: seq<PurchaseInvoiceStatus> := [New, Seen, Approved, Rejected, Cancelled, Storno, UnsuccesfullyDelivered]

  /** `->value`: the backing string. */
  function Value(s: PurchaseInvoiceStatus): string
  {
    match s
    case New => "New"
    case Seen => "Seen"
    case Approved => "Approved"
    case Rejected => "Rejected"
    case Cancelled => "Cancelled"
    case Storno => "Storno"
    case UnsuccesfullyDelivered => "UnsuccesfullyDelivered"
  }

  /** `tryFrom($v)`: the case backed by `v`, or none. */
  function TryFrom(v: string): (r: Option<PurchaseInvoiceStatus>)
    ensures r.Some? ==> Value(r.value) == v
  {
    if v == "New" then Some(New)
    else if v == "Seen" then Some(Seen)
    else if v == "Approved" then Some(Approved)
    else if v == "Rejected" then Some(Rejected)
    else if v == "Cancelled" then Some(Cancelled)
    else if v == "Storno" then Some(Storno)
    else if v == "UnsuccesfullyDelivered" then Some(UnsuccesfullyDelivered)
    else None
  }

  /** `label()`: the Serbian display name. */
  function Label(s: PurchaseInvoiceStatus): string
  {
    match s
    case New => "Nova"
    case Seen => "Pregledana"
    case Approved => "Odobrena"
    case Rejected => "Odbijena"
    case Cancelled => "Otkazana"
    case Storno => "Stornirana"
    case UnsuccesfullyDelivered => "Neuspešno isporučena"
  }

  /** `isFinal()`: membership in the list of settled statuses. */
  predicate IsFinal(s: PurchaseInvoiceStatus)
  {
    s in [Approved, Rejected, Cancelled, Storno]
  }

  /** `requiresAction()`: membership in the list of statuses awaiting the receiver. */
  predicate RequiresAction(s: PurchaseInvoiceStatus)
  {
    s in [New, Seen]
  }

  /** The case list holds every case once: seven cases. */
  lemma CasesComplete()
    ensures |Cases| == 7
    ensures forall s :: s in Cases
    ensures forall i, j :: 0 <= i < j < |Cases| ==> Cases[i] != Cases[j]
  {
    forall s
      ensures s in Cases
    {
      match s
      case New => assert Cases[0] == s;
      case Seen => assert Cases[1] == s;
      case Approved => assert Cases[2] == s;
      case Rejected => assert Cases[3] == s;
      case Cancelled => assert Cases[4] == s;
      case Storno => assert Cases[5] == s;
      case UnsuccesfullyDelivered => assert Cases[6] == s;
    }
  }

  /** Decoding a case's backing string gives the case back. */
  lemma ValueRoundTrip(s: PurchaseInvoiceStatus)
    ensures TryFrom(Value(s)) == Some(s)
  {
  }

  /** Distinct cases have distinct backing strings, so decoding is injective. */
  lemma ValueInjective(a: PurchaseInvoiceStatus, b: PurchaseInvoiceStatus)
    ensures Value(a) == Value(b) ==> a == b
  {
  }

  /**
   * Every case is final, awaits action, or is 'UnsuccesfullyDelivered',
   * and exactly one of these.
   */
  lemma StatusPartition(s: PurchaseInvoiceStatus)
    ensures IsFinal(s) <==> s == Approved || s == Rejected || s == Cancelled || s == Storno
    ensures RequiresAction(s) <==> s == New || s == Seen
    ensures !(IsFinal(s) && RequiresAction(s))
    ensures s == UnsuccesfullyDelivered <==> !IsFinal(s) && !RequiresAction(s)
  {
  }

  /** Every case has a label, and no two cases share one. */
  lemma LabelsDistinct(a: PurchaseInvoiceStatus, b: PurchaseInvoiceStatus)
    ensures |Label(a)| > 0
    ensures Label(a) == Label(b) ==> a == b
  {
  }
}

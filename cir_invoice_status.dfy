/**
 * `CirInvoiceStatus`: an invoice's status in the central invoice register
 * (CIR), a string-backed enum whose backing strings are the case names.
 */
module CirInvoiceStatuses {
  import Wrappers

  datatype CirInvoiceStatus =
    | None
    | ActiveCir
    | InvalidCir
    | CancelledCir
    | PartiallySettled
    | Settled

  /** `cases()`: every case, in declaration order. */
  const Cases: seq<CirInvoiceStatus> := [None, ActiveCir, InvalidCir, CancelledCir, PartiallySettled, Settled]

  /** `->value`: the backing string. */
  function Value(s: CirInvoiceStatus): string
  {
    match s
    case None => "None"
    case ActiveCir => "ActiveCir"
    case InvalidCir => "InvalidCir"
    case CancelledCir => "CancelledCir"
    case PartiallySettled => "PartiallySettled"
    case Settled => "Settled"
  }

  /** `tryFrom($v)`: the case backed by `v`, or none. */
  function TryFrom(v: string): (r: Wrappers.Option<CirInvoiceStatus>)
    ensures r.Some? ==> Value(r.value) == v
  {
    if v == "None" then Wrappers.Some(None)
    else if v == "ActiveCir" then Wrappers.Some(ActiveCir)
    else if v == "InvalidCir" then Wrappers.Some(InvalidCir)
    else if v == "CancelledCir" then Wrappers.Some(CancelledCir)
    else if v == "PartiallySettled" then Wrappers.Some(PartiallySettled)
    else if v == "Settled" then Wrappers.Some(Settled)
    else Wrappers.None
  }

  /** `label()`: the Serbian display name. */
  function Label(s: CirInvoiceStatus): string
  {
    match s
    case None => "Nema"
    case ActiveCir => "Aktivna na CIR"
    case InvalidCir => "Nevažeća na CIR"
    case CancelledCir => "Otkazana na CIR"
    case PartiallySettled => "Delimično izmirena"
    case Settled => "Izmirena"
  }

  /** The case list holds every case once: six cases. */
  lemma CasesComplete()
    ensures |Cases| == 6
    ensures forall s :: s in Cases
    ensures forall i, j :: 0 <= i < j < |Cases| ==> Cases[i] != Cases[j]
  {
    forall s
      ensures s in Cases
    {
      match s
      case None => assert Cases[0] == s;
      case ActiveCir => assert Cases[1] == s;
      case InvalidCir => assert Cases[2] == s;
      case CancelledCir => assert Cases[3] == s;
      case PartiallySettled => assert Cases[4] == s;
      case Settled => assert Cases[5] == s;
    }
  }

  /** Decoding a case's backing string gives the case back. */
  lemma ValueRoundTrip(s: CirInvoiceStatus)
    ensures TryFrom(Value(s)) == Wrappers.Some(s)
  {
  }

  /** Distinct cases have distinct backing strings, so decoding is injective. */
  lemma ValueInjective(a: CirInvoiceStatus, b: CirInvoiceStatus)
    ensures Value(a) == Value(b) ==> a == b
  {
  }

  /** Every case has a label, and no two cases share one. */
  lemma LabelsDistinct(a: CirInvoiceStatus, b: CirInvoiceStatus)
    ensures |Label(a)| > 0
    ensures Label(a) == Label(b) ==> a == b
  {
  }
}

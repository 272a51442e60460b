/** The payments page: the payment search with its status filter, the
    pending counter and the receipt, badge and label shown per row. */
module Payments {
  import opened Seqs
  import opened Text
  import opened Types

  /** The status as the backend spells it. */
  function StatusText(s: PaymentStatus): (t: string)
    ensures t != [] && forall i :: 0 <= i < |t| ==> IsLowerAscii(t[i])
  {
    match s
    case Pending => "pending"
    case Completed => "completed"
    case Refunded => "refunded"
    case Failed => "failed"
  }

  /** The payment search: the receipt number (when present) or the id
      contains the term ignoring case, and the status filter (None is
      'all') matches. */
  predicate PaymentMatches(p: Payment, searchTerm: string, statusFilter: Option<PaymentStatus>) {
    && ((p.receipt_number.Some? && ContainsIgnoreCase(p.receipt_number.value, searchTerm))
        || ContainsIgnoreCase(p.id, searchTerm))
    && (statusFilter.None? || p.status == statusFilter.value)
  }

  function FilteredPayments(payments: seq<Payment>, searchTerm: string, statusFilter: Option<PaymentStatus>)
    : (r: seq<Payment>)
    ensures forall i :: 0 <= i < |r| ==> r[i] in payments && PaymentMatches(r[i], searchTerm, statusFilter)
    ensures forall i :: 0 <= i < |payments| && PaymentMatches(payments[i], searchTerm, statusFilter) ==> payments[i] in r
  {
    Filter(payments, (p: Payment) => PaymentMatches(p, searchTerm, statusFilter))
  }

  /** An empty search term matches through the id of every payment, so
      with no status filter every payment is listed. */
  lemma EmptySearchListsAll(payments: seq<Payment>)
    ensures FilteredPayments(payments, "", None) == payments
  {
    assert ToLower("") == "";
    forall i | 0 <= i < |payments| ensures PaymentMatches(payments[i], "", None) {
      ContainsEmpty(ToLower(payments[i].id));
    }
    FilterAll(payments, (p: Payment) => PaymentMatches(p, "", None));
  }

  function PendingPayments(payments: seq<Payment>): (n: nat)
    ensures n <= |payments|
    ensures n == 0 <==> forall i :: 0 <= i < |payments| ==> payments[i].status != Pending
  {
    Count(payments, (p: Payment) => p.status == Pending)
  }

  /** The pending counter equals the length of the list shown with an
      empty search and the 'pending' filter. */
  lemma PendingCountMatchesList(payments: seq<Payment>)
    ensures PendingPayments(payments) == |FilteredPayments(payments, "", Some(Pending))|
  {
    assert ToLower("") == "";
    forall i | 0 <= i < |payments|
      ensures PaymentMatches(payments[i], "", Some(Pending)) == (payments[i].status == Pending)
    {
      ContainsEmpty(ToLower(payments[i].id));
    }
    FilterCongruent(payments, (p: Payment) => PaymentMatches(p, "", Some(Pending)), (p: Payment) => p.status == Pending);
    FilterLength(payments, (p: Payment) => p.status == Pending);
  }

  /** The receipt column: the receipt number, or the first 8 characters of
      the id when there is none. */
  function ReceiptLabel(p: Payment): (r: string)
    ensures p.receipt_number.Some? && p.receipt_number.value != "" ==> r == p.receipt_number.value
    ensures p.receipt_number.None? || p.receipt_number.value == "" ==> |r| <= 8 && StartsWith(p.id, r)
    ensures p.receipt_number.None? || p.receipt_number.value == "" ==> (|p.id| <= 8 ==> r == p.id)
  {
    if p.receipt_number.Some? && p.receipt_number.value != "" then p.receipt_number.value else Take(p.id, 8)
  }

  datatype BadgeVariant = DefaultBadge | OutlineBadge

  /** The status badge is solid for settled outcomes (completed, failed)
      and outlined for the rest. */
  function StatusBadge(s: PaymentStatus): (v: BadgeVariant)
    ensures v == DefaultBadge <==> s == Completed || s == Failed
    ensures v == OutlineBadge <==> s == Pending || s == Refunded
  {
    match s
    case Completed | Failed => DefaultBadge
    case _ => OutlineBadge
  }

  /** The status label: the status text with its first letter upper-cased. */
  function StatusLabel(s: PaymentStatus): (r: string)
    ensures |r| == |StatusText(s)| && r[0] == UpperChar(StatusText(s)[0]) && r[1..] == StatusText(s)[1..]
    ensures IsUpperAscii(r[0])
  {
    Capitalize(StatusText(s))
  }

  /** Lower-casing the label gives back the status text, so no two
      statuses share a label. */
  lemma LabelRoundTrip(s: PaymentStatus)
    ensures ToLower(StatusLabel(s)) == StatusText(s)
  {
    CapitalizeLowerRoundTrip(StatusText(s));
  }

  lemma LabelsDistinct(s1: PaymentStatus, s2: PaymentStatus)
    requires s1 != s2
    ensures StatusLabel(s1) != StatusLabel(s2)
  {
    LabelRoundTrip(s1);
    LabelRoundTrip(s2);
  }
}

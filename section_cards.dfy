/** The summary cards of the dashboard home: occupancy rate, today's
    revenue and today's transaction count. The other card figures are the
    counters of the bookings and rooms pages (`Bookings.CheckedInCount`,
    `Bookings.TodaysCheckins`, `Bookings.TodaysCheckouts`,
    `Rooms.StatusCount`). */
module SectionCards {
  import opened Seqs
  import opened Text
  import opened Types

  /** `Math.round(checkedIn / totalRooms * 100)`, or 0 without rooms: the
      percentage rounded to the nearest whole number, halves rounded up. */
  function OccupancyRate(checkedIn: nat, totalRooms: nat): (r: nat)
    ensures totalRooms == 0 ==> r == 0
    ensures totalRooms > 0 ==> 2 * totalRooms * r <= 200 * checkedIn + totalRooms < 2 * totalRooms * (r + 1)
  {
    if totalRooms == 0 then 0 else (200 * checkedIn + totalRooms) / (2 * totalRooms)
  }

  /** Multiplying by a positive factor keeps a strict order, so it can be cancelled. */
  lemma CancelFactor(k: int, a: int, b: int)
    requires k > 0 && k * a < k * b
    ensures a < b
  {
  }

  /** The rate is 0 for an empty hotel and 100 for a full one. */
  lemma OccupancyEmptyAndFull(totalRooms: nat)
    requires totalRooms > 0
    ensures OccupancyRate(0, totalRooms) == 0
    ensures OccupancyRate(totalRooms, totalRooms) == 100
  {
    var t := totalRooms;
    var e, f := OccupancyRate(0, t), OccupancyRate(t, t);
    CancelFactor(2 * t, e, 1);
    CancelFactor(2 * t, f, 101);
    CancelFactor(2 * t, 100, f + 1);
  }

  /** The rate is at most 100 while no more guests are checked in than
      there are rooms, and it never falls when more guests check in. */
  lemma {:induction false} OccupancyMonotone(checkedIn: nat, more: nat, totalRooms: nat)
    requires totalRooms > 0 && checkedIn <= more
    ensures OccupancyRate(checkedIn, totalRooms) <= OccupancyRate(more, totalRooms)
    ensures more <= totalRooms ==> OccupancyRate(more, totalRooms) <= 100
  {
    var t := totalRooms;
    var a, b := OccupancyRate(checkedIn, t), OccupancyRate(more, t);
    CancelFactor(2 * t, a, b + 1);
    if more <= t {
      CancelFactor(2 * t, b, 101);
    }
  }

  /** Payments that count towards today's revenue. */
  predicate CountsToday(p: Payment, today: string) {
    p.status == Completed && StartsWith(p.processed_at, today)
  }

  /** Sum of the amounts of a list of payments. */
  function SumAmounts(payments: seq<Payment>): int
    decreases |payments|
  {
    if payments == [] then 0 else payments[0].amount + SumAmounts(payments[1..])
  }

  /** Today's revenue: completed payments processed today (`today` is the
      ISO date text), amounts added up; 0 when there are none. */
  function TodaysRevenue(payments: seq<Payment>, today: string): (total: int)
    ensures (forall i :: 0 <= i < |payments| ==> !CountsToday(payments[i], today)) ==> total == 0
    ensures (forall i :: 0 <= i < |payments| ==> payments[i].amount >= 0) ==> total >= 0
    decreases |payments|
  {
    if payments == [] then 0
    else
      var rest := TodaysRevenue(payments[1..], today);
      assert forall i :: 1 <= i < |payments| ==> payments[i] == payments[1..][i - 1];
      (if CountsToday(payments[0], today) then payments[0].amount else 0) + rest
  }

  /** Today's revenue is the sum over the filtered list. */
  lemma {:induction false} RevenueIsSumOfFiltered(payments: seq<Payment>, today: string)
    ensures TodaysRevenue(payments, today) == SumAmounts(Filter(payments, (p: Payment) => CountsToday(p, today)))
    decreases |payments|
  {
    if payments != [] {
      var keep := (p: Payment) => CountsToday(p, today);
      RevenueIsSumOfFiltered(payments[1..], today);
      var f := Filter(payments[1..], keep);
      assert Filter(payments, keep) == (if keep(payments[0]) then [payments[0]] else []) + f;
      if keep(payments[0]) {
        var g := [payments[0]] + f;
        assert g[1..] == f;
        assert SumAmounts(g) == payments[0].amount + SumAmounts(f);
      } else {
        assert [] + f == f;
      }
    }
  }

  /** Revenue adds up across lists: a day's revenue over two batches is
      the sum of the two. */
  lemma {:induction false} RevenueAppend(a: seq<Payment>, b: seq<Payment>, today: string)
    ensures TodaysRevenue(a + b, today) == TodaysRevenue(a, today) + TodaysRevenue(b, today)
    decreases |a|
  {
    if a == [] {
      assert a + b == b;
    } else {
      assert (a + b)[1..] == a[1..] + b;
      RevenueAppend(a[1..], b, today);
    }
  }

  /** The transactions badge: payments processed today, whatever their status. */
  function TransactionsToday(payments: seq<Payment>, today: string): (n: nat)
    ensures n <= |payments|
  {
    Count(payments, (p: Payment) => StartsWith(p.processed_at, today))
  }

  /** Every payment that makes up today's revenue is one of today's transactions. */
  lemma RevenuePaymentsAreTransactions(payments: seq<Payment>, today: string)
    ensures Count(payments, (p: Payment) => CountsToday(p, today)) <= TransactionsToday(payments, today)
  {
    CountMono(payments, (p: Payment) => CountsToday(p, today), (p: Payment) => StartsWith(p.processed_at, today));
  }
}

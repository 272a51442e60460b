/** The kitchen board: meal orders split into four columns by status, the
    one forward move each column offers, and the short Delivered column. */
module Kitchen {
  import opened Seqs

  datatype MealOrderStatus = Ordered | Preparing | Ready | Delivered

  datatype MealOrder = MealOrder(id: string, booking_id: string, meal_type: string, status: MealOrderStatus)

  /** The partial update the board sends. */
  datatype MealOrderUpdate = MealOrderUpdate(
    meal_type: Option<string>,
    status: Option<MealOrderStatus>,
    notes: Option<string>)

  /** The orders of one column, in list order. */
  function Column(orders: seq<MealOrder>, s: MealOrderStatus): (r: seq<MealOrder>)
    ensures forall i :: 0 <= i < |r| ==> r[i] in orders && r[i].status == s
    ensures forall i :: 0 <= i < |orders| && orders[i].status == s ==> orders[i] in r
  {
    Filter(orders, (o: MealOrder) => o.status == s)
  }

  /** Each order is in the column of its own status and in no other, and
      the four columns together hold as many cards as there are orders. */
  lemma {:induction false} ColumnsPartition(orders: seq<MealOrder>)
    ensures forall i, s :: 0 <= i < |orders| ==> (orders[i] in Column(orders, s) <==> orders[i].status == s)
    ensures |Column(orders, Ordered)| + |Column(orders, Preparing)| + |Column(orders, Ready)| + |Column(orders, Delivered)|
            == |orders|
    decreases |orders|
  {
    forall i, s | 0 <= i < |orders| ensures orders[i] in Column(orders, s) <==> orders[i].status == s {
      if orders[i] in Column(orders, s) {
        var j :| 0 <= j < |Column(orders, s)| && Column(orders, s)[j] == orders[i];
      }
    }
    if orders != [] {
      ColumnsPartition(orders[1..]);
    }
  }

  function Rank(s: MealOrderStatus): nat {
    match s
    case Ordered => 0
    case Preparing => 1
    case Ready => 2
    case Delivered => 3
  }

  /** The status each column's button sends: start cooking, mark ready,
      deliver; delivered orders have no button. */
  function NextStatus(s: MealOrderStatus): (r: Option<MealOrderStatus>)
    ensures r.None? <==> s == Delivered
    ensures r.Some? ==> Rank(r.value) == Rank(s) + 1
  {
    match s
    case Ordered => Some(Preparing)
    case Preparing => Some(Ready)
    case Ready => Some(Delivered)
    case Delivered => None
  }

  /** Following the buttons from a new order takes exactly three moves to
      reach delivery. */
  lemma ThreeMovesToDelivery()
    ensures NextStatus(Ordered) == Some(Preparing)
    ensures NextStatus(NextStatus(Ordered).value) == Some(Ready)
    ensures NextStatus(NextStatus(NextStatus(Ordered).value).value) == Some(Delivered)
    ensures NextStatus(Delivered).None?
  {
  }

  /** `handleUpdateStatus` sends only the status. */
  function StatusUpdate(s: MealOrderStatus): (u: MealOrderUpdate)
    ensures u.status == Some(s) && u.meal_type.None? && u.notes.None?
  {
    MealOrderUpdate(None, Some(s), None)
  }

  /** The Delivered column shows the first five delivered orders. */
  function DeliveredShown(orders: seq<MealOrder>): (r: seq<MealOrder>)
    ensures |r| <= 5
    ensures |r| == if |Column(orders, Delivered)| <= 5 then |Column(orders, Delivered)| else 5
    ensures r == Column(orders, Delivered)[..|r|]
  {
    var delivered := Column(orders, Delivered);
    if |delivered| <= 5 then delivered else delivered[..5]
  }
}

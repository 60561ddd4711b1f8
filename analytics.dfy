/** The monthly order-status aggregation (`OrderAnalytics`) and the scopes it filters by. */
module Analytics {
  import opened Wrappers
  import opened Orders

  /** The three facts the engine reads from an order: the `OrderLike` protocol. */
  datatype OrderFacts = OrderFacts(orderDate: int, orderStatus: OrderStatus, ownerID: string)

  /** The `OrderModel: OrderLike` conformance. */
  function AsOrderLike(o: Order): (f: OrderFacts)
    ensures f.orderDate == o.date && f.ownerID == o.userId && f.orderStatus == o.status
  {
    OrderFacts(o.date, o.status, o.userId)
  }

  /**
   * Foundation's `DateInterval`. Its `contains` includes both the start and the end instant,
   * so a month interval also contains the first instant of the next month.
   */
  datatype DateInterval = DateInterval(start: int, end: int) {
    predicate Contains(d: int) {
      start <= d <= end
    }
  }

  /** One row of the status breakdown. */
  datatype StatusCount = StatusCount(status: OrderStatus, count: int) {
    function Id(): string {
      status.RawValue()
    }
  }

  /** `OrderScope`: all orders, or the orders of one owner. */
  datatype OrderScope = All | OwnerOnly(uid: string)

  /** `OrderScope.toPredicate()`; `view` is the type's `OrderLike` conformance. */
  function ToPredicate<T(!new)>(scope: OrderScope, view: T -> OrderFacts): (p: T -> bool)
    ensures scope.All? ==> forall o :: p(o)
    ensures scope.OwnerOnly? ==> forall o :: p(o) <==> view(o).ownerID == scope.uid
  {
    match scope
    case All => (o: T) => true
    case OwnerOnly(uid) => (o: T) => view(o).ownerID == uid
  }

  /** The order falls in the month and satisfies the extra filter. */
  predicate Retained<T>(o: T, view: T -> OrderFacts, interval: DateInterval, filter: T -> bool) {
    interval.Contains(view(o).orderDate) && filter(o)
  }

  /** How many retained orders have status `st`. */
  function Tally<T>(orders: seq<T>, view: T -> OrderFacts, interval: DateInterval, filter: T -> bool, st: OrderStatus): nat {
    if orders == [] then 0
    else
      var o := orders[|orders| - 1];
      Tally(orders[..|orders| - 1], view, interval, filter, st)
        + (if Retained(o, view, interval, filter) && view(o).orderStatus == st then 1 else 0)
  }

  /** How many orders are retained at all. */
  function RetainedCount<T>(orders: seq<T>, view: T -> OrderFacts, interval: DateInterval, filter: T -> bool): nat {
    if orders == [] then 0
    else
      RetainedCount(orders[..|orders| - 1], view, interval, filter)
        + (if Retained(orders[|orders| - 1], view, interval, filter) then 1 else 0)
  }

  /** The breakdown the engine promises: one zero-filled row per status, in declaration order. */
  function StatusRows<T>(orders: seq<T>, view: T -> OrderFacts, interval: DateInterval, filter: T -> bool): (rows: seq<StatusCount>)
    ensures |rows| == |AllStatuses|
    ensures forall i :: 0 <= i < |rows| ==> rows[i].status == AllStatuses[i]
    ensures forall i, j :: 0 <= i < j < |rows| ==> rows[i].status != rows[j].status
  {
    seq(|AllStatuses|, i requires 0 <= i < |AllStatuses| =>
      StatusCount(AllStatuses[i], Tally(orders, view, interval, filter, AllStatuses[i])))
  }

  /**
   * `OrderAnalytics.countsByStatus(orders:in:calendar:filter:)`. The calendar's month interval
   * for the reference date is passed in; `None` is the calendar failing to produce one.
   */
  method CountsByStatus<T>(orders: seq<T>, view: T -> OrderFacts, monthInterval: Option<DateInterval>, filter: T -> bool)
    returns (rows: seq<StatusCount>)
    ensures monthInterval.None? ==> rows == []
    ensures monthInterval.Some? ==> rows == StatusRows(orders, view, monthInterval.value, filter)
  {
    if monthInterval.None? {
      return [];
    }
    var interval := monthInterval.value;
    var counts: map<OrderStatus, int> := map[];
    for i := 0 to |orders|
      invariant forall st :: st in counts ==> counts[st] == Tally(orders[..i], view, interval, filter, st)
      invariant forall st :: st !in counts ==> Tally(orders[..i], view, interval, filter, st) == 0
    {
      var o := orders[i];
      assert orders[..i + 1][..i] == orders[..i];
      if interval.Contains(view(o).orderDate) && filter(o) {
        var st := view(o).orderStatus;
        counts := counts[st := (if st in counts then counts[st] else 0) + 1];
      }
    }
    assert orders[..|orders|] == orders;
    rows := seq(|AllStatuses|, i requires 0 <= i < |AllStatuses| =>
      StatusCount(AllStatuses[i], if AllStatuses[i] in counts then counts[AllStatuses[i]] else 0));
  }

  /** `OrderAnalytics.countsByStatus(orders:in:scope:calendar:)`: the filter is the scope's predicate. */
  method CountsByScope<T(!new)>(orders: seq<T>, view: T -> OrderFacts, monthInterval: Option<DateInterval>, scope: OrderScope)
    returns (rows: seq<StatusCount>)
    ensures monthInterval.None? ==> rows == []
    ensures monthInterval.Some? ==> rows == StatusRows(orders, view, monthInterval.value, ToPredicate(scope, view))
  {
    rows := CountsByStatus(orders, view, monthInterval, ToPredicate(scope, view));
  }

  function RowTotal(rows: seq<StatusCount>): int {
    if rows == [] then 0 else rows[0].count + RowTotal(rows[1..])
  }

  /** Each retained order is counted under exactly one status. */
  lemma {:induction false} TallyPartition<T>(orders: seq<T>, view: T -> OrderFacts, interval: DateInterval, filter: T -> bool)
    ensures Tally(orders, view, interval, filter, Scheduled) + Tally(orders, view, interval, filter, InProgress)
          + Tally(orders, view, interval, filter, Completed) + Tally(orders, view, interval, filter, Canceled)
         == RetainedCount(orders, view, interval, filter)
  {
    if orders != [] {
      TallyPartition(orders[..|orders| - 1], view, interval, filter);
    }
  }

  /** Conservation: the rows add up to the number of orders in the month passing the filter. */
  lemma RowsConserveOrders<T>(orders: seq<T>, view: T -> OrderFacts, interval: DateInterval, filter: T -> bool)
    ensures RowTotal(StatusRows(orders, view, interval, filter)) == RetainedCount(orders, view, interval, filter)
  {
    var rows := StatusRows(orders, view, interval, filter);
    TallyPartition(orders, view, interval, filter);
    var t := RowTotal(rows[3..]);
    assert t == rows[3].count by { assert rows[3..][1..] == []; assert RowTotal(rows[3..][1..]) == 0; assert rows[3..][0] == rows[3]; }
    assert RowTotal(rows[2..]) == rows[2].count + t by { assert rows[2..][1..] == rows[3..]; }
    assert RowTotal(rows[1..]) == rows[1].count + RowTotal(rows[2..]) by { assert rows[1..][1..] == rows[2..]; }
  }

  /** With no orders every status is still listed, with count zero. */
  lemma EmptyInputZeroRows<T>(view: T -> OrderFacts, interval: DateInterval, filter: T -> bool)
    ensures StatusRows([], view, interval, filter)
         == [StatusCount(Scheduled, 0), StatusCount(InProgress, 0), StatusCount(Completed, 0), StatusCount(Canceled, 0)]
  {
  }

  /** Bounds: no status counts more orders than were retained. */
  lemma {:induction false} TallyBounded<T>(orders: seq<T>, view: T -> OrderFacts, interval: DateInterval, filter: T -> bool, st: OrderStatus)
    ensures Tally(orders, view, interval, filter, st) <= RetainedCount(orders, view, interval, filter) <= |orders|
  {
    if orders != [] {
      TallyBounded(orders[..|orders| - 1], view, interval, filter, st);
    }
  }

  /** Appending an order another owner placed leaves an owner-scoped breakdown unchanged. */
  lemma OwnerScopeIgnoresOthers(orders: seq<Order>, o: Order, interval: DateInterval, uid: string)
    requires o.userId != uid
    ensures StatusRows(orders + [o], AsOrderLike, interval, ToPredicate(OwnerOnly(uid), AsOrderLike))
         == StatusRows(orders, AsOrderLike, interval, ToPredicate(OwnerOnly(uid), AsOrderLike))
  {
    assert (orders + [o])[..|orders|] == orders;
  }

  /** Under the `all` scope, an added order in the month raises exactly its own status's row by one. */
  lemma AllScopeCountsEveryOrder(orders: seq<Order>, o: Order, interval: DateInterval, st: OrderStatus)
    requires interval.Contains(o.date)
    ensures Tally(orders + [o], AsOrderLike, interval, ToPredicate(All, AsOrderLike), st)
         == Tally(orders, AsOrderLike, interval, ToPredicate(All, AsOrderLike), st) + (if o.status == st then 1 else 0)
  {
    assert (orders + [o])[..|orders|] == orders;
  }

  /**
   * The end instant of a month interval is also the start of the next month; `contains`
   * admits an order dated exactly there into both months.
   */
  lemma BoundaryInstantInBothMonths(march: DateInterval, april: DateInterval)
    requires march.start < march.end && april.start == march.end < april.end
    ensures march.Contains(april.start) && april.Contains(april.start)
  {
  }

  function FactsOf(f: OrderFacts): OrderFacts {
    f
  }

  /**
   * A month of four orders: in-month completed and scheduled orders of "u1", an order of "u1"
   * dated after the month's end, and an in-month order of "u2". The owner-scoped breakdown for
   * "u1" counts one scheduled and one completed order.
   */
  lemma OwnerScopedMonthExample()
    ensures var march := DateInterval(0, 100);
      var orders := [OrderFacts(5, Completed, "u1"), OrderFacts(20, Scheduled, "u1"),
                     OrderFacts(101, Completed, "u1"), OrderFacts(10, Completed, "u2")];
      StatusRows(orders, FactsOf, march, ToPredicate(OwnerOnly("u1"), FactsOf))
      == [StatusCount(Scheduled, 1), StatusCount(InProgress, 0), StatusCount(Completed, 1), StatusCount(Canceled, 0)]
  {
    var march := DateInterval(0, 100);
    var orders := [OrderFacts(5, Completed, "u1"), OrderFacts(20, Scheduled, "u1"),
                   OrderFacts(101, Completed, "u1"), OrderFacts(10, Completed, "u2")];
    var p := ToPredicate(OwnerOnly("u1"), FactsOf);
    assert orders[..3][..2][..1][..0] == [];
    assert orders[..3][..2][..1] == orders[..1];
    assert orders[..3][..2] == orders[..2];
    forall st ensures Tally(orders, FactsOf, march, p, st) == (if st == Scheduled || st == Completed then 1 else 0) {
      assert Tally(orders[..1], FactsOf, march, p, st) == (if st == Completed then 1 else 0);
      assert Tally(orders[..2], FactsOf, march, p, st) == (if st == Scheduled || st == Completed then 1 else 0);
      assert Tally(orders[..3], FactsOf, march, p, st) == (if st == Scheduled || st == Completed then 1 else 0);
    }
  }
}

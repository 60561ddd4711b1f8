/** The monthly per-service revenue breakdown (`ServiceAnalytics`). */
module ServiceAnalytics {
  import opened Wrappers
  import opened Seqs
  import opened Sorting
  import opened Orders
  import opened Analytics

  /** One service's aggregate: how many line items, and the sum of their unit prices. */
  datatype ServiceRevenueSlice = ServiceRevenueSlice(service: DetailingService, count: int, revenue: real) {
    function Id(): DetailingService {
      service
    }

    /** `title`: the service's raw value, which is never empty. */
    function Title(): (t: string)
      ensures t == service.RawValue()
      ensures |t| > 0
    {
      service.RawValue()
    }
  }

  /** Slices are told apart by their titles exactly when they are for different services. */
  lemma TitleIdentifiesService(a: ServiceRevenueSlice, b: ServiceRevenueSlice)
    ensures a.Title() == b.Title() <==> a.Id() == b.Id()
  {
    RawValueInjective(a.service, b.service);
  }

  /** The order test of `revenueByService`: dated in the month and accepted by `filter`. */
  function InMonth(interval: DateInterval, filter: Order -> bool): Order -> bool {
    (o: Order) => interval.Contains(o.date) && filter(o)
  }

  /** The orders that are aggregated, in input order. */
  function Qualifying(orders: seq<Order>, interval: DateInterval, filter: Order -> bool): (r: seq<Order>)
    ensures forall o :: o in r <==> o in orders && interval.Contains(o.date) && filter(o)
  {
    Filter(orders, InMonth(interval, filter))
  }

  /** Every line item of `orders`, order by order. */
  function Items(orders: seq<Order>): seq<OrderItem> {
    if orders == [] then [] else Items(orders[..|orders| - 1]) + orders[|orders| - 1].items
  }

  /** The line items `revenueByService` walks. */
  function MonthItems(orders: seq<Order>, interval: DateInterval, filter: Order -> bool): seq<OrderItem> {
    Items(Qualifying(orders, interval, filter))
  }

  /** How many of `items` are for `svc`. */
  function ItemCount(items: seq<OrderItem>, svc: DetailingService): nat {
    if items == [] then 0
    else ItemCount(items[..|items| - 1], svc) + (if items[|items| - 1].service == svc then 1 else 0)
  }

  /** The sum of the unit prices of the items for `svc`; quantities do not enter. */
  function ItemRevenue(items: seq<OrderItem>, svc: DetailingService): real {
    if items == [] then 0.0
    else ItemRevenue(items[..|items| - 1], svc) + (if items[|items| - 1].service == svc then items[|items| - 1].unitPrice else 0.0)
  }

  /** The slice the aggregation emits for `svc`. */
  function SliceFor(items: seq<OrderItem>, svc: DetailingService): ServiceRevenueSlice {
    ServiceRevenueSlice(svc, ItemCount(items, svc), ItemRevenue(items, svc))
  }

  /** One slice per service of `services` that occurs in `items`, in the order of `services`. */
  function SeenSlices(services: seq<DetailingService>, items: seq<OrderItem>): seq<ServiceRevenueSlice> {
    if services == [] then []
    else (if ItemCount(items, services[0]) > 0 then [SliceFor(items, services[0])] else []) + SeenSlices(services[1..], items)
  }

  /** `$0.revenue > $1.revenue` as an ordering: the result never has a larger revenue after a smaller one. */
  predicate RevenueGe(a: ServiceRevenueSlice, b: ServiceRevenueSlice) {
    a.revenue >= b.revenue
  }

  /** What `revenueByService` promises: the seen slices, reordered by non-increasing revenue. */
  ghost predicate IsRevenueBreakdown(r: seq<ServiceRevenueSlice>, items: seq<OrderItem>) {
    multiset(r) == multiset(SeenSlices(AllServices, items)) && SortedBy(r, RevenueGe)
  }

  /** The dictionaries of the loop hold the count and the price sum of exactly the services seen in `items`. */
  ghost predicate Tracks(counts: map<DetailingService, int>, sums: map<DetailingService, real>, items: seq<OrderItem>) {
    forall svc ::
      && (svc in counts <==> ItemCount(items, svc) > 0)
      && (svc in sums <==> svc in counts)
      && (svc in counts ==> counts[svc] == ItemCount(items, svc) && sums[svc] == ItemRevenue(items, svc))
  }

  /** The `compactMap` over all services: a slice wherever both dictionaries have an entry. */
  function CompactSlices(services: seq<DetailingService>, counts: map<DetailingService, int>, sums: map<DetailingService, real>)
    : seq<ServiceRevenueSlice>
  {
    if services == [] then []
    else
      (if services[0] in counts && services[0] in sums
       then [ServiceRevenueSlice(services[0], counts[services[0]], sums[services[0]])] else [])
      + CompactSlices(services[1..], counts, sums)
  }

  lemma {:induction false} CompactSlicesSeen(services: seq<DetailingService>, counts: map<DetailingService, int>,
                                             sums: map<DetailingService, real>, items: seq<OrderItem>)
    requires Tracks(counts, sums, items)
    ensures CompactSlices(services, counts, sums) == SeenSlices(services, items)
  {
    if services != [] {
      CompactSlicesSeen(services[1..], counts, sums, items);
    }
  }

  lemma RevenueGeTotal()
    ensures TotalPreorder(RevenueGe)
  {
  }

  lemma ItemsStep(orders: seq<Order>, i: nat)
    requires i < |orders|
    ensures Items(orders[..i + 1]) == Items(orders[..i]) + orders[i].items
  {
    assert orders[..i + 1][..i] == orders[..i];
  }

  /** One iteration of the inner loop keeps the dictionaries in step with the items walked. */
  lemma TracksStep(counts: map<DetailingService, int>, sums: map<DetailingService, real>, seen: seq<OrderItem>, item: OrderItem)
    requires Tracks(counts, sums, seen)
    ensures Tracks(counts[item.service := (if item.service in counts then counts[item.service] else 0) + 1],
                   sums[item.service := (if item.service in sums then sums[item.service] else 0.0) + item.unitPrice],
                   seen + [item])
  {
    var next := seen + [item];
    assert next[..|seen|] == seen;
    if item.service !in counts {
      UnseenHasNoRevenue(seen, item.service);
    }
    forall svc
      ensures ItemCount(next, svc) == ItemCount(seen, svc) + (if item.service == svc then 1 else 0)
      ensures ItemRevenue(next, svc) == ItemRevenue(seen, svc) + (if item.service == svc then item.unitPrice else 0.0)
    {
    }
  }

  /**
   * `ServiceAnalytics.revenueByService(orders:in:calendar:filter:)`; the calendar's month
   * interval is passed in, `None` when the calendar cannot produce one.
   */
  method RevenueByService(orders: seq<Order>, monthInterval: Option<DateInterval>, filter: Order -> bool)
    returns (r: seq<ServiceRevenueSlice>)
    ensures monthInterval.None? ==> r == []
    ensures monthInterval.Some? ==> IsRevenueBreakdown(r, MonthItems(orders, monthInterval.value, filter))
  {
    if monthInterval.None? {
      return [];
    }
    var interval := monthInterval.value;
    var filtered := Qualifying(orders, interval, filter);
    var counts: map<DetailingService, int> := map[];
    var sums: map<DetailingService, real> := map[];
    for i := 0 to |filtered|
      invariant Tracks(counts, sums, Items(filtered[..i]))
    {
      var order := filtered[i];
      ghost var before := Items(filtered[..i]);
      assert before + order.items[..0] == before;
      for j := 0 to |order.items|
        invariant Tracks(counts, sums, before + order.items[..j])
      {
        var item := order.items[j];
        assert before + order.items[..j + 1] == (before + order.items[..j]) + [item];
        TracksStep(counts, sums, before + order.items[..j], item);
        counts := counts[item.service := (if item.service in counts then counts[item.service] else 0) + 1];
        sums := sums[item.service := (if item.service in sums then sums[item.service] else 0.0) + item.unitPrice];
      }
      assert order.items[..|order.items|] == order.items;
      ItemsStep(filtered, i);
    }
    assert filtered[..|filtered|] == filtered;
    var compact := CompactSlices(AllServices, counts, sums);
    CompactSlicesSeen(AllServices, counts, sums, Items(filtered));
    r := SortBy(compact, RevenueGe);
    RevenueGeTotal();
    SortBySorted(compact, RevenueGe);
  }

  /** `revenueByService(orders:in:scope:calendar:)`: the filter is the scope's predicate. */
  method RevenueByScope(orders: seq<Order>, monthInterval: Option<DateInterval>, scope: OrderScope)
    returns (r: seq<ServiceRevenueSlice>)
    ensures monthInterval.None? ==> r == []
    ensures monthInterval.Some? ==>
      IsRevenueBreakdown(r, MonthItems(orders, monthInterval.value, ToPredicate(scope, AsOrderLike)))
  {
    r := RevenueByService(orders, monthInterval, ToPredicate(scope, AsOrderLike));
  }

  lemma {:induction false} ListedItemCounted(items: seq<OrderItem>, it: OrderItem)
    requires it in items
    ensures ItemCount(items, it.service) > 0
  {
    var last := items[|items| - 1];
    if last != it {
      assert items == items[..|items| - 1] + [last];
      ListedItemCounted(items[..|items| - 1], it);
    }
  }

  lemma {:induction false} UnseenHasNoRevenue(items: seq<OrderItem>, svc: DetailingService)
    requires ItemCount(items, svc) == 0
    ensures ItemRevenue(items, svc) == 0.0
  {
    if items != [] {
      UnseenHasNoRevenue(items[..|items| - 1], svc);
    }
  }

  lemma {:induction false} SeenSlicesShape(services: seq<DetailingService>, items: seq<OrderItem>)
    requires forall i, j :: 0 <= i < j < |services| ==> services[i] != services[j]
    ensures forall sl :: sl in SeenSlices(services, items) <==>
      sl.service in services && ItemCount(items, sl.service) > 0 && sl == SliceFor(items, sl.service)
    ensures forall i, j :: 0 <= i < j < |SeenSlices(services, items)| ==> SeenSlices(services, items)[i] != SeenSlices(services, items)[j]
  {
    if services != [] {
      var rest := SeenSlices(services[1..], items);
      SeenSlicesShape(services[1..], items);
      assert services == [services[0]] + services[1..];
      assert services[0] !in services[1..];
      if ItemCount(items, services[0]) > 0 {
        var s := SeenSlices(services, items);
        assert s == [SliceFor(items, services[0])] + rest;
        forall i, j | 0 <= i < j < |s| ensures s[i] != s[j] {
          if i == 0 {
            assert s[j] == rest[j - 1];
            assert s[j] in rest;
          } else {
            assert s[i] == rest[i - 1] && s[j] == rest[j - 1];
          }
        }
      }
    }
  }

  /**
   * The breakdown lists each service at most once; a service is listed exactly when some item
   * of a qualifying order is for it, and then with their number and the sum of their unit prices;
   * revenues never increase along the list.
   */
  lemma BreakdownContents(r: seq<ServiceRevenueSlice>, items: seq<OrderItem>)
    requires IsRevenueBreakdown(r, items)
    ensures forall sl :: sl in r ==> sl.count >= 1 && sl.count == ItemCount(items, sl.service) && sl.revenue == ItemRevenue(items, sl.service)
    ensures forall svc :: ItemCount(items, svc) > 0 <==> SliceFor(items, svc) in r
    ensures forall i, j :: 0 <= i < j < |r| ==> r[i].service != r[j].service
    ensures forall i, j :: 0 <= i < j < |r| ==> r[i].revenue >= r[j].revenue
  {
    AllServicesComplete();
    var seen := SeenSlices(AllServices, items);
    SeenSlicesShape(AllServices, items);
    assert forall sl :: sl in r <==> sl in seen by {
      forall sl ensures sl in r <==> sl in seen {
        assert sl in r <==> sl in multiset(r);
        assert sl in seen <==> sl in multiset(seen);
      }
    }
    DistinctPermutation(r, seen);
    forall i, j | 0 <= i < j < |r| ensures r[i].service != r[j].service {
      assert r[i] in r && r[j] in r;
    }
    forall svc ensures ItemCount(items, svc) > 0 <==> SliceFor(items, svc) in r {
      assert svc in AllServices;
    }
    forall i, j | 0 <= i < j < |r| ensures r[i].revenue >= r[j].revenue {
      assert RevenueGe(r[i], r[j]);
    }
  }

  /** A zero-priced item still makes its service appear. */
  lemma ZeroPriceItemListed(r: seq<ServiceRevenueSlice>, items: seq<OrderItem>, it: OrderItem)
    requires IsRevenueBreakdown(r, items) && it in items && it.unitPrice == 0.0
    ensures SliceFor(items, it.service) in r
  {
    ListedItemCounted(items, it);
    BreakdownContents(r, items);
  }

  lemma {:induction false} ItemsPrepend(o: Order, orders: seq<Order>)
    ensures Items([o] + orders) == o.items + Items(orders)
    decreases |orders|
  {
    if orders != [] {
      var init := orders[..|orders| - 1];
      assert ([o] + orders)[..|orders|] == [o] + init;
      ItemsPrepend(o, init);
    } else {
      assert ([o] + orders)[..0] == [];
    }
  }

  /** An order with no line items contributes nothing, whether or not it qualifies. */
  lemma EmptyOrderContributesNothing(o: Order, orders: seq<Order>, interval: DateInterval, filter: Order -> bool)
    requires o.items == []
    ensures MonthItems([o] + orders, interval, filter) == MonthItems(orders, interval, filter)
  {
    assert ([o] + orders)[1..] == orders;
    if InMonth(interval, filter)(o) {
      ItemsPrepend(o, Qualifying(orders, interval, filter));
    }
  }

  function SliceRevenue(sl: ServiceRevenueSlice): real {
    sl.revenue
  }

  function ServiceRevenue(items: seq<OrderItem>): DetailingService -> real {
    (svc: DetailingService) => ItemRevenue(items, svc)
  }

  lemma {:induction false} SeenSlicesRevenue(services: seq<DetailingService>, items: seq<OrderItem>)
    ensures Sum(SeenSlices(services, items), SliceRevenue) == Sum(services, ServiceRevenue(items))
  {
    if services != [] {
      var head := if ItemCount(items, services[0]) > 0 then [SliceFor(items, services[0])] else [];
      SeenSlicesRevenue(services[1..], items);
      SumAppend(head, SeenSlices(services[1..], items), SliceRevenue);
      if head == [] {
        UnseenHasNoRevenue(items, services[0]);
      } else {
        assert head[1..] == [];
      }
    }
  }

  lemma {:induction false} ServiceRevenueAppend(services: seq<DetailingService>, items: seq<OrderItem>, it: OrderItem)
    requires forall i, j :: 0 <= i < j < |services| ==> services[i] != services[j]
    ensures Sum(services, ServiceRevenue(items + [it]))
         == Sum(services, ServiceRevenue(items)) + (if it.service in services then it.unitPrice else 0.0)
  {
    if services != [] {
      assert (items + [it])[..|items|] == items;
      ServiceRevenueAppend(services[1..], items, it);
      assert services == [services[0]] + services[1..];
      assert services[0] == it.service ==> it.service !in services[1..] by {
        if services[0] in services[1..] {
          var k :| 0 <= k < |services[1..]| && services[1..][k] == services[0];
          assert services[0] == services[k + 1];
        }
      }
    }
  }

  lemma AllServicesRevenue(items: seq<OrderItem>)
    ensures Sum(AllServices, ServiceRevenue(items)) == LineTotalSum(items)
  {
    AllServicesComplete();
    ServicesRevenue(AllServices, items);
  }

  /** Summed over a list naming every service once, the per-service revenues give the total of the items. */
  lemma {:induction false} ServicesRevenue(services: seq<DetailingService>, items: seq<OrderItem>)
    requires forall svc :: svc in services
    requires forall i, j :: 0 <= i < j < |services| ==> services[i] != services[j]
    ensures Sum(services, ServiceRevenue(items)) == LineTotalSum(items)
  {
    if items == [] {
      ZeroSum(services, items);
    } else {
      var init := items[..|items| - 1];
      var last := items[|items| - 1];
      ServicesRevenue(services, init);
      assert items == init + [last];
      ServiceRevenueAppend(services, init, last);
    }
  }

  lemma {:induction false} ZeroSum(services: seq<DetailingService>, items: seq<OrderItem>)
    requires items == []
    ensures Sum(services, ServiceRevenue(items)) == 0.0
  {
    if services != [] {
      ZeroSum(services[1..], items);
    }
  }

  /** With exact arithmetic the listed revenues add up to the unit prices of all aggregated items. */
  lemma RevenueConserved(r: seq<ServiceRevenueSlice>, items: seq<OrderItem>)
    requires IsRevenueBreakdown(r, items)
    ensures Sum(r, SliceRevenue) == LineTotalSum(items)
  {
    SumPermutation(r, SeenSlices(AllServices, items), SliceRevenue);
    SeenSlicesRevenue(AllServices, items);
    AllServicesRevenue(items);
  }

  /** No aggregated items, no slices. */
  lemma NoItemsNoSlices(r: seq<ServiceRevenueSlice>)
    requires IsRevenueBreakdown(r, [])
    ensures r == []
  {
    NothingSeen(AllServices);
    assert |r| == |multiset(r)|;
  }

  lemma {:induction false} NothingSeen(services: seq<DetailingService>)
    ensures SeenSlices(services, []) == []
  {
    if services != [] {
      NothingSeen(services[1..]);
    }
  }

  function WashWaxItems(uuid: nat -> string): seq<OrderItem> {
    [OrderItem(uuid(0), ExteriorWash, 60.0, None), OrderItem(uuid(1), ExteriorWash, 60.0, None),
     OrderItem(uuid(2), Waxing, 40.0, None)]
  }

  /** Two washes at 60 and a wax at 40: washing comes first with two items and 120, then waxing with one and 40. */
  lemma WashAndWaxExample(r: seq<ServiceRevenueSlice>, uuid: nat -> string)
    requires IsRevenueBreakdown(r, WashWaxItems(uuid))
    ensures r == [ServiceRevenueSlice(ExteriorWash, 2, 120.0), ServiceRevenueSlice(Waxing, 1, 40.0)]
  {
    WashWaxSeen(uuid);
    TwoSlicesOrdered(r, ServiceRevenueSlice(ExteriorWash, 2, 120.0), ServiceRevenueSlice(Waxing, 1, 40.0));
  }

  lemma WashWaxTotals(uuid: nat -> string, svc: DetailingService)
    ensures ItemCount(WashWaxItems(uuid), svc) == (if svc == ExteriorWash then 2 else if svc == Waxing then 1 else 0)
    ensures ItemRevenue(WashWaxItems(uuid), svc) == (if svc == ExteriorWash then 120.0 else if svc == Waxing then 40.0 else 0.0)
  {
    var items := WashWaxItems(uuid);
    assert items[..2][..1][..0] == [] && items[..2][..1] == items[..1];
    assert ItemCount(items[..1], svc) == (if svc == ExteriorWash then 1 else 0);
    assert ItemRevenue(items[..1], svc) == (if svc == ExteriorWash then 60.0 else 0.0);
  }

  lemma WashWaxSeen(uuid: nat -> string)
    ensures SeenSlices(AllServices, WashWaxItems(uuid)) == [ServiceRevenueSlice(ExteriorWash, 2, 120.0), ServiceRevenueSlice(Waxing, 1, 40.0)]
  {
    var items := WashWaxItems(uuid);
    forall svc ensures ItemCount(items, svc) > 0 ==> svc == ExteriorWash || svc == Waxing {
      WashWaxTotals(uuid, svc);
    }
    WashWaxTotals(uuid, ExteriorWash);
    WashWaxTotals(uuid, Waxing);
    SeenWashThenWax(items);
  }

  /** Any items holding only washes and waxes, with these totals, show a wash slice and then a wax slice. */
  lemma SeenWashThenWax(items: seq<OrderItem>)
    requires forall svc :: ItemCount(items, svc) > 0 ==> svc == ExteriorWash || svc == Waxing
    requires ItemCount(items, ExteriorWash) == 2 && ItemRevenue(items, ExteriorWash) == 120.0
    requires ItemCount(items, Waxing) == 1 && ItemRevenue(items, Waxing) == 40.0
    ensures SeenSlices(AllServices, items) == [ServiceRevenueSlice(ExteriorWash, 2, 120.0), ServiceRevenueSlice(Waxing, 1, 40.0)]
  {
    var wax := ServiceRevenueSlice(Waxing, 1, 40.0);
    var tail := AllServices[4..];
    NoneSeenAfterWaxing(tail, items);
    assert AllServices[3..][1..] == tail && AllServices[2..][1..] == AllServices[3..];
    assert AllServices[1..][1..] == AllServices[2..];
    assert SeenSlices(AllServices[3..], items) == [wax] by {
      assert AllServices[3..][0] == Waxing;
    }
    assert SeenSlices(AllServices[2..], items) == [wax] by {
      assert AllServices[2..][0] == Polishing;
      assert ItemCount(items, Polishing) == 0;
    }
    assert SeenSlices(AllServices[1..], items) == [wax] by {
      assert AllServices[1..][0] == InteriorCleaning;
      assert ItemCount(items, InteriorCleaning) == 0;
    }
  }

  /** A breakdown of two slices with different revenues lists the larger first. */
  lemma TwoSlicesOrdered(r: seq<ServiceRevenueSlice>, a: ServiceRevenueSlice, b: ServiceRevenueSlice)
    requires multiset(r) == multiset([a, b]) && SortedBy(r, RevenueGe) && a.revenue > b.revenue
    ensures r == [a, b]
  {
    assert |r| == 2 by { assert |r| == |multiset(r)|; }
    assert r[0] in multiset(r) && r[1] in multiset(r);
    assert RevenueGe(r[0], r[1]);
  }

  lemma {:induction false} NoneSeenAfterWaxing(services: seq<DetailingService>, items: seq<OrderItem>)
    requires forall svc :: ItemCount(items, svc) > 0 ==> svc == ExteriorWash || svc == Waxing
    requires ExteriorWash !in services && Waxing !in services
    ensures SeenSlices(services, items) == []
  {
    if services != [] {
      assert services[0] in services;
      NoneSeenAfterWaxing(services[1..], items);
    }
  }
}

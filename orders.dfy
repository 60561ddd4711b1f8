/** Orders, line items, the detailing-service catalog and the mock orders. */
module Orders {
  import opened Wrappers
  import opened Seqs

  /** The lifecycle state of an order; declaration order is the order of `allCases`. */
  datatype OrderStatus = Scheduled | InProgress | Completed | Canceled {

    function RawValue(): string {
      match this
      case Scheduled => "Запланирован"
      case InProgress => "В процессе"
      case Completed => "Завершён"
      case Canceled => "Отменён"
    }

    /** The helper sort key; it is the status's position in declaration order. */
    function SortOrder(): (n: nat)
      ensures n < |AllStatuses| && AllStatuses[n] == this
    {
      match this
      case Scheduled => 0
      case InProgress => 1
      case Completed => 2
      case Canceled => 3
    }
  }

  /** `OrderStatus.allCases`. */
  const AllStatuses: seq<OrderStatus> := [Scheduled, InProgress, Completed, Canceled]

  /** Distinct statuses have distinct sort keys. */
  lemma SortOrderInjective(a: OrderStatus, b: OrderStatus)
    ensures a.SortOrder() == b.SortOrder() <==> a == b
  {
  }

  lemma AllStatusesComplete()
    ensures forall st :: st in AllStatuses
    ensures forall i, j :: 0 <= i < j < |AllStatuses| ==> AllStatuses[i] != AllStatuses[j]
  {
    forall st ensures st in AllStatuses { assert AllStatuses[st.SortOrder()] == st; }
  }

  /** The kinds of detailing service; declaration order is the order of `allCases`. */
  datatype DetailingService =
    | ExteriorWash | InteriorCleaning | Polishing | Waxing | CeramicCoating
    | EngineCleaning | HeadlightRestoration | OdorRemoval | DeepDetailing | Other
  {
    function RawValue(): string {
      match this
      case ExteriorWash => "Внешняя мойка"
      case InteriorCleaning => "Химчистка салона"
      case Polishing => "Полировка кузова"
      case Waxing => "Нанесение воска"
      case CeramicCoating => "Керамическое покрытие"
      case EngineCleaning => "Очистка двигателя"
      case HeadlightRestoration => "Полировка фар"
      case OdorRemoval => "Удаление запахов"
      case DeepDetailing => "Глубокий детейлинг"
      case Other => "Другое"
    }
  }

  /** `DetailingService.allCases`. */
  const AllServices: seq<DetailingService> :=
    [ ExteriorWash, InteriorCleaning, Polishing, Waxing, CeramicCoating,
      EngineCleaning, HeadlightRestoration, OdorRemoval, DeepDetailing, Other ]

  lemma AllServicesComplete()
    ensures forall svc :: svc in AllServices
    ensures forall i, j :: 0 <= i < j < |AllServices| ==> AllServices[i] != AllServices[j]
  {
    forall svc ensures svc in AllServices {
      match svc
      case ExteriorWash => assert AllServices[0] == svc;
      case InteriorCleaning => assert AllServices[1] == svc;
      case Polishing => assert AllServices[2] == svc;
      case Waxing => assert AllServices[3] == svc;
      case CeramicCoating => assert AllServices[4] == svc;
      case EngineCleaning => assert AllServices[5] == svc;
      case HeadlightRestoration => assert AllServices[6] == svc;
      case OdorRemoval => assert AllServices[7] == svc;
      case DeepDetailing => assert AllServices[8] == svc;
      case Other => assert AllServices[9] == svc;
    }
  }

  /** Distinct services have distinct raw values. */
  lemma RawValueInjective(a: DetailingService, b: DetailingService)
    ensures a.RawValue() == b.RawValue() <==> a == b
  {
    if a != b {
      assert a.RawValue()[0] != b.RawValue()[0] || a.RawValue()[1..] != b.RawValue()[1..]
          || |a.RawValue()| != |b.RawValue()|;
    }
  }

  /** Catalog metadata of a service. */
  datatype ServiceInfo = ServiceInfo(service: DetailingService, basePrice: real, shortDescription: Option<string>)

  /** `DetailingServiceInfo.defaultCatalog`. */
  const DefaultCatalog: map<DetailingService, ServiceInfo> := map[
    ExteriorWash := ServiceInfo(ExteriorWash, 60.0, Some("Бережная мойка кузова с сушкой")),
    InteriorCleaning := ServiceInfo(InteriorCleaning, 80.0, Some("Химчистка сидений и ковров, пылесос, пластик")),
    Polishing := ServiceInfo(Polishing, 150.0, Some("Полировка кузова с восстановлением блеска")),
    Waxing := ServiceInfo(Waxing, 60.0, Some("Нанесение защитного воска")),
    CeramicCoating := ServiceInfo(CeramicCoating, 250.0, Some("Керамическое покрытие кузова")),
    EngineCleaning := ServiceInfo(EngineCleaning, 90.0, Some("Деликатная очистка подкапотного пространства")),
    HeadlightRestoration := ServiceInfo(HeadlightRestoration, 70.0, Some("Полировка и восстановление прозрачности фар")),
    OdorRemoval := ServiceInfo(OdorRemoval, 75.0, Some("Удаление запахов с обработкой салона")),
    DeepDetailing := ServiceInfo(DeepDetailing, 220.0, Some("Комплексный глубокий детейлинг")),
    Other := ServiceInfo(Other, 0.0, Some("Другая услуга по согласованию"))
  ]

  /** The catalog covers every service, files each entry under its own service, prices are non-negative. */
  lemma CatalogWellFormed()
    ensures forall svc :: svc in DefaultCatalog
    ensures forall svc :: svc in DefaultCatalog ==> DefaultCatalog[svc].service == svc
    ensures forall svc :: svc in DefaultCatalog ==> DefaultCatalog[svc].basePrice >= 0.0
    ensures forall svc :: svc in DefaultCatalog ==> DefaultCatalog[svc].shortDescription.Some?
  {
    forall svc ensures svc in DefaultCatalog && DefaultCatalog[svc].service == svc {
      match svc
      case ExteriorWash =>
      case InteriorCleaning =>
      case Polishing =>
      case Waxing =>
      case CeramicCoating =>
      case EngineCleaning =>
      case HeadlightRestoration =>
      case OdorRemoval =>
      case DeepDetailing =>
      case Other =>
    }
  }

  /** `DetailingService.info`: the catalog entry, or a zero-priced entry described by the raw value. */
  function Info(svc: DetailingService): (info: ServiceInfo)
    ensures info.service == svc && info.basePrice >= 0.0
    ensures svc in DefaultCatalog ==> info == DefaultCatalog[svc]
    ensures svc !in DefaultCatalog ==> info == ServiceInfo(svc, 0.0, Some(svc.RawValue()))
  {
    CatalogWellFormed();
    if svc in DefaultCatalog then DefaultCatalog[svc] else ServiceInfo(svc, 0.0, Some(svc.RawValue()))
  }

  function BasePrice(svc: DetailingService): real {
    Info(svc).basePrice
  }

  function ShortDescription(svc: DetailingService): Option<string> {
    Info(svc).shortDescription
  }

  /** One priced service entry within an order. */
  datatype OrderItem = OrderItem(id: string, service: DetailingService, unitPrice: real, customDescription: Option<string>) {

    /** Each line item is one unit of service: its total is its unit price. */
    function LineTotal(): real {
      unitPrice
    }

    function DisplayDescription(): string {
      customDescription.GetOr(ShortDescription(service).GetOr(service.RawValue()))
    }

    predicate IsCustomPriced() {
      unitPrice != BasePrice(service)
    }
  }

  /** `OrderItem.init`: the unit price defaults to the catalog base price. */
  function MakeItem(id: string, service: DetailingService, unitPrice: Option<real>, customDescription: Option<string>): (it: OrderItem)
    ensures it.id == id && it.service == service && it.customDescription == customDescription
    ensures unitPrice.Some? ==> it.unitPrice == unitPrice.value
    ensures unitPrice.None? ==> !it.IsCustomPriced()
    ensures it.IsCustomPriced() <==> unitPrice.Some? && unitPrice.value != BasePrice(service)
  {
    OrderItem(id, service, unitPrice.GetOr(BasePrice(service)), customDescription)
  }

  /** Because the catalog is complete, the description falls back to the catalog text, never to the raw value. */
  lemma DisplayDescriptionFallback(it: OrderItem)
    ensures it.customDescription.Some? ==> it.DisplayDescription() == it.customDescription.value
    ensures it.customDescription.None? ==>
      it.DisplayDescription() == DefaultCatalog[it.service].shortDescription.value
  {
    CatalogWellFormed();
  }

  /** `items.reduce(0) { $0 + $1.lineTotal }`. */
  function LineTotalSum(items: seq<OrderItem>): real {
    if items == [] then 0.0 else LineTotalSum(items[..|items| - 1]) + items[|items| - 1].LineTotal()
  }

  lemma {:induction false} LineTotalSumAppend(a: seq<OrderItem>, b: seq<OrderItem>)
    ensures LineTotalSum(a + b) == LineTotalSum(a) + LineTotalSum(b)
    decreases |b|
  {
    if b == [] {
      assert a + b == a;
    } else {
      assert (a + b)[..|a + b| - 1] == a + b[..|b| - 1];
      LineTotalSumAppend(a, b[..|b| - 1]);
    }
  }

  /** Items without a price override cost their catalog price, so their total is non-negative. */
  lemma {:induction false} LineTotalSumNonNegative(items: seq<OrderItem>)
    requires forall i :: 0 <= i < |items| ==> items[i].unitPrice >= 0.0
    ensures LineTotalSum(items) >= 0.0
  {
    if items != [] {
      LineTotalSumNonNegative(items[..|items| - 1]);
    }
  }

  /** An order; `totalPrice` is the recorded total, authoritative over the computed one. */
  datatype Order = Order(
    id: string, userId: string, carId: string, date: int, items: seq<OrderItem>,
    totalPrice: real, notes: Option<string>, status: OrderStatus)
  {
    function ComputedTotalPrice(): real {
      LineTotalSum(items)
    }

    function ItemCount(): nat {
      |items|
    }

    predicate HasNotes() {
      notes.GetOr("") != ""
    }
  }

  /** `OrderModel.init`: the total defaults to the sum of the line totals. */
  function MakeOrder(
    id: string, userId: string, carId: string, date: int, items: seq<OrderItem>,
    totalPrice: Option<real>, notes: Option<string>, status: OrderStatus): (o: Order)
    ensures o.id == id && o.userId == userId && o.carId == carId && o.date == date
    ensures o.items == items && o.notes == notes && o.status == status
    ensures totalPrice.Some? ==> o.totalPrice == totalPrice.value
    ensures totalPrice.None? ==> o.totalPrice == o.ComputedTotalPrice()
  {
    Order(id, userId, carId, date, items, totalPrice.GetOr(LineTotalSum(items)), notes, status)
  }

  lemma OrderAccessors(o: Order)
    ensures o.ItemCount() == |o.items|
    ensures o.HasNotes() <==> o.notes.Some? && |o.notes.value| > 0
  {
  }

  /**
   * `OrderModel.mocks`. Every access builds fresh values: `now` stands for `Date()` and
   * `uuid(k)` for the k-th `UUID().uuidString` drawn while building them.
   */
  function Mocks(now: int, uuid: nat -> string): (r: seq<Order>)
    ensures |r| == 5
  {
    [ MakeOrder(uuid(0), "user_01", "car_bmw_x5", now,
        [MakeItem(uuid(1), ExteriorWash, None, None), MakeItem(uuid(2), Waxing, None, None)],
        None, Some("Использовать премиум-воск"), Completed),
      MakeOrder(uuid(3), "user_01", "car_toyota_camry", now,
        [MakeItem(uuid(4), InteriorCleaning, None, None),
         MakeItem(uuid(5), OdorRemoval, None, Some("Салон: особое внимание к багажнику"))],
        None, None, Scheduled),
      MakeOrder(uuid(6), "user_02", "car_audi_a6", now,
        [MakeItem(uuid(7), DeepDetailing, None, None), MakeItem(uuid(8), EngineCleaning, None, None),
         MakeItem(uuid(9), CeramicCoating, Some(230.0), None)],
        None, Some("Full-пакет, скидка на керамику"), InProgress),
      MakeOrder(uuid(10), "user_03", "car_mercedes_gls450", now,
        [MakeItem(uuid(11), ExteriorWash, None, None),
         MakeItem(uuid(12), CeramicCoating, None, Some("Керамика 1 слой (кузов)"))],
        None, None, Scheduled),
      MakeOrder(uuid(13), "user_03", "car_ford_ranger", now,
        [MakeItem(uuid(14), Polishing, None, None), MakeItem(uuid(15), Waxing, None, None)],
        None, None, Completed)
    ]
  }

  /** The mocks pass no total, so each recorded total is the computed one. */
  lemma MockTotals(now: int, uuid: nat -> string)
    ensures forall i :: 0 <= i < 5 ==> Mocks(now, uuid)[i].totalPrice == Mocks(now, uuid)[i].ComputedTotalPrice()
  {
  }

  lemma CatalogPrices()
    ensures BasePrice(ExteriorWash) == 60.0 && BasePrice(InteriorCleaning) == 80.0
    ensures BasePrice(Polishing) == 150.0 && BasePrice(Waxing) == 60.0
    ensures BasePrice(CeramicCoating) == 250.0 && BasePrice(EngineCleaning) == 90.0
    ensures BasePrice(HeadlightRestoration) == 70.0 && BasePrice(OdorRemoval) == 75.0
    ensures BasePrice(DeepDetailing) == 220.0 && BasePrice(Other) == 0.0
  {
  }

  /** The discounted ceramic coating is custom priced, and the third mock order totals 540. */
  lemma MockCustomPricing(now: int, uuid: nat -> string)
    ensures Mocks(now, uuid)[2].items[2].IsCustomPriced()
    ensures Mocks(now, uuid)[2].totalPrice == 540.0
  {
    CatalogPrices();
    var items := Mocks(now, uuid)[2].items;
    assert |items| == 3 && items[0].unitPrice == 220.0 && items[1].unitPrice == 90.0 && items[2].unitPrice == 230.0;
    assert LineTotalSum(items[..1]) == 220.0 by { assert items[..1][..0] == []; }
    assert LineTotalSum(items[..2]) == 310.0 by { assert items[..2][..1] == items[..1]; }
    assert items[..3] == items;
  }

  function HasUser(userId: string): Order -> bool {
    (o: Order) => o.userId == userId
  }

  function HasCar(carId: string): Order -> bool {
    (o: Order) => o.carId == carId
  }

  /** `OrderModel.orders(forUser:)`. */
  function OrdersForUser(userId: string, now: int, uuid: nat -> string): (r: seq<Order>)
    ensures forall o :: o in r <==> o in Mocks(now, uuid) && o.userId == userId
    ensures IsSubsequence(r, Mocks(now, uuid))
  {
    Filter(Mocks(now, uuid), HasUser(userId))
  }

  /** `OrderModel.orders(forCar:)`. */
  function OrdersForCar(carId: string, now: int, uuid: nat -> string): (r: seq<Order>)
    ensures forall o :: o in r <==> o in Mocks(now, uuid) && o.carId == carId
    ensures IsSubsequence(r, Mocks(now, uuid))
  {
    Filter(Mocks(now, uuid), HasCar(carId))
  }

  /** The first user owns the first two mock orders and nothing else. */
  lemma FirstUserOrders(now: int, uuid: nat -> string)
    ensures OrdersForUser("user_01", now, uuid) == Mocks(now, uuid)[..2]
  {
    var m := Mocks(now, uuid);
    assert "user_02" != "user_01" by { assert "user_02"[6] != "user_01"[6]; }
    assert "user_03" != "user_01" by { assert "user_03"[6] != "user_01"[6]; }
    FilterPrefix(m, HasUser("user_01"), 2);
  }
}

/**
 * Order synthesis: for each order number, its category, cost, timestamps,
 * staff assignment and update information, plus the detail bundle handed to
 * the line-item and fulfilment stages (generate_orders.py:48-138).
 *
 * Every random draw of the source is a field of an OrderDraw whose Valid()
 * states the inclusive range of the corresponding `randint`/`sample` call.
 * Timestamps are whole seconds.
 */
module Orders {
  import opened Optional
  import opened Catalog

  const NumOrders := 500
  const NumNormalNoUpdate := 300
  const NumNormalWithUpdate := 100
  const NumSplit := 100
  const ProductsPerOrder := 3
  const CustomerIdBase := 100000000
  const TaxPercent := 16
  const OrderStatus := "Delivered"
  const MultipleStaff := "Multiple Staff"
  const UpdateAction := "Quantity Update"
  const UpdateDescriptions: seq<string> := [
    "Customer requested quantity changes after order placement",
    "Manager approved quantity modifications",
    "Adjusted quantities per customer request",
    "Order quantities updated by storage manager",
    "Reduced quantities due to stock availability",
    "Customer increased order quantities",
    "Manager approved order modifications",
    "Order updated after customer confirmation",
    "Quantities adjusted per inventory availability",
    "Customer requested additional items"
  ]

  const SecondsPerDay := 86400
  const SecondsPerHour := 3600
  /** 2025-11-01 00:00:00, in seconds from 1970-01-01 00:00:00. */
  const StartDate := 1761955200
  /** 2026-01-05 00:00:00. */
  const EndDate := StartDate + 65 * SecondsPerDay

  /** Orders 301..400 carry a quantity update. */
  predicate IsUpdated(orderNum: int) {
    301 <= orderNum <= 400
  }

  /** Orders above 400 are split across warehouses. */
  predicate IsSplit(orderNum: int) {
    orderNum > 400
  }

  /** The three order categories of the source. */
  datatype Category = NoUpdate | Updated | Split

  /** The category the two flags of an order number select. */
  function CategoryOf(orderNum: int): (c: Category)
    ensures c == Updated <==> IsUpdated(orderNum)
    ensures c == Split <==> IsSplit(orderNum)
  {
    if IsSplit(orderNum) then Split else if IsUpdated(orderNum) then Updated else NoUpdate
  }

  /** How many order numbers in [lo, hi) fall in category c. */
  function CountIn(lo: int, hi: int, c: Category): nat
    decreases hi - lo
  {
    if lo >= hi then 0 else (if CategoryOf(lo) == c then 1 else 0) + CountIn(lo + 1, hi, c)
  }

  lemma {:induction false} CountSplit(lo: int, mid: int, hi: int, c: Category)
    requires lo <= mid <= hi
    ensures CountIn(lo, hi, c) == CountIn(lo, mid, c) + CountIn(mid, hi, c)
    decreases mid - lo
  {
    if lo < mid {
      CountSplit(lo + 1, mid, hi, c);
    }
  }

  lemma {:induction false} CountUniform(lo: int, hi: int, c: Category, d: Category)
    requires lo <= hi
    requires forall n :: lo <= n < hi ==> CategoryOf(n) == d
    ensures CountIn(lo, hi, c) == if c == d then hi - lo else 0
    decreases hi - lo
  {
    if lo < hi {
      CountUniform(lo + 1, hi, c, d);
    }
  }

  /** The two flags never hold together, and orders 1..300 carry neither. */
  lemma CategoriesExclusive(n: int)
    ensures !(IsUpdated(n) && IsSplit(n))
    ensures 1 <= n <= 300 ==> CategoryOf(n) == NoUpdate
  {
  }

  /**
   * Of the order numbers 1..NumOrders, exactly as many as the configuration
   * constants say fall in each category.
   */
  lemma CategoryCounts()
    ensures CountIn(1, NumOrders + 1, NoUpdate) == NumNormalNoUpdate
    ensures CountIn(1, NumOrders + 1, Updated) == NumNormalWithUpdate
    ensures CountIn(1, NumOrders + 1, Split) == NumSplit
  {
    CountBands(1, 301, 401, NumOrders + 1, NoUpdate);
    CountBands(1, 301, 401, NumOrders + 1, Updated);
    CountBands(1, 301, 401, NumOrders + 1, Split);
  }

  /** Three consecutive runs of order numbers, one per category, hold as many of each as the run is long. */
  lemma CountBands(lo: int, a: int, b: int, hi: int, c: Category)
    requires lo <= a <= b <= hi
    requires forall n :: lo <= n < a ==> CategoryOf(n) == NoUpdate
    requires forall n :: a <= n < b ==> CategoryOf(n) == Updated
    requires forall n :: b <= n < hi ==> CategoryOf(n) == Split
    ensures c == NoUpdate ==> CountIn(lo, hi, c) == a - lo
    ensures c == Updated ==> CountIn(lo, hi, c) == b - a
    ensures c == Split ==> CountIn(lo, hi, c) == hi - b
  {
    CountSplit(lo, a, hi, c);
    CountSplit(a, b, hi, c);
    CountUniform(lo, a, c, NoUpdate);
    CountUniform(a, b, c, Updated);
    CountUniform(b, hi, c, Split);
  }

  /** Whole days between start and end (Python's `timedelta.days`, a floor). */
  function WindowDays(start: int, end: int): (d: int)
    ensures d * SecondsPerDay <= end - start < (d + 1) * SecondsPerDay
  {
    (end - start) / SecondsPerDay
  }

  /**
   * `random_date`: start plus a day offset in [0, WindowDays] and a second
   * offset in [0, 86400], both inclusive. The result is never before start
   * and at most one day past end.
   */
  function RandomDate(start: int, end: int, days: int, seconds: int): (t: int)
    requires 0 <= days <= WindowDays(start, end)
    requires 0 <= seconds <= SecondsPerDay
    ensures start <= t <= end + SecondsPerDay
  {
    assert days * SecondsPerDay <= WindowDays(start, end) * SecondsPerDay <= end - start;
    start + days * SecondsPerDay + seconds
  }

  /** The last day of the window and a positive second offset give a date after end_date. */
  lemma RandomDatePassesEnd()
    ensures WindowDays(StartDate, EndDate) == 65
    ensures RandomDate(StartDate, EndDate, 65, SecondsPerDay) == EndDate + SecondsPerDay
  {
  }

  /**
   * The delivery time: order time plus 1..3 days plus 0..12 hours, so it is
   * always strictly later than the order time, by at most 3 days 12 hours.
   */
  function DeliveryDate(orderDate: int, days: int, hours: int): (t: int)
    requires 1 <= days <= 3 && 0 <= hours <= 12
    ensures orderDate + SecondsPerDay <= t <= orderDate + 3 * SecondsPerDay + 12 * SecondsPerHour
    ensures t - orderDate == days * SecondsPerDay + hours * SecondsPerHour
  {
    orderDate + days * SecondsPerDay + hours * SecondsPerHour
  }

  /** Σ price(p) × q over the zipped products and quantities: zip stops at the shorter, so surplus products cost nothing. */
  function TotalCost(products: seq<int>, quantities: seq<int>): (c: int)
    ensures |quantities| < |products| ==> c == TotalCost(products[..|quantities|], quantities)
    ensures |products| < |quantities| ==> c == TotalCost(products, quantities[..|products|])
    decreases |products| + |quantities|
  {
    if products == [] || quantities == [] then 0
    else
      assert |quantities| < |products| ==> products[..|quantities|][1..] == products[1..][..|quantities| - 1];
      assert |products| < |quantities| ==> quantities[..|products|][1..] == quantities[1..][..|products| - 1];
      ProductPrice(products[0]) * quantities[0] + TotalCost(products[1..], quantities[1..])
  }

  /** Σ price(p) over products. */
  function PriceSum(products: seq<int>): int
    decreases |products|
  {
    if products == [] then 0 else ProductPrice(products[0]) + PriceSum(products[1..])
  }

  predicate QuantitiesInRange(quantities: seq<int>) {
    forall i :: 0 <= i < |quantities| ==> 1 <= quantities[i] <= 3
  }

  /** With every quantity in [1, 3], the total cost lies between Σ price and 3 × Σ price. */
  lemma {:induction false} TotalCostBounds(products: seq<int>, quantities: seq<int>)
    requires |products| == |quantities|
    requires QuantitiesInRange(quantities)
    ensures PriceSum(products) <= TotalCost(products, quantities) <= 3 * PriceSum(products)
    decreases |products|
  {
    if products != [] {
      TotalCostBounds(products[1..], quantities[1..]);
      MulMono(ProductPrice(products[0]), 1, quantities[0]);
      MulMono(ProductPrice(products[0]), quantities[0], 3);
    }
  }

  /** A product grows strictly with a factor at a positive multiplier. */
  lemma MulStrict(p: int, a: int, b: int)
    requires p >= 1 && a < b
    ensures p * a < p * b
  {
    assert p * b - p * a == p * (b - a);
  }

  /** A product grows with a factor at a non-negative multiplier. */
  lemma MulMono(p: nat, a: int, b: int)
    requires a <= b
    ensures p * a <= p * b
  {
    assert p * b - p * a == p * (b - a);
  }

  /** The random values one iteration of the order loop consumes. */
  datatype OrderDraw = OrderDraw(
    products: seq<int>,   // random.sample(PRODUCT_IDS, 3)
    quantities: seq<int>, // random.randint(1, 3), three times
    orderDay: int,        // random.randint(0, delta.days)
    orderSecond: int,     // random.randint(0, 86400)
    deliveryDays: int,    // random.randint(1, 3)
    deliveryHours: int    // random.randint(0, 12)
  ) {
    predicate Valid() {
      && |products| == ProductsPerOrder
      && (forall i :: 0 <= i < |products| ==> 1 <= products[i] <= NumProducts)
      && (forall i, j :: 0 <= i < j < |products| ==> products[i] != products[j])
      && |quantities| == ProductsPerOrder
      && QuantitiesInRange(quantities)
      && 0 <= orderDay <= WindowDays(StartDate, EndDate)
      && 0 <= orderSecond <= SecondsPerDay
      && 1 <= deliveryDays <= 3
      && 0 <= deliveryHours <= 12
    }
  }

  /** One `customer_order` row; the NULL columns customer_signature and prepared_by_id are constant and omitted. */
  datatype OrderRow = OrderRow(
    customerId: int,
    totalCost: int,
    taxPercent: int,
    orderDate: int,
    orderStatus: string,
    salesRepId: nat,
    deliveredById: nat,
    managedById: nat,
    accountantId: nat,
    lastActionBy: string,
    lastActionTime: int,
    discountValue: int,
    updateAction: Option<string>,
    updateDescription: Option<string>
  )

  /** The bundle the order stage keeps for the later stages. */
  datatype OrderDetail = OrderDetail(
    orderNum: int,
    customerId: int,
    products: seq<int>,
    quantities: seq<int>,
    totalCost: int,
    deliveryDate: int,
    lastActionBy: string,
    isUpdated: bool,
    isSplit: bool
  ) {
    /** Three products and three quantities, as every order of the source has. */
    predicate WellFormed() {
      |products| == ProductsPerOrder && |quantities| == ProductsPerOrder && QuantitiesInRange(quantities)
    }

    predicate ProductsDistinct() {
      forall i, j :: 0 <= i < j < |products| ==> products[i] != products[j]
    }
  }

  /** The storage staff member responsible for a non-split order. */
  function OrderStaff(orderNum: int): (s: StaffMember)
    ensures s in StorageStaff && 1 <= s.warehouse <= 3
  {
    RoundRobin(StorageStaff, orderNum)
  }

  /** No storage staff member is called "Multiple Staff", so the actor tells split orders apart. */
  lemma MultipleStaffIsNoName()
    ensures forall s :: s in StorageStaff ==> s.name != MultipleStaff
  {
    assert forall k :: 0 <= k < |StorageStaff| ==> StorageStaff[k].name != MultipleStaff;
  }

  /** The last_action_by of an order: "Multiple Staff" for split orders, otherwise its storage staff member. */
  function ActorOf(orderNum: int): (a: string)
    ensures IsSplit(orderNum) <==> a == MultipleStaff
    ensures !IsSplit(orderNum) ==> a == OrderStaff(orderNum).name
  {
    MultipleStaffIsNoName();
    if IsSplit(orderNum) then MultipleStaff else OrderStaff(orderNum).name
  }

  /** The update description of an updated order, by `(orderNum - 301) % 10`. */
  function UpdateDescriptionOf(orderNum: int): (d: string)
    ensures d in UpdateDescriptions
  {
    RoundRobin(UpdateDescriptions, orderNum - 301)
  }

  function OrderDateOf(draw: OrderDraw): int
    requires draw.Valid()
  {
    RandomDate(StartDate, EndDate, draw.orderDay, draw.orderSecond)
  }

  function DeliveryDateOf(draw: OrderDraw): int
    requires draw.Valid()
  {
    DeliveryDate(OrderDateOf(draw), draw.deliveryDays, draw.deliveryHours)
  }

  /** The order row the loop body builds for order number n. */
  function BuildOrder(n: int, draw: OrderDraw): (o: OrderRow)
    requires draw.Valid()
    ensures o.customerId == CustomerIdBase + n
    ensures PriceSum(draw.products) <= o.totalCost <= 3 * PriceSum(draw.products)
    ensures StartDate <= o.orderDate <= EndDate + SecondsPerDay
    ensures o.orderDate + SecondsPerDay <= o.lastActionTime <= o.orderDate + 3 * SecondsPerDay + 12 * SecondsPerHour
    ensures o.salesRepId in SalesReps && o.deliveredById in DeliveryDrivers
    ensures IsSplit(n) <==> o.lastActionBy == MultipleStaff
    ensures o.updateAction.Some? <==> IsUpdated(n)
    ensures o.updateDescription.Some? <==> IsUpdated(n)
    ensures o.updateDescription.Some? ==> o.updateDescription.value in UpdateDescriptions
  {
    TotalCostBounds(draw.products, draw.quantities);
    OrderRow(
      customerId := CustomerIdBase + n,
      totalCost := TotalCost(draw.products, draw.quantities),
      taxPercent := TaxPercent,
      orderDate := OrderDateOf(draw),
      orderStatus := OrderStatus,
      salesRepId := RoundRobin(SalesReps, n),
      deliveredById := RoundRobin(DeliveryDrivers, n),
      managedById := ManagerId,
      accountantId := AccountantId,
      lastActionBy := ActorOf(n),
      lastActionTime := DeliveryDateOf(draw),
      discountValue := 0,
      updateAction := if IsUpdated(n) then Some(UpdateAction) else None,
      updateDescription := if IsUpdated(n) then Some(UpdateDescriptionOf(n)) else None
    )
  }

  /** The detail bundle the loop body stores for order number n. */
  function BuildDetail(n: int, draw: OrderDraw): (d: OrderDetail)
    requires draw.Valid()
    ensures d.orderNum == n && Consistent(d)
    ensures !(d.isUpdated && d.isSplit)
    ensures d.totalCost == BuildOrder(n, draw).totalCost
    ensures d.deliveryDate == BuildOrder(n, draw).lastActionTime
    ensures d.lastActionBy == BuildOrder(n, draw).lastActionBy
  {
    OrderDetail(
      orderNum := n,
      customerId := CustomerIdBase + n,
      products := draw.products,
      quantities := draw.quantities,
      totalCost := TotalCost(draw.products, draw.quantities),
      deliveryDate := DeliveryDateOf(draw),
      lastActionBy := ActorOf(n),
      isUpdated := IsUpdated(n),
      isSplit := IsSplit(n)
    )
  }

  /** A detail bundle as the order stage produces it for its order number. */
  predicate Consistent(d: OrderDetail) {
    && d.WellFormed()
    && d.ProductsDistinct()
    && (forall i :: 0 <= i < |d.products| ==> 1 <= d.products[i] <= NumProducts)
    && d.isUpdated == IsUpdated(d.orderNum)
    && d.isSplit == IsSplit(d.orderNum)
    && d.lastActionBy == ActorOf(d.orderNum)
    && d.totalCost == TotalCost(d.products, d.quantities)
  }

  /** The order rows of order numbers 1..|draws|, one per draw. */
  function OrderRows(draws: seq<OrderDraw>): (rows: seq<OrderRow>)
    requires forall k :: 0 <= k < |draws| ==> draws[k].Valid()
  {
    seq(|draws|, k requires 0 <= k < |draws| => BuildOrder(k + 1, draws[k]))
  }

  /** The detail bundles of order numbers 1..|draws|, one per draw. */
  function OrderDetails(draws: seq<OrderDraw>): (details: seq<OrderDetail>)
    requires forall k :: 0 <= k < |draws| ==> draws[k].Valid()
  {
    seq(|draws|, k requires 0 <= k < |draws| => BuildDetail(k + 1, draws[k]))
  }

  /** Entry k of the rows and bundles is built from draw k for order number k + 1. */
  lemma OrderAt(draws: seq<OrderDraw>, k: int)
    requires forall k :: 0 <= k < |draws| ==> draws[k].Valid()
    requires 0 <= k < |draws|
    ensures |OrderRows(draws)| == |OrderDetails(draws)| == |draws|
    ensures OrderRows(draws)[k] == BuildOrder(k + 1, draws[k])
    ensures OrderDetails(draws)[k] == BuildDetail(k + 1, draws[k])
  {
  }

  /** Extending a prefix of ys by the next element of ys gives the next prefix. */
  lemma AppendPrefix<T>(xs: seq<T>, x: T, ys: seq<T>)
    requires |xs| < |ys| && xs == ys[..|xs|] && x == ys[|xs|]
    ensures xs + [x] == ys[..|xs| + 1]
  {
  }

  /**
   * `generate_customer_order_sql`: one order row and one detail bundle per
   * order number 1..NumOrders, in order.
   */
  method GenerateCustomerOrders(draws: seq<OrderDraw>) returns (orders: seq<OrderRow>, details: seq<OrderDetail>)
    requires |draws| == NumOrders
    requires forall k :: 0 <= k < |draws| ==> draws[k].Valid()
    ensures |orders| == NumOrders && |details| == NumOrders
    ensures forall k :: 0 <= k < NumOrders ==> orders[k] == BuildOrder(k + 1, draws[k])
    ensures forall k :: 0 <= k < NumOrders ==> details[k] == BuildDetail(k + 1, draws[k])
  {
    orders, details := [], [];
    ghost var allOrders, allDetails := OrderRows(draws), OrderDetails(draws);
    var orderNum := 1;
    while orderNum <= NumOrders
      invariant 1 <= orderNum <= NumOrders + 1
      invariant |orders| == |details| == orderNum - 1
      invariant orders == allOrders[..orderNum - 1] && details == allDetails[..orderNum - 1]
    {
      var draw := draws[orderNum - 1];
      OrderAt(draws, orderNum - 1);
      AppendPrefix(orders, BuildOrder(orderNum, draw), allOrders);
      AppendPrefix(details, BuildDetail(orderNum, draw), allDetails);
      orders := orders + [BuildOrder(orderNum, draw)];
      details := details + [BuildDetail(orderNum, draw)];
      orderNum := orderNum + 1;
    }
    forall k | 0 <= k < NumOrders
      ensures orders[k] == BuildOrder(k + 1, draws[k]) && details[k] == BuildDetail(k + 1, draws[k])
    {
      OrderAt(draws, k);
    }
  }
}

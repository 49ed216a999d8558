/**
 * Fulfilment synthesis: `customer_order_inventory` rows, one per product of
 * each order, numbered by one rolling batch counter shared across the run;
 * split orders spread their products over two or three warehouses
 * (generate_orders.py:178-240).
 */
module Inventory {
  import opened Optional
  import opened Catalog
  import opened Orders
  import opened LineItems

  /** Batch ids run from 1 to MaxBatchId and then wrap. */
  const MaxBatchId := 150

  /** The counter step `batch_id = (batch_id % 150) + 1`: count up, and wrap from 150 to 1. */
  function NextBatch(b: int): (r: int)
    ensures 1 <= r <= MaxBatchId
    ensures 1 <= b < MaxBatchId ==> r == b + 1
    ensures b == MaxBatchId ==> r == 1
  {
    b % MaxBatchId + 1
  }

  /** One counter step keeps the closed form: if the counter holds (n mod 150) + 1, the next holds ((n + 1) mod 150) + 1. */
  lemma BatchAdvance(n: nat)
    ensures NextBatch(n % MaxBatchId + 1) == (n + 1) % MaxBatchId + 1
  {
    if n % MaxBatchId == MaxBatchId - 1 {
      assert (n + 1) % MaxBatchId == 0;
    } else {
      assert (n + 1) % MaxBatchId == n % MaxBatchId + 1;
    }
  }

  /**
   * The random values the fulfilment loop consumes for one order. A split
   * order draws its warehouse count (`randint(2, 3)`) and, per product, a
   * staff member (`random.choice` among the three of that warehouse). Its
   * line items are recomputed once per product, and would draw afresh each
   * time if the order were updated; lineDraws stands for all three
   * recomputations, which is exact because split orders (above 400) are
   * never updated (301..400), so the recomputation draws nothing. A missed
   * lookup would draw a fallback in [2, 5]. Any other order draws one
   * quantity in [1, 3] per product.
   */
  datatype InventoryDraw =
    | SplitDraw(numInventories: int, staffPicks: seq<int>, lineDraws: seq<LineDraw>, fallbacks: seq<int>)
    | NormalDraw(quantities: seq<int>)
  {
    predicate Valid() {
      match this
      case SplitDraw(n, picks, lineDraws, fallbacks) =>
        && 2 <= n <= 3
        && |picks| == ProductsPerOrder && (forall i :: 0 <= i < |picks| ==> 0 <= picks[i] < 3)
        && |lineDraws| == ProductsPerOrder && AllValid(lineDraws)
        && |fallbacks| == ProductsPerOrder && (forall i :: 0 <= i < |fallbacks| ==> 2 <= fallbacks[i] <= 5)
      case NormalDraw(quantities) =>
        |quantities| == ProductsPerOrder && QuantitiesInRange(quantities)
    }
  }

  /** One `customer_order_inventory` row; preparedBy is the staff id, lastActionBy the staff name. */
  datatype InventoryRow = InventoryRow(
    orderNum: int,
    productId: int,
    inventoryId: nat,
    batchId: int,
    quantity: int,
    preparedBy: nat,
    preparedQuantity: int,
    lastActionBy: string,
    lastActionTime: int
  )

  /**
   * The warehouse of product i of a split order over numInventories
   * warehouses: the assignment list is [1, 2] (both branches of the source's
   * conditional) or [1, 2, 3], cycled by i.
   */
  function WarehouseFor(numInventories: int, i: int): (w: nat)
    requires 2 <= numInventories <= 3 && 0 <= i
    ensures 1 <= w <= numInventories
    ensures w == i % numInventories + 1
  {
    var assignments := if numInventories == 2 then (if i < 2 then [1, 2] else [1, 2]) else [1, 2, 3];
    assignments[i % |assignments|]
  }

  /** The three products of a split order use every one of its numInventories warehouses. */
  lemma SplitUsesEveryWarehouse(numInventories: int)
    requires 2 <= numInventories <= 3
    ensures {WarehouseFor(numInventories, 0), WarehouseFor(numInventories, 1), WarehouseFor(numInventories, 2)} ==
            if numInventories == 2 then {1, 2} else {1, 2, 3}
  {
    assert WarehouseFor(numInventories, 0) == 1;
    assert WarehouseFor(numInventories, 1) == 2;
    assert WarehouseFor(numInventories, 2) == (if numInventories == 2 then 1 else 3);
  }

  /** Whether a line-item row is the one for (orderNum, productId). */
  predicate Matches(row: LineItemRow, orderNum: int, productId: int) {
    row.orderNum == orderNum && row.productId == productId
  }

  /** The delivered quantity of the first row for (orderNum, productId), if any. */
  function FirstDelivered(rows: seq<LineItemRow>, orderNum: int, productId: int): (q: Option<int>)
    ensures q.Some? ==> exists j :: 0 <= j < |rows| && Matches(rows[j], orderNum, productId) && q.value == rows[j].deliveredQuantity
    decreases |rows|
  {
    if rows == [] then None
    else if Matches(rows[0], orderNum, productId) then Some(rows[0].deliveredQuantity)
    else FirstDelivered(rows[1..], orderNum, productId)
  }

  /** The lookup misses exactly when no row matches, and otherwise reads the first matching row. */
  lemma {:induction false} FirstDeliveredSpec(rows: seq<LineItemRow>, orderNum: int, productId: int)
    ensures FirstDelivered(rows, orderNum, productId).None? <==>
              forall j :: 0 <= j < |rows| ==> !Matches(rows[j], orderNum, productId)
    ensures forall j :: 0 <= j < |rows| && Matches(rows[j], orderNum, productId) &&
                        (forall m :: 0 <= m < j ==> !Matches(rows[m], orderNum, productId)) ==>
                          FirstDelivered(rows, orderNum, productId) == Some(rows[j].deliveredQuantity)
    decreases |rows|
  {
    if rows != [] && !Matches(rows[0], orderNum, productId) {
      FirstDeliveredSpec(rows[1..], orderNum, productId);
      assert forall j :: 1 <= j < |rows| ==> rows[j] == rows[1..][j - 1];
    }
  }

  /**
   * The scan over the recomputed rows that looks for the (order, product)
   * row and reads its delivered quantity, stopping at the first match.
   */
  method FindDeliveredQuantity(rows: seq<LineItemRow>, orderNum: int, productId: int) returns (q: Option<int>)
    ensures q == FirstDelivered(rows, orderNum, productId)
  {
    var j := 0;
    while j < |rows|
      invariant 0 <= j <= |rows|
      invariant FirstDelivered(rows[j..], orderNum, productId) == FirstDelivered(rows, orderNum, productId)
    {
      if Matches(rows[j], orderNum, productId) {
        return Some(rows[j].deliveredQuantity);
      }
      assert rows[j..][1..] == rows[j + 1..];
      j := j + 1;
    }
    return None;
  }

  /** The position of the first occurrence of s[i] in s. */
  function FirstOccurrence(s: seq<int>, i: int): (m: int)
    requires 0 <= i < |s|
    ensures 0 <= m <= i && s[m] == s[i]
    ensures forall k :: 0 <= k < m ==> s[k] != s[i]
  {
    if s[0] == s[i] then 0 else 1 + FirstOccurrence(s[1..], i - 1)
  }

  /**
   * The fulfilled quantity of product i of a split order: the delivered
   * quantity of the first line item of the order that carries the same
   * product.
   */
  function SplitQuantity(d: OrderDetail, i: int, lineDraws: seq<LineDraw>): (q: int)
    requires d.WellFormed() && 0 <= i < ProductsPerOrder && |lineDraws| == ProductsPerOrder && AllValid(lineDraws)
    ensures !d.isUpdated && d.ProductsDistinct() ==> q == d.quantities[i]
  {
    var m := FirstOccurrence(d.products, i);
    DeliveredQuantity(d, m, lineDraws[m])
  }

  /**
   * The lookup of product i in the order's recomputed line items never
   * misses, since the product's own line is among them; it reads the first
   * line of that product. So the fallback quantity is never used.
   */
  lemma LookupFindsSplitQuantity(d: OrderDetail, lineDraws: seq<LineDraw>, i: int)
    requires d.WellFormed() && 0 <= i < ProductsPerOrder && |lineDraws| == ProductsPerOrder && AllValid(lineDraws)
    ensures FirstDelivered(OrderLineItems(d, lineDraws), d.orderNum, d.products[i]) == Some(SplitQuantity(d, i, lineDraws))
  {
    var rows := OrderLineItems(d, lineDraws);
    var m := FirstOccurrence(d.products, i);
    FirstDeliveredSpec(rows, d.orderNum, d.products[i]);
    assert Matches(rows[m], d.orderNum, d.products[i]);
    assert forall k :: 0 <= k < m ==> !Matches(rows[k], d.orderNum, d.products[i]);
  }

  /** The record the loop body builds for product i of order d with the given batch id. */
  function InventoryRecord(d: OrderDetail, i: int, draw: InventoryDraw, batchId: int): InventoryRow
    requires d.WellFormed() && 0 <= i < ProductsPerOrder && draw.Valid() && draw.SplitDraw? == d.isSplit
  {
    if d.isSplit then
      var w := WarehouseFor(draw.numInventories, i);
      var staff := WarehouseMember(w, draw.staffPicks[i]);
      var quantity := SplitQuantity(d, i, draw.lineDraws);
      InventoryRow(d.orderNum, d.products[i], w, batchId, quantity, staff.id, quantity, staff.name, d.deliveryDate)
    else
      var staff := OrderStaff(d.orderNum);
      var quantity := draw.quantities[i];
      InventoryRow(d.orderNum, d.products[i], staff.warehouse, batchId, quantity, staff.id, quantity, staff.name, d.deliveryDate)
  }

  /**
   * What every fulfilment record satisfies: it names the order and product,
   * the batch id and the order's delivery time; it is prepared by a storage
   * staff member of its own warehouse (1, 2 or 3) in the quantity it
   * records. A split order's product goes to its cycled warehouse in its
   * line's delivered quantity, which is the ordered quantity when the
   * order's products are distinct and it has no updates. Any other order's
   * products are prepared by the order's own staff member in a fresh
   * quantity of 1 to 3.
   */
  lemma InventoryRecordFacts(d: OrderDetail, i: int, draw: InventoryDraw, batchId: int)
    requires d.WellFormed() && 0 <= i < ProductsPerOrder && draw.Valid() && draw.SplitDraw? == d.isSplit
    ensures var r := InventoryRecord(d, i, draw, batchId);
            && r.orderNum == d.orderNum && r.productId == d.products[i] && r.batchId == batchId
            && r.lastActionTime == d.deliveryDate
            && 1 <= r.inventoryId <= 3
            && r.preparedQuantity == r.quantity
            && (exists s :: s in StorageStaff && s.id == r.preparedBy && s.name == r.lastActionBy && s.warehouse == r.inventoryId)
    ensures var r := InventoryRecord(d, i, draw, batchId);
            d.isSplit ==>
              && r.inventoryId == WarehouseFor(draw.numInventories, i)
              && r.quantity == SplitQuantity(d, i, draw.lineDraws)
              && (!d.isUpdated && d.ProductsDistinct() ==> r.quantity == d.quantities[i])
    ensures var r := InventoryRecord(d, i, draw, batchId);
            !d.isSplit ==>
              && r.preparedBy == OrderStaff(d.orderNum).id && r.lastActionBy == OrderStaff(d.orderNum).name
              && r.inventoryId == OrderStaff(d.orderNum).warehouse
              && 1 <= r.quantity <= 3
  {
    if d.isSplit {
      WarehouseMemberSpec(WarehouseFor(draw.numInventories, i), draw.staffPicks[i]);
    } else {
      assert OrderStaff(d.orderNum) in StorageStaff;
    }
  }

  /**
   * A non-split order's record quantity is drawn afresh, so it need not be
   * the ordered quantity: order 1, ordering 3 of each product, may have its
   * first record hold 1.
   */
  lemma NormalQuantityIsFresh()
    ensures var orderDraw := OrderDraw([1, 2, 3], [3, 3, 3], 0, 0, 1, 0);
            orderDraw.Valid() &&
            var d := BuildDetail(1, orderDraw);
            InventoryRecord(d, 0, NormalDraw([1, 1, 1]), 1).quantity != d.quantities[0]
  {
    var orderDraw := OrderDraw([1, 2, 3], [3, 3, 3], 0, 0, 1, 0);
    assert orderDraw.Valid();
    var d := BuildDetail(1, orderDraw);
    assert !d.isSplit && d.quantities[0] == 3;
  }

  /** The draws supplied for a run over the given bundles fit them. */
  predicate InventoryDrawsFor(details: seq<OrderDetail>, draws: seq<InventoryDraw>) {
    && |draws| == |details|
    && forall k :: 0 <= k < |details| ==>
         details[k].WellFormed() && draws[k].Valid() && draws[k].SplitDraw? == details[k].isSplit
  }

  /** The batch id the shared counter holds after n records. */
  function BatchAt(n: nat): (b: int)
    ensures 1 <= b <= MaxBatchId
  {
    n % MaxBatchId + 1
  }

  /**
   * The body of the inner loop for product i of a split order: pick the
   * warehouse, a staff member there, and the quantity by recomputing the
   * order's line items and looking the product up in them.
   */
  method SplitRecord(d: OrderDetail, draw: InventoryDraw, i: int, batchId: int) returns (record: InventoryRow)
    requires d.WellFormed() && d.isSplit && draw.Valid() && draw.SplitDraw? && 0 <= i < ProductsPerOrder
    ensures record == InventoryRecord(d, i, draw, batchId)
  {
    var selected := WarehouseFor(draw.numInventories, i);
    WarehouseMemberSpec(selected, draw.staffPicks[i]);
    var staff := WarehouseStaff(selected)[draw.staffPicks[i]];
    var items := GenerateOrderDescriptions([d], [draw.lineDraws]);
    SingleOrderRows(d, draw.lineDraws, items);
    var found := FindDeliveredQuantity(items, d.orderNum, d.products[i]);
    var quantity := if found.Some? then found.value else draw.fallbacks[i];
    LookupFindsSplitQuantity(d, draw.lineDraws, i);
    record := InventoryRow(d.orderNum, d.products[i], selected, batchId, quantity,
                           staff.id, quantity, staff.name, d.deliveryDate);
  }

  /**
   * The inner loop over the products of a split order: the counter enters at
   * its value after `count` records and is advanced once per record.
   */
  method SplitOrderRecords(d: OrderDetail, draw: InventoryDraw, ghost count: nat, batchIn: int)
    returns (records: seq<InventoryRow>, batchOut: int)
    requires d.WellFormed() && d.isSplit && draw.Valid() && draw.SplitDraw?
    requires batchIn == BatchAt(count)
    ensures |records| == ProductsPerOrder && batchOut == BatchAt(count + ProductsPerOrder)
    ensures forall i :: 0 <= i < ProductsPerOrder ==> records[i] == InventoryRecord(d, i, draw, BatchAt(count + i))
  {
    records := [];
    var batchId := batchIn;
    var i := 0;
    while i < ProductsPerOrder
      invariant 0 <= i <= ProductsPerOrder && |records| == i
      invariant batchId == BatchAt(count + i)
      invariant forall m :: 0 <= m < i ==> records[m] == InventoryRecord(d, m, draw, BatchAt(count + m))
    {
      var record := SplitRecord(d, draw, i, batchId);
      records := records + [record];
      BatchAdvance(count + i);
      batchId := NextBatch(batchId);
      i := i + 1;
    }
    batchOut := batchId;
  }

  /**
   * The inner loop over the products of any other order: all from the
   * order's own storage staff member and warehouse, with fresh quantities.
   */
  method NormalOrderRecords(d: OrderDetail, draw: InventoryDraw, ghost count: nat, batchIn: int)
    returns (records: seq<InventoryRow>, batchOut: int)
    requires d.WellFormed() && !d.isSplit && draw.Valid() && draw.NormalDraw?
    requires batchIn == BatchAt(count)
    ensures |records| == ProductsPerOrder && batchOut == BatchAt(count + ProductsPerOrder)
    ensures forall i :: 0 <= i < ProductsPerOrder ==> records[i] == InventoryRecord(d, i, draw, BatchAt(count + i))
  {
    records := [];
    var batchId := batchIn;
    var staff := OrderStaff(d.orderNum);
    var i := 0;
    while i < ProductsPerOrder
      invariant 0 <= i <= ProductsPerOrder && |records| == i
      invariant batchId == BatchAt(count + i)
      invariant forall m :: 0 <= m < i ==> records[m] == InventoryRecord(d, m, draw, BatchAt(count + m))
    {
      var quantity := draw.quantities[i];
      records := records + [InventoryRow(d.orderNum, d.products[i], staff.warehouse, batchId, quantity,
                                         staff.id, quantity, staff.name, d.deliveryDate)];
      BatchAdvance(count + i);
      batchId := NextBatch(batchId);
      i := i + 1;
    }
    batchOut := batchId;
  }

  /**
   * The body of the loop over orders: a split order's products are spread
   * over its warehouses, any other order's come from its own staff member;
   * either way the counter advances once per record.
   */
  method OrderRecords(d: OrderDetail, draw: InventoryDraw, ghost count: nat, batchIn: int)
    returns (records: seq<InventoryRow>, batchOut: int)
    requires d.WellFormed() && draw.Valid() && draw.SplitDraw? == d.isSplit
    requires batchIn == BatchAt(count)
    ensures |records| == ProductsPerOrder && batchOut == BatchAt(count + ProductsPerOrder)
    ensures forall i :: 0 <= i < ProductsPerOrder ==> records[i] == InventoryRecord(d, i, draw, BatchAt(count + i))
  {
    if d.isSplit {
      records, batchOut := SplitOrderRecords(d, draw, count, batchIn);
    } else {
      records, batchOut := NormalOrderRecords(d, draw, count, batchIn);
    }
  }

  /**
   * `generate_order_inventory_sql`: one record per product of each order, in
   * order, the j-th record carrying batch id (j mod 150) + 1.
   */
  method GenerateOrderInventory(details: seq<OrderDetail>, draws: seq<InventoryDraw>) returns (rows: seq<InventoryRow>)
    requires InventoryDrawsFor(details, draws)
    ensures |rows| == ProductsPerOrder * |details|
    ensures forall j :: 0 <= j < |rows| ==> rows[j] == InventoryRecord(details[j / 3], j % 3, draws[j / 3], BatchAt(j))
  {
    rows := [];
    var batchId := 1;
    var k := 0;
    while k < |details|
      invariant 0 <= k <= |details| && |rows| == 3 * k
      invariant batchId == BatchAt(3 * k)
      invariant rows == InventoryRows(details, draws)[..3 * k]
    {
      var records;
      records, batchId := OrderRecords(details[k], draws[k], 3 * k, batchId);
      AppendOrderRecords(details, draws, k, rows, records);
      rows := rows + records;
      k := k + 1;
    }
    InventoryRowsSpec(details, draws);
  }

  /** Every record of every order, the j-th with batch id BatchAt(j). */
  function InventoryRows(details: seq<OrderDetail>, draws: seq<InventoryDraw>): (rows: seq<InventoryRow>)
    requires InventoryDrawsFor(details, draws)
  {
    seq(3 * |details|, j requires 0 <= j < 3 * |details| =>
                         InventoryRecord(details[j / 3], j % 3, draws[j / 3], BatchAt(j)))
  }

  /** Record j of the run is record j mod 3 of order j / 3, with batch id BatchAt(j). */
  lemma InventoryRowsSpec(details: seq<OrderDetail>, draws: seq<InventoryDraw>)
    requires InventoryDrawsFor(details, draws)
    ensures |InventoryRows(details, draws)| == ProductsPerOrder * |details|
    ensures forall j :: 0 <= j < 3 * |details| ==>
              InventoryRows(details, draws)[j] == InventoryRecord(details[j / 3], j % 3, draws[j / 3], BatchAt(j))
  {
  }

  /**
   * Appending the three records of order k, made with the counter after 3k
   * records, to the records of orders 0 .. k-1 yields those of orders 0 .. k.
   */
  lemma AppendOrderRecords(details: seq<OrderDetail>, draws: seq<InventoryDraw>, k: int,
                           rows: seq<InventoryRow>, records: seq<InventoryRow>)
    requires InventoryDrawsFor(details, draws) && 0 <= k < |details|
    requires |rows| == 3 * k && rows == InventoryRows(details, draws)[..3 * k]
    requires |records| == ProductsPerOrder
    requires forall i :: 0 <= i < ProductsPerOrder ==> records[i] == InventoryRecord(details[k], i, draws[k], BatchAt(3 * k + i))
    ensures rows + records == InventoryRows(details, draws)[..3 * k + 3]
  {
    var expected := InventoryRows(details, draws);
    forall i | 0 <= i < ProductsPerOrder
      ensures records[i] == expected[3 * k + i]
    {
      InventoryRowAt(details, draws, k, i);
    }
    AppendBlock(rows, records, expected, k);
  }

  /** Position 3k + i holds record i of order k. */
  lemma InventoryRowAt(details: seq<OrderDetail>, draws: seq<InventoryDraw>, k: int, i: int)
    requires InventoryDrawsFor(details, draws) && 0 <= k < |details| && 0 <= i < ProductsPerOrder
    ensures |InventoryRows(details, draws)| == 3 * |details|
    ensures InventoryRows(details, draws)[3 * k + i] == InventoryRecord(details[k], i, draws[k], BatchAt(3 * k + i))
  {
    assert (3 * k + i) / 3 == k && (3 * k + i) % 3 == i;
  }

  /** Appending the block of order k to the records of orders 0 .. k-1 yields the records of orders 0 .. k. */
  lemma AppendBlock<T>(rows: seq<T>, block: seq<T>, expected: seq<T>, k: nat)
    requires |rows| == 3 * k && |block| == 3 && 3 * k + 3 <= |expected|
    requires rows == expected[..3 * k]
    requires forall i :: 0 <= i < 3 ==> block[i] == expected[3 * k + i]
    ensures rows + block == expected[..3 * k + 3]
  {
  }
}

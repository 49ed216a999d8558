/**
 * One run of the generator (generate_orders.py:243-249 without its file
 * output): the order stage, then the line-item stage and the fulfilment
 * stage over the order stage's bundles, and how the three tables agree.
 */
module Dataset {
  import opened Orders
  import opened LineItems
  import opened Inventory

  /** The draws of the three stages fit a run of NumOrders orders. */
  predicate RunDraws(orderDraws: seq<OrderDraw>, lineDraws: seq<seq<LineDraw>>, inventoryDraws: seq<InventoryDraw>) {
    && |orderDraws| == NumOrders
    && (forall k :: 0 <= k < |orderDraws| ==> orderDraws[k].Valid())
    && |lineDraws| == NumOrders
    && (forall k :: 0 <= k < |lineDraws| ==> |lineDraws[k]| == ProductsPerOrder && AllValid(lineDraws[k]))
    && |inventoryDraws| == NumOrders
    && (forall k :: 0 <= k < |inventoryDraws| ==>
          inventoryDraws[k].Valid() && (inventoryDraws[k].SplitDraw? <==> IsSplit(k + 1)))
  }

  /**
   * How row j of the three tables agree: the line item and the fulfilment
   * record name the same order and product; the record carries batch id
   * (j mod 150) + 1 and the order's delivery time; a split order's record
   * holds the line item's delivered quantity, any other order's record is
   * signed by the same storage staff member as the order and its line item.
   */
  predicate RowsAgree(orders: seq<OrderRow>, descriptions: seq<LineItemRow>, inventory: seq<InventoryRow>, j: int)
    requires 0 <= j && j / 3 < |orders| && j < |descriptions| && j < |inventory|
  {
    var o, line, record := orders[j / 3], descriptions[j], inventory[j];
    && line.orderNum == record.orderNum == j / 3 + 1
    && line.productId == record.productId
    && record.batchId == j % MaxBatchId + 1
    && record.lastActionTime == line.deliveredDate == o.lastActionTime
    && line.lastActionBy == o.lastActionBy
    && (IsSplit(j / 3 + 1) ==> record.quantity == line.deliveredQuantity && o.lastActionBy == MultipleStaff)
    && (!IsSplit(j / 3 + 1) ==> record.lastActionBy == o.lastActionBy)
  }

  /**
   * The agreement of one row, stated on the stages' row builders: order n,
   * product i, the record made with the counter after `count` records.
   */
  lemma RowAgreement(n: int, orderDraw: OrderDraw, lineDraw: LineDraw, inventoryDraw: InventoryDraw, i: int, count: nat)
    requires orderDraw.Valid() && lineDraw.Valid() && inventoryDraw.Valid()
    requires inventoryDraw.SplitDraw? == IsSplit(n) && 0 <= i < ProductsPerOrder
    ensures var o, d := BuildOrder(n, orderDraw), BuildDetail(n, orderDraw);
            var line, record := LineItem(d, i, lineDraw), InventoryRecord(d, i, inventoryDraw, BatchAt(count));
            && line.orderNum == record.orderNum == n
            && line.productId == record.productId
            && record.batchId == count % MaxBatchId + 1
            && record.lastActionTime == line.deliveredDate == o.lastActionTime
            && line.lastActionBy == o.lastActionBy
            && (IsSplit(n) ==> record.quantity == line.deliveredQuantity && o.lastActionBy == MultipleStaff)
            && (!IsSplit(n) ==> record.lastActionBy == o.lastActionBy)
  {
    var d := BuildDetail(n, orderDraw);
    CategoriesExclusive(n);
    InventoryRecordFacts(d, i, inventoryDraw, BatchAt(count));
  }

  /**
   * `main` without its output: 500 orders, then one line item and one
   * fulfilment record per product of each, in order; the tables agree row by
   * row, and an order without updates costs what its line items add up to.
   */
  method GenerateDataset(orderDraws: seq<OrderDraw>, lineDraws: seq<seq<LineDraw>>, inventoryDraws: seq<InventoryDraw>)
    returns (orders: seq<OrderRow>, descriptions: seq<LineItemRow>, inventory: seq<InventoryRow>)
    requires RunDraws(orderDraws, lineDraws, inventoryDraws)
    ensures |orders| == NumOrders
    ensures |descriptions| == ProductsPerOrder * NumOrders && |inventory| == ProductsPerOrder * NumOrders
    ensures forall j :: 0 <= j < |inventory| ==> RowsAgree(orders, descriptions, inventory, j)
    ensures forall k :: 0 <= k < NumOrders && !IsUpdated(k + 1) ==>
              LineTotal(descriptions[3 * k .. 3 * k + 3]) == orders[k].totalCost
  {
    var details;
    orders, details := GenerateCustomerOrders(orderDraws);
    descriptions := GenerateOrderDescriptions(details, lineDraws);
    inventory := GenerateOrderInventory(details, inventoryDraws);
    TablesAgree(orderDraws, lineDraws, inventoryDraws, orders, details, descriptions, inventory);
    LineTotalsMatch(orderDraws, lineDraws, orders, details, descriptions);
  }

  /** The rows the three stages produce agree row by row. */
  lemma TablesAgree(orderDraws: seq<OrderDraw>, lineDraws: seq<seq<LineDraw>>, inventoryDraws: seq<InventoryDraw>,
                    orders: seq<OrderRow>, details: seq<OrderDetail>,
                    descriptions: seq<LineItemRow>, inventory: seq<InventoryRow>)
    requires |orderDraws| == NumOrders && forall k :: 0 <= k < |orderDraws| ==> orderDraws[k].Valid()
    requires |orders| == NumOrders && forall k :: 0 <= k < NumOrders ==> orders[k] == BuildOrder(k + 1, orderDraws[k])
    requires |details| == NumOrders && forall k :: 0 <= k < NumOrders ==> details[k] == BuildDetail(k + 1, orderDraws[k])
    requires DrawsFor(details, lineDraws) && |descriptions| == ProductsPerOrder * |details|
    requires forall j :: 0 <= j < |descriptions| ==> descriptions[j] == LineItem(details[j / 3], j % 3, lineDraws[j / 3][j % 3])
    requires InventoryDrawsFor(details, inventoryDraws) && |inventory| == ProductsPerOrder * |details|
    requires forall j :: 0 <= j < |inventory| ==> inventory[j] == InventoryRecord(details[j / 3], j % 3, inventoryDraws[j / 3], BatchAt(j))
    ensures forall j :: 0 <= j < |inventory| ==> RowsAgree(orders, descriptions, inventory, j)
  {
    forall j | 0 <= j < |inventory|
      ensures RowsAgree(orders, descriptions, inventory, j)
    {
      var k, i := j / 3, j % 3;
      RowAgreement(k + 1, orderDraws[k], lineDraws[k][i], inventoryDraws[k], i, j);
    }
  }

  /** The line items of an order without updates add up to the order's total_cost. */
  lemma LineTotalsMatch(orderDraws: seq<OrderDraw>, lineDraws: seq<seq<LineDraw>>,
                        orders: seq<OrderRow>, details: seq<OrderDetail>, descriptions: seq<LineItemRow>)
    requires |orderDraws| == NumOrders && forall k :: 0 <= k < |orderDraws| ==> orderDraws[k].Valid()
    requires |orders| == NumOrders && forall k :: 0 <= k < NumOrders ==> orders[k] == BuildOrder(k + 1, orderDraws[k])
    requires |details| == NumOrders && forall k :: 0 <= k < NumOrders ==> details[k] == BuildDetail(k + 1, orderDraws[k])
    requires DrawsFor(details, lineDraws) && |descriptions| == ProductsPerOrder * |details|
    requires forall j :: 0 <= j < |descriptions| ==> descriptions[j] == LineItem(details[j / 3], j % 3, lineDraws[j / 3][j % 3])
    ensures forall k :: 0 <= k < NumOrders && !IsUpdated(k + 1) ==>
              LineTotal(descriptions[3 * k .. 3 * k + 3]) == orders[k].totalCost
  {
    forall k | 0 <= k < NumOrders && !IsUpdated(k + 1)
      ensures LineTotal(descriptions[3 * k .. 3 * k + 3]) == orders[k].totalCost
    {
      var rows := descriptions[3 * k .. 3 * k + 3];
      forall i | 0 <= i < 3
        ensures rows[i] == LineItem(details[k], i, lineDraws[k][i])
      {
        assert (3 * k + i) / 3 == k && (3 * k + i) % 3 == i;
      }
      OrderLineTotal(k + 1, orderDraws[k], lineDraws[k], rows);
    }
  }

  /** The line items of order n, if it has no updates, add up to its total_cost. */
  lemma {:induction false} OrderLineTotal(n: int, orderDraw: OrderDraw, draws: seq<LineDraw>, rows: seq<LineItemRow>)
    requires orderDraw.Valid() && |draws| == ProductsPerOrder && AllValid(draws) && !IsUpdated(n)
    requires |rows| == 3 && forall i :: 0 <= i < 3 ==> rows[i] == LineItem(BuildDetail(n, orderDraw), i, draws[i])
    ensures LineTotal(rows) == BuildOrder(n, orderDraw).totalCost
  {
    var d := BuildDetail(n, orderDraw);
    LineTotalsMatchOrderCost(d, draws);
    assert rows == OrderLineItems(d, draws);
  }
}

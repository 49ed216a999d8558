/**
 * Line-item synthesis: one `customer_order_description` row per product of
 * each order, with the delivered quantity perturbed for updated orders
 * (generate_orders.py:140-176).
 */
module LineItems {
  import opened Optional
  import opened Catalog
  import opened Orders

  /**
   * The random values one line item of an updated order consumes: the coin
   * flip `random.random() > 0.5` and the `randint` of the branch it selects,
   * [1, 2] to increase and [0, 1] to decrease.
   */
  datatype LineDraw = LineDraw(increase: bool, amount: int) {
    predicate Valid() {
      if increase then 1 <= amount <= 2 else 0 <= amount <= 1
    }
  }

  predicate AllValid(draws: seq<LineDraw>) {
    forall i :: 0 <= i < |draws| ==> draws[i].Valid()
  }

  /** One `customer_order_description` row. */
  datatype LineItemRow = LineItemRow(
    orderNum: int,
    productId: int,
    quantity: int,
    deliveredQuantity: int,
    totalPrice: int,
    deliveredDate: int,
    lastActionBy: string,
    lastActionTime: int,
    updatedQuantity: Option<int>
  )

  /**
   * The delivered quantity of an item of an updated order: raised by the
   * draw, or lowered by it but never below 1. It exceeds the ordered
   * quantity exactly when the coin flip chose to increase.
   */
  function PerturbedQuantity(quantity: int, draw: LineDraw): (q: int)
    requires draw.Valid() && quantity >= 1
    ensures 1 <= q <= quantity + 2
    ensures q > quantity <==> draw.increase
    ensures !draw.increase ==> q >= quantity - 1
  {
    if draw.increase then quantity + draw.amount
    else if quantity - draw.amount > 1 then quantity - draw.amount else 1
  }

  /** The delivered quantity of product i of order d: perturbed by the draw when the order is updated, else as ordered. */
  function DeliveredQuantity(d: OrderDetail, i: int, draw: LineDraw): (q: int)
    requires d.WellFormed() && 0 <= i < ProductsPerOrder && draw.Valid()
    ensures !d.isUpdated ==> q == d.quantities[i]
  {
    if d.isUpdated then PerturbedQuantity(d.quantities[i], draw) else d.quantities[i]
  }

  /** The row the inner loop body builds for product i of order d. */
  function LineItem(d: OrderDetail, i: int, draw: LineDraw): (r: LineItemRow)
    requires d.WellFormed() && 0 <= i < ProductsPerOrder && draw.Valid()
    ensures r.orderNum == d.orderNum && r.productId == d.products[i] && r.quantity == d.quantities[i]
    ensures r.deliveredQuantity == DeliveredQuantity(d, i, draw)
    ensures !d.isUpdated ==> r.deliveredQuantity == r.quantity && r.updatedQuantity == None
    ensures d.isUpdated ==> 1 <= r.deliveredQuantity <= r.quantity + 2 && r.updatedQuantity == Some(r.deliveredQuantity)
    ensures d.isUpdated ==> (r.deliveredQuantity > r.quantity <==> draw.increase)
    ensures r.totalPrice == ProductPrice(r.productId) * r.deliveredQuantity
    ensures r.deliveredDate == d.deliveryDate && r.lastActionTime == d.deliveryDate && r.lastActionBy == d.lastActionBy
  {
    var quantity := d.quantities[i];
    var delivered := DeliveredQuantity(d, i, draw);
    LineItemRow(
      orderNum := d.orderNum,
      productId := d.products[i],
      quantity := quantity,
      deliveredQuantity := delivered,
      totalPrice := ProductPrice(d.products[i]) * delivered,
      deliveredDate := d.deliveryDate,
      lastActionBy := d.lastActionBy,
      lastActionTime := d.deliveryDate,
      updatedQuantity := if d.isUpdated then Some(delivered) else None
    )
  }

  /** The rows of one order, in product order. */
  function OrderLineItems(d: OrderDetail, draws: seq<LineDraw>): (rows: seq<LineItemRow>)
    requires d.WellFormed() && |draws| == ProductsPerOrder && AllValid(draws)
    ensures |rows| == ProductsPerOrder
  {
    [LineItem(d, 0, draws[0]), LineItem(d, 1, draws[1]), LineItem(d, 2, draws[2])]
  }

  /** The draws supplied for a run over the given bundles fit them. */
  predicate DrawsFor(details: seq<OrderDetail>, draws: seq<seq<LineDraw>>) {
    && |draws| == |details|
    && forall k :: 0 <= k < |details| ==>
         details[k].WellFormed() && |draws[k]| == ProductsPerOrder && AllValid(draws[k])
  }

  /** Every line item of every order, product by product: entry j is product j % 3 of order j / 3. */
  function DescriptionRows(details: seq<OrderDetail>, draws: seq<seq<LineDraw>>): (rows: seq<LineItemRow>)
    requires DrawsFor(details, draws)
  {
    seq(3 * |details|, j requires 0 <= j < 3 * |details| => LineItem(details[j / 3], j % 3, draws[j / 3][j % 3]))
  }

  /** Entry 3k + i of the rows is product i of order k. */
  lemma DescriptionRowAt(details: seq<OrderDetail>, draws: seq<seq<LineDraw>>, k: int, i: int)
    requires DrawsFor(details, draws) && 0 <= k < |details| && 0 <= i < ProductsPerOrder
    ensures |DescriptionRows(details, draws)| == 3 * |details|
    ensures DescriptionRows(details, draws)[3 * k + i] == LineItem(details[k], i, draws[k][i])
  {
    assert (3 * k + i) / 3 == k && (3 * k + i) % 3 == i;
  }

  /** Row j of the run is product j mod 3 of order j / 3. */
  lemma DescriptionRowsSpec(details: seq<OrderDetail>, draws: seq<seq<LineDraw>>)
    requires DrawsFor(details, draws)
    ensures |DescriptionRows(details, draws)| == ProductsPerOrder * |details|
    ensures forall j :: 0 <= j < 3 * |details| ==>
              DescriptionRows(details, draws)[j] == LineItem(details[j / 3], j % 3, draws[j / 3][j % 3])
  {
  }

  /** Appending product i of order k to the rows before it yields the rows up to it. */
  lemma AppendLineItem(details: seq<OrderDetail>, draws: seq<seq<LineDraw>>, k: int, i: int, rows: seq<LineItemRow>)
    requires DrawsFor(details, draws) && 0 <= k < |details| && 0 <= i < ProductsPerOrder
    requires |rows| == 3 * k + i && rows == DescriptionRows(details, draws)[..3 * k + i]
    ensures rows + [LineItem(details[k], i, draws[k][i])] == DescriptionRows(details, draws)[..3 * k + i + 1]
  {
    DescriptionRowAt(details, draws, k, i);
    AppendPrefix(rows, LineItem(details[k], i, draws[k][i]), DescriptionRows(details, draws));
  }

  /**
   * `generate_order_description_sql`: exactly one row per product, for each
   * order in turn and within an order in product order.
   */
  method GenerateOrderDescriptions(details: seq<OrderDetail>, draws: seq<seq<LineDraw>>) returns (rows: seq<LineItemRow>)
    requires DrawsFor(details, draws)
    ensures |rows| == ProductsPerOrder * |details|
    ensures forall j :: 0 <= j < |rows| ==> rows[j] == LineItem(details[j / 3], j % 3, draws[j / 3][j % 3])
  {
    rows := [];
    var k := 0;
    while k < |details|
      invariant 0 <= k <= |details|
      invariant |rows| == 3 * k && rows == DescriptionRows(details, draws)[..3 * k]
    {
      var d := details[k];
      var i := 0;
      while i < ProductsPerOrder
        invariant 0 <= i <= ProductsPerOrder
        invariant |rows| == 3 * k + i && rows == DescriptionRows(details, draws)[..3 * k + i]
      {
        AppendLineItem(details, draws, k, i, rows);
        rows := rows + [LineItem(d, i, draws[k][i])];
        i := i + 1;
      }
      k := k + 1;
    }
    DescriptionRowsSpec(details, draws);
  }

  /** Run on a single bundle, the method yields exactly that order's rows. */
  lemma SingleOrderRows(d: OrderDetail, draws: seq<LineDraw>, rows: seq<LineItemRow>)
    requires d.WellFormed() && |draws| == ProductsPerOrder && AllValid(draws)
    requires |rows| == ProductsPerOrder
    requires forall j :: 0 <= j < |rows| ==> rows[j] == LineItem([d][j / 3], j % 3, [draws][j / 3][j % 3])
    ensures rows == OrderLineItems(d, draws)
  {
    assert rows[0] == LineItem(d, 0, draws[0]);
    assert rows[1] == LineItem(d, 1, draws[1]);
    assert rows[2] == LineItem(d, 2, draws[2]);
  }

  /** Σ total_price over some rows. */
  function LineTotal(rows: seq<LineItemRow>): int
    decreases |rows|
  {
    if rows == [] then 0 else rows[0].totalPrice + LineTotal(rows[1..])
  }

  /**
   * For an order that is not updated, its line totals add up to the order's
   * total_cost; an updated order's line totals need not.
   */
  lemma LineTotalsMatchOrderCost(d: OrderDetail, draws: seq<LineDraw>)
    requires Consistent(d) && !d.isUpdated
    requires |draws| == ProductsPerOrder && AllValid(draws)
    ensures LineTotal(OrderLineItems(d, draws)) == d.totalCost
  {
    var rows := OrderLineItems(d, draws);
    var p, q := d.products, d.quantities;
    LineTotalOfThree(rows);
    TotalCostOfThree(p, q);
  }

  lemma LineTotalOfThree(rows: seq<LineItemRow>)
    requires |rows| == 3
    ensures LineTotal(rows) == rows[0].totalPrice + rows[1].totalPrice + rows[2].totalPrice
  {
    assert rows[1..][1..][1..] == [];
    assert LineTotal(rows[1..][1..]) == rows[2].totalPrice + LineTotal(rows[1..][1..][1..]);
  }

  lemma TotalCostOfThree(p: seq<int>, q: seq<int>)
    requires |p| == 3 && |q| == 3
    ensures TotalCost(p, q) == ProductPrice(p[0]) * q[0] + ProductPrice(p[1]) * q[1] + ProductPrice(p[2]) * q[2]
  {
    assert p[1..][1..][1..] == [];
    assert TotalCost(p[1..][1..], q[1..][1..]) == ProductPrice(p[2]) * q[2] + TotalCost(p[1..][1..][1..], q[1..][1..][1..]);
  }

  /**
   * An updated order none of whose items is lowered and at least one of
   * whose items is raised has line totals above its total_cost: the raised
   * item costs more at a positive price, the others cost what was ordered.
   */
  lemma RaisedLineTotalsExceedCost(d: OrderDetail, draws: seq<LineDraw>)
    requires Consistent(d) && d.isUpdated
    requires |draws| == ProductsPerOrder && AllValid(draws)
    requires forall i :: 0 <= i < |draws| ==> draws[i].increase || draws[i].amount == 0
    requires exists i :: 0 <= i < |draws| && draws[i].increase
    ensures LineTotal(OrderLineItems(d, draws)) > d.totalCost
  {
    var rows := OrderLineItems(d, draws);
    var p, q := d.products, d.quantities;
    LineTotalOfThree(rows);
    TotalCostOfThree(p, q);
    forall i | 0 <= i < 3
      ensures ProductPrice(p[i]) * q[i] <= rows[i].totalPrice
    {
      MulMono(ProductPrice(p[i]), q[i], rows[i].deliveredQuantity);
    }
    var w :| 0 <= w < 3 && draws[w].increase;
    PriceBounds(p[w]);
    MulStrict(ProductPrice(p[w]), q[w], rows[w].deliveredQuantity);
  }

  /**
   * An updated order none of whose items is raised has line totals no larger
   * than its total_cost, and strictly smaller when some item ordered at
   * least twice is lowered by one.
   */
  lemma LoweredLineTotalsWithinCost(d: OrderDetail, draws: seq<LineDraw>)
    requires Consistent(d) && d.isUpdated
    requires |draws| == ProductsPerOrder && AllValid(draws)
    requires forall i :: 0 <= i < |draws| ==> !draws[i].increase
    ensures LineTotal(OrderLineItems(d, draws)) <= d.totalCost
    ensures (exists i :: 0 <= i < |draws| && draws[i].amount == 1 && d.quantities[i] >= 2) ==>
              LineTotal(OrderLineItems(d, draws)) < d.totalCost
  {
    var rows := OrderLineItems(d, draws);
    var p, q := d.products, d.quantities;
    LineTotalOfThree(rows);
    TotalCostOfThree(p, q);
    forall i | 0 <= i < 3
      ensures rows[i].totalPrice <= ProductPrice(p[i]) * q[i]
    {
      MulMono(ProductPrice(p[i]), rows[i].deliveredQuantity, q[i]);
    }
    if exists i :: 0 <= i < |draws| && draws[i].amount == 1 && d.quantities[i] >= 2 {
      var w :| 0 <= w < 3 && draws[w].amount == 1 && q[w] >= 2;
      PriceBounds(p[w]);
      MulStrict(ProductPrice(p[w]), rows[w].deliveredQuantity, q[w]);
    }
  }
}

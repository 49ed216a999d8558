# Customer order generator, modelled in Dafny

`generate_orders.py` produces demo data for a plumbing-supplies shop: 500
customer orders, their line items (`customer_order_description`) and their
fulfilment records (`customer_order_inventory`), written out as SQL `INSERT`
statements. This project models what the generator computes, row by row, and
proves what the rows promise about each other.

- `catalog.dfy` (module `Catalog`): the product price table, looked up band by
  band as `get_product_price` does, and the staff rosters (sales reps,
  delivery drivers, nine storage staff over three warehouses).
- `orders.dfy` (module `Orders`): one iteration of the order loop of
  `generate_customer_order_sql` — order category by number (1-300 plain,
  301-400 updated, 401-500 split), total cost, order and delivery times,
  round-robin staff, update action and description — and the loop itself.
- `line_items.dfy` (module `LineItems`): `generate_order_description_sql`,
  one row per product, the delivered quantity of an updated order raised or
  lowered (never below 1).
- `inventory.dfy` (module `Inventory`): `generate_order_inventory_sql`, with
  its rolling batch counter (1..150, wrapping), the warehouse cycle of a
  split order, the staff chosen in that warehouse, and the quantity looked up
  in the order's recomputed line items.
- `dataset.dfy` (module `Dataset`): `main`'s three calls in sequence and how
  the three tables then agree.
- `optional.dfy`: the `Option` type used for SQL `NULL` columns and lookups.

Every random draw of the source is an explicit parameter. An `OrderDraw`
holds the draws of one iteration of the order loop, a `LineDraw` those of
one line item (an order takes three), and an `InventoryDraw` those the
fulfilment loop takes for one order. Each has a `Valid()` predicate stating
the inclusive range of the corresponding `randint`, `sample` or `choice`
call. Timestamps are whole seconds since 1970-01-01 00:00:00; `StartDate` is
2025-11-01 00:00:00 and the window is 65 days long.

`random_date` is documented as returning a date between start and end, but
both of its draws are inclusive, so it can return up to one day past
`end_date` (`Orders.RandomDatePassesEnd` exhibits such a date). The model
follows the code and claims no corrected variant.

Each loop of the three `generate_*` functions is a Dafny `method` with a
`while` loop, proved against a specification function (`BuildOrder`,
`BuildDetail`, `LineItem`, `InventoryRecord`) whose properties are proved as
lemmas or as that function's own contract. The band scan of
`get_product_price` and the loops inside expressions (the `sum` over the
zipped products and quantities, the staff filter) are recursive functions.

## Model

| member | source | states |
|---|---|---|
| `Catalog.RoundRobin` | generate_orders.py:89-90 | choosing `roster[n % len(roster)]` always yields a member of the roster |
| `Catalog.PriceIn` | generate_orders.py:43-46 | the band scan answers either the default 100 or the entry at the id's offset in some band that contains the id |
| `Catalog.ProductPrice` | generate_orders.py:31-46 | `get_product_price` over the source's seven bands; an id outside 1..70 costs the default 100 |
| `Catalog.PriceInFirstBand` | generate_orders.py:43-46 | the band scan answers 100 when no band contains the id, and otherwise the entry at the id's offset in the first band that contains it |
| `Catalog.BandLayout` | generate_orders.py:33-41 | band m covers ids 10m+1 .. 10m+10, holds ten prices, each between 30 and 440 |
| `Catalog.CataloguedPrice` | generate_orders.py:31-46 | a product id 1..70 lies in band (id-1)/10, its offset indexes that band's list, and its price is that entry, between 30 and 440 |
| `Catalog.UncataloguedPrice` | generate_orders.py:43-46 | an id outside 1..70 falls through every band of the scan and gets the default 100 |
| `Catalog.PriceBounds` | generate_orders.py:31-46 | every price, catalogued or default, lies between 30 and 440 |
| `Catalog.StaffIn` | generate_orders.py:203-203 | the comprehension `[s for s in STORAGE_STAFF if s[2] == w]` over any roster, in roster order (its properties are stated by `Catalog.StaffInSpec`) |
| `Catalog.WarehouseStaff` | generate_orders.py:203-203 | the filtered storage staff of warehouse w (its properties are stated by `Catalog.WarehouseRoster`) |
| `Catalog.WarehouseMember` | generate_orders.py:204-204 | the member `random.choice` takes from warehouse w's staff at draw `pick`, read off the roster's layout (its properties are stated by `Catalog.WarehouseMemberSpec`) |
| `Catalog.StaffInSpec` | generate_orders.py:203-203 | the warehouse filter keeps exactly the roster members of that warehouse |
| `Catalog.WarehouseRoster` | generate_orders.py:13-23 | each warehouse 1..3 has exactly three storage staff, listed together at roster positions 3w-3 .. 3w-1 |
| `Catalog.WarehouseMemberSpec` | generate_orders.py:203-204 | the member chosen among warehouse w's filtered staff is a storage staff member who works in warehouse w |
| `Orders.IsUpdated` | generate_orders.py:72-72 | the `is_updated` flag: order numbers 301..400 (its properties are stated by `Orders.CategoryOf` and `Orders.CategoryCounts`) |
| `Orders.IsSplit` | generate_orders.py:73-73 | the `is_split` flag: order numbers above 400 (its properties are stated by `Orders.CategoryOf` and `Orders.CategoryCounts`) |
| `Orders.CategoryOf` | generate_orders.py:72-73 | an order is updated exactly when its number is 301..400 and split exactly when it is above 400 |
| `Orders.CategoriesExclusive` | generate_orders.py:72-73 | no order is both updated and split; orders 1..300 are neither |
| `Orders.CategoryCounts` | generate_orders.py:5-8 | among orders 1..500 there are exactly 300 plain, 100 updated and 100 split orders, as the configuration constants say |
| `Orders.CountBands` | generate_orders.py:68-73 | three consecutive runs of order numbers, one per category, contribute their lengths to the category counts |
| `Orders.WindowDays` | generate_orders.py:54-55 | `delta.days` is the floor: that many whole days fit between start and end, and one more does not |
| `Orders.RandomDate` | generate_orders.py:52-57 | a random date is never before the start and at most one day past the end |
| `Orders.OrderDateOf` | generate_orders.py:85-85 | the order date drawn for one order (its bounds are stated by `Orders.RandomDate`) |
| `Orders.DeliveryDateOf` | generate_orders.py:86-86 | the delivery date drawn for one order (its bounds are stated by `Orders.DeliveryDate`) |
| `Orders.RandomDatePassesEnd` | generate_orders.py:52-57 | the last day of the window plus 86400 seconds yields a date one day after `end_date` |
| `Orders.DeliveryDate` | generate_orders.py:86-86 | the delivery time is 1..3 days plus 0..12 hours after the order time, so always strictly later |
| `Orders.TotalCost` | generate_orders.py:80-80 | the sum over `zip(products, quantities)` stops at the shorter list: surplus products or quantities add nothing |
| `Orders.TotalCostBounds` | generate_orders.py:77-80 | with every quantity in 1..3 the total cost lies between the sum of the prices and three times that sum |
| `Orders.OrderStaff` | generate_orders.py:95-95 | the round-robin storage staff member of an order is on the roster and works in warehouse 1, 2 or 3 |
| `Orders.MultipleStaffIsNoName` | generate_orders.py:13-23 | no storage staff member is named "Multiple Staff" |
| `Orders.ActorOf` | generate_orders.py:92-96 | `last_action_by` is "Multiple Staff" exactly for split orders, and otherwise the order's storage staff member's name |
| `Orders.UpdateDescriptionOf` | generate_orders.py:103-115 | an updated order's description is one of the ten listed descriptions |
| `Orders.BuildOrder` | generate_orders.py:68-123 | an order row has customer id 100000000 + n, a cost within the price bounds, an order date inside the window (plus a day), a delivery time 1 day to 3.5 days later, a listed sales rep and driver, "Multiple Staff" exactly when split, and an update action and description exactly when updated |
| `Orders.BuildDetail` | generate_orders.py:126-136 | the stored bundle is consistent with its order number (distinct products, quantities 1..3, flags, actor, cost) and carries the same cost, delivery time and actor as the order row |
| `Orders.GenerateCustomerOrders` | generate_orders.py:64-138 | the loop yields exactly 500 order rows and bundles, entry k being order number k+1 built from its draws |
| `LineItems.PerturbedQuantity` | generate_orders.py:154-161 | an updated item's delivered quantity lies in 1 .. quantity+2, exceeds the ordered quantity exactly when the coin chose to increase, and otherwise drops by at most one |
| `LineItems.DeliveredQuantity` | generate_orders.py:154-164 | an order without updates delivers exactly the ordered quantity; the bounds for an updated order are stated by `LineItems.PerturbedQuantity` |
| `LineItems.LineItem` | generate_orders.py:152-174 | a line item names its order, product and ordered quantity; delivers the ordered quantity with a NULL update for an order without updates, and the perturbed quantity recorded as the update otherwise; its price is catalogue price times delivered quantity; its dates and actor are the order's |
| `LineItems.OrderLineItems` | generate_orders.py:152-152 | an order has exactly three line items |
| `LineItems.GenerateOrderDescriptions` | generate_orders.py:141-176 | exactly three rows per order, row 3k+i being product i of order k |
| `LineItems.SingleOrderRows` | generate_orders.py:209-209 | run on a single order, the line-item stage yields exactly that order's three line items |
| `LineItems.LineTotalsMatchOrderCost` | generate_orders.py:167-168 | for an order without updates the line totals add up to the order's `total_cost` |
| `LineItems.RaisedLineTotalsExceedCost` | generate_orders.py:154-168 | for an updated order with no item lowered and at least one raised, the line totals exceed `total_cost` |
| `LineItems.LoweredLineTotalsWithinCost` | generate_orders.py:154-168 | for an updated order with no item raised, the line totals are at most `total_cost`, and below it when some item ordered at least twice is lowered by one |
| `Inventory.NextBatch` | generate_orders.py:224-224 | the counter step stays in 1..150, counts up below 150 and wraps from 150 to 1 |
| `Inventory.BatchAdvance` | generate_orders.py:224-224 | one counter step from (n mod 150) + 1 gives ((n + 1) mod 150) + 1, the step the loops chain from the initial 1 |
| `Inventory.BatchAt` | generate_orders.py:181-181 | the counter value after any number of records lies in 1..150 |
| `Inventory.WarehouseFor` | generate_orders.py:195-200 | product i of a split order over 2 or 3 warehouses goes to warehouse (i mod count) + 1 |
| `Inventory.SplitUsesEveryWarehouse` | generate_orders.py:190-200 | the three products of a split order use every one of its 2 or 3 warehouses |
| `Inventory.FirstDelivered` | generate_orders.py:208-214 | a found quantity is the delivered quantity of some line item for that order and product |
| `Inventory.Matches` | generate_orders.py:210-210 | a line item is the one for the order and product the substring test looks for (its use is stated by `Inventory.FirstDeliveredSpec`) |
| `Inventory.FirstDeliveredSpec` | generate_orders.py:209-214 | the lookup misses exactly when no line item matches the order and product, and otherwise reads the first matching line |
| `Inventory.FindDeliveredQuantity` | generate_orders.py:208-214 | the scan that stops at the first matching line returns what the lookup specifies |
| `Inventory.FirstOccurrence` | generate_orders.py:209-214 | the position found holds the same product and no earlier position does |
| `Inventory.SplitQuantity` | generate_orders.py:206-217 | a split product's quantity is the ordered quantity when the order has distinct products and no updates |
| `Inventory.LookupFindsSplitQuantity` | generate_orders.py:206-217 | the lookup in the recomputed line items never misses, so the fallback draw is never used |
| `Inventory.InventoryRecord` | generate_orders.py:189-238 | the record one inner-loop iteration builds for product i of an order (its properties are stated by `Inventory.InventoryRecordFacts`) |
| `Inventory.InventoryRecordFacts` | generate_orders.py:189-238 | every record names its order, product, batch id and delivery time and is prepared, in the quantity it records, by a storage staff member of its own warehouse; split records use the cycled warehouse and the line's delivered quantity; other records use the order's staff member and a fresh quantity 1..3 |
| `Inventory.NormalQuantityIsFresh` | generate_orders.py:229-231 | order 1 as the order stage builds it, ordering 3 of each product, can have a first record holding 1: a plain order's record quantity need not equal the ordered quantity |
| `Inventory.SplitRecord` | generate_orders.py:193-222 | the body for one product of a split order builds the specified record |
| `Inventory.SplitOrderRecords` | generate_orders.py:193-224 | a split order yields three specified records and advances the counter three steps |
| `Inventory.NormalOrderRecords` | generate_orders.py:225-238 | any other order yields three specified records and advances the counter three steps |
| `Inventory.OrderRecords` | generate_orders.py:189-238 | the body of the loop over orders yields the three specified records of the order and advances the counter three steps |
| `Inventory.InventoryRows` | generate_orders.py:179-240 | the reference sequence of a run's records: record j is record j mod 3 of order j / 3 with batch id (j mod 150) + 1 (its agreement with the loop is stated by `Inventory.GenerateOrderInventory`) |
| `Inventory.GenerateOrderInventory` | generate_orders.py:179-240 | exactly three records per order, record j being product j mod 3 of order j / 3 with batch id (j mod 150) + 1 |
| `Dataset.RowAgreement` | generate_orders.py:243-249 | a line item and a fulfilment record of the same order and product agree on order, product and times; split records carry the delivered quantity, other records the order's actor |
| `Dataset.TablesAgree` | generate_orders.py:243-249 | the three tables agree row by row |
| `Dataset.OrderLineTotal` | generate_orders.py:243-249 | an order without updates costs what its line items add up to |
| `Dataset.LineTotalsMatch` | generate_orders.py:243-249 | every order without updates costs what its three line items add up to |
| `Dataset.GenerateDataset` | generate_orders.py:243-249 | a run yields 500 orders, 1500 line items and 1500 fulfilment records that agree row by row, with line totals matching order costs for orders without updates |

## Left out

- `total_balance` (`total_cost * 1.16`, a float) is computed but not modelled; the tax percentage is kept as the integer 16.
- Calendar dates and `strftime` formatting: times are whole seconds, so the SQL text of a timestamp is not modelled.
- The SQL text of each row and the quoting of strings: rows are records of typed fields; the constant `NULL` columns of an order row (`customer_signature`, `prepared_by_id`) are omitted and `NULL` update columns are `None`.
- `main`'s progress messages and its writing of `customerorderdata.sql` (file I/O).
- `random`: every draw is a parameter constrained to its range; the distribution of the draws is not modelled.
- The lookup of a split product's quantity matches the text `"(order, product,"` at the head of a generated line; the model matches the order and product fields instead, which picks the same lines since `(` only opens a row.
- The order's `total_cost` is formatted with two decimals; the model keeps the integer it formats.
- `Inventory.InventoryRecord` selects the warehouse's staff member by its position in the roster (`WarehouseMember`); `Catalog.WarehouseMemberSpec` proves this is the member `random.choice` would take from the filtered list at the same index.
- The comment "Match quantity from description" on the plain-order branch does not describe the code, which draws a fresh quantity; the model follows the code.

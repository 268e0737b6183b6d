# Order placement: allocation of a cart against stock

This project models the order-placement step of a small shop backend. The step is
`placeOrder` in `server/controllers/orderedProductControllers.js`, with its helper
`calculateTotalAmount`.

Given a cart identity, the step first looks the cart up. It then walks the cart's
lines in order. For each line it:

- looks the product up;
- orders as much of the requested quantity as the stock covers, and lowers the stock
  by that amount;
- puts the rest on the waiting list, saving each waiting-list entry at once.

Order lines and waiting-list entries copy the product's name, description and price.
When every line is done, it saves one order whose total is the sum of price × quantity
over its lines, deletes the cart, and hands the new order's identity to the publisher.
It answers with the ordered lines and the waiting-list entries.

The database is modelled as in-memory state of the class `Orders.Shop`:

- a product table;
- a cart table;
- an append-only sequence of saved orders;
- an append-only waiting list;
- an outbox of the order identities handed to the publisher.

Requests are handled one at a time.

Modules:

- `Types` (types.dfy): the records.
- `Totals` (totals.dfy): the reference total `Sum` and the accumulator loop
  `CalculateTotalAmount`, proved to compute it.
- `Allocation` (allocation.dfy): the cart-line loop as a pure specification
  (`AllocateLine`, `AllocateFrom`, `Allocate`), with lemmas on conservation of
  requested units, non-negative stock, untouched products, snapshots, cart order and
  where a run stops.
- `Orders` (orders.dfy): the class `Shop`. Its method `PlaceOrder` runs the loop
  imperatively over the class's fields and is proved to end in the state that
  `Allocate` describes. `AllocateCartLine` is the loop body and `SaveOrder` the final
  save, removal and publication.

Prices, stock and quantities are integers. Prices are in minor currency units, so
totals are exact. Stock is not assumed non-negative: the catalogue endpoints store
whatever they are given. Non-negative stock is proved as a property that allocation
preserves.

There is no pass that checks every product before any stock is lowered. A missing
product (orderedProductControllers.js:51-53) stops the request after earlier lines
have already lowered stock (:68, :87) and saved waiting-list entries (:102). Nothing is
rolled back (`Allocation.AllocateStopsAtFirstMissing`, `Orders.Shop.PlaceOrder`).

Three behaviours of the code as written are kept:

- When the quantity is at most the stock, a quantity of 0 produces an order line of
  quantity 0, and a negative quantity raises the stock: both take the "stock covers the
  request" branch (:57-70).
- With negative stock and a quantity above it, the code waiting-lists more units than
  were requested: stock −3 and quantity 2 give no order line and a waiting-list entry
  of 5 (:73-74, :92-102). This is why the conservation lemmas
  (`Allocation.AllocateLineUnits`, `Allocation.AllocateConservesUnits`) require
  non-negative stock.
- In the "stock does not cover the request" branch, the waiting-list quantity is
  always positive, so its guard always holds.

Error outcomes are `CartNotFound` and `ProductNotFound`; the source answers both with
status 404. `InternalError` stands for the 500 answer to a failing database call; the
model never produces it.

## Model

| member | source | states |
|---|---|---|
| `Totals.CalculateTotalAmount` | server/controllers/orderedProductControllers.js:23-29 | the accumulator loop returns exactly `Sum` of price × quantity over the lines |
| `Totals.SumAppend` | server/controllers/orderedProductControllers.js:23-29 | the total of two concatenated line sequences is the sum of their totals |
| `Totals.SumFront` | server/controllers/orderedProductControllers.js:23-29 | the total is the first line's amount plus the total of the rest, so accumulating from the first line gives the same total as the definition |
| `Totals.SumNonNegative` | server/controllers/orderedProductControllers.js:23-29 | with non-negative prices and quantities the total is non-negative |
| `Totals.TwoLineTotal` | server/controllers/orderedProductControllers.js:23-29 | lines (2 at 100) and (1 at 50) total 250 |
| `Allocation.AllocateLine` | server/controllers/orderedProductControllers.js:55-104 | one cart line changes only the stock of its own product and leaves names, descriptions and prices alone; it appends at most one order line and at most one waiting-list entry, each for the line's product and each a snapshot of the product |
| `Allocation.AllocateLineUnits` | server/controllers/orderedProductControllers.js:57-103 | the line's product loses exactly the units ordered; with non-negative stock, ordered plus waiting-listed units equal the requested quantity, the stock stays non-negative, and a waiting-list entry means the stock reached 0; other products' units are unchanged |
| `Allocation.LineWithinStock` | server/controllers/orderedProductControllers.js:57-70 | quantity at most the stock: exactly one order line with the full quantity, no waiting-list entry, stock lowered by exactly the quantity |
| `Allocation.LineBeyondStock` | server/controllers/orderedProductControllers.js:71-103 | quantity above the stock: the whole stock is ordered, with an order line only when the stock is positive; the remainder (quantity − stock) goes to the waiting list; a non-negative stock ends at 0 |
| `Allocation.Snapshot` | server/controllers/orderedProductControllers.js:59-65 | builds the line item copied from a product (the same object literal at :78-84 and :94-100); no contract of its own, its copying is stated by `AllocateLine` and `AllocateSnapshots` |
| `Allocation.AllocateFrom` | server/controllers/orderedProductControllers.js:45-105 | the cart-line loop, with the early return on a missing product at :51-53; no contract of its own, its properties are the `Allocate*` lemmas |
| `Allocation.Allocate` | server/controllers/orderedProductControllers.js:41-45 | the loop started with empty order and waiting-list collections; no contract of its own, `Orders.Shop.PlaceOrder` is proved to end in the state it describes |
| `Allocation.FirstMissing` | server/controllers/orderedProductControllers.js:45-53 | the index of the first cart line whose product is unknown (every earlier product is known), or the number of lines |
| `Allocation.AllocateKeepsListings` | server/controllers/orderedProductControllers.js:45-105 | a run changes only stock, and only appends to the collected order lines and waiting-list entries |
| `Allocation.AllocateStopsAtFirstMissing` | server/controllers/orderedProductControllers.js:49-53 | the run completes if and only if every line's product exists; otherwise it stops at the first missing product, in the state of the completed run over the earlier lines (no rollback) |
| `Allocation.AllocateKeepsStockNonNegative` | server/controllers/orderedProductControllers.js:55-89 | non-negative stock before a run implies non-negative stock after it, whether it completes or stops |
| `Allocation.AllocateStockFollowsOrders` | server/controllers/orderedProductControllers.js:68-69 | each product's stock falls by exactly the units of it that were ordered during the run |
| `Allocation.AllocateConservesUnits` | server/controllers/orderedProductControllers.js:57-103 | over a completed run with non-negative stock, for every product, units ordered plus units waiting-listed equal units requested, and units ordered never exceed the stock there was |
| `Allocation.AllocateLeavesOthers` | server/controllers/orderedProductControllers.js:45-105 | a product no cart line names is left exactly as it was |
| `Allocation.AllocateSnapshots` | server/controllers/orderedProductControllers.js:59-65 | every collected order line and waiting-list entry carries its product's name, description and price as they were at allocation |
| `Allocation.AllocatePositive` | server/controllers/orderedProductControllers.js:76-92 | with positive requested quantities and non-negative stock, every collected order line and waiting-list entry has a positive quantity |
| `Allocation.AllocateFollowsCartOrder` | server/controllers/orderedProductControllers.js:45-101 | the products of the order lines, and of the waiting-list entries, appear in the same order as the cart lines that produced them |
| `Orders.Shop.PlaceOrder` | server/controllers/orderedProductControllers.js:32-126 | missing cart: `CartNotFound`, nothing changes. Missing product: `ProductNotFound`; stock and waiting list hold the effects of the earlier lines; no order saved, cart kept, nothing published. Success: the state is what `Allocate` describes, exactly one order with the allocated lines and their exact total is appended, the cart is removed, the order's identity is published once, and the answer carries the recorded lines and entries. Keeps `Valid()` |
| `Orders.Shop.AllocateCartLine` | server/controllers/orderedProductControllers.js:46-104 | one loop pass: reports whether the product exists (a missing one changes nothing); otherwise products and collected lines become `AllocateLine` of the previous ones, and the waiting list gains exactly the new entry |
| `Orders.Shop.SaveOrder` | server/controllers/orderedProductControllers.js:107-120 | appends one order whose identity is its position and whose total is `Sum` of its lines, removes the cart, publishes the identity; keeps `Valid()` (every order's total exact, every order published exactly once, in order) |

## Left out

- Database I/O and failures: the try/catch that answers 500 on a failing database
  call (orderedProductControllers.js:127-130) is not modelled. The `InternalError`
  outcome exists but is never produced.
- Concurrency: the code reads stock and then issues a separate increment, which is not
  atomic. The model handles one request at a time and does not claim freedom from lost
  updates between concurrent requests.
- Generated identities and timestamps: an order's identity is its position in the order
  sequence. Creation timestamps of orders and waiting-list entries are not modelled.
- Publication: `publishMessage` (awsController.js) fetches the order and sends it to a
  pub/sub topic. Here it is only the order identity appended to the outbox. The topic
  send, email rendering and sending, and the subscription handshake are not part of
  this model.
- `getOrderedProducts` and `setSocketIO` (orderedProductControllers.js:11-20) are a
  plain database read and a global socket handle; they are not modelled.
- Catalogue and cart CRUD (productControllers.js) and the server wiring (index.js) are
  not part of this model.
- Number representation: JavaScript numbers are floating point. The model uses
  unbounded integers, with prices in minor units.
- HTTP framing: the status codes and JSON bodies are represented by the `Result`
  value.

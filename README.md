# Bulk order fulfilment and inventory, modelled in Dafny

This project models the core of a small e-commerce backend: the product
service's inventory read side and stock adjustment, and the order service's
bulk order fulfilment over a product catalogue and an append-only order ledger.

- `inventory.dfy` (module `Inventory`): the pure helpers of the product service.
  `TotalValue` is the sum of price × stock. `LowStockItems` gives the names of the
  products whose stock is below a threshold; the default threshold is 10.
  `FormatProductData` is the flattened listing.
- `catalog.dfy` (module `Catalog`): the product table. It is a map from id to
  product, held in the class `ProductService` together with the table's row order
  `ids`. `GetProductById`, `GetAllProducts` and `GenerateInventoryReport` read it.
  `UpdateStock` writes to it, and is specified by the pure `AdjustStock`.
- `fulfilment.dfy` (module `Fulfilment`): what a bulk order does, as a pure
  function. `Step` handles one line item; `Run` and `Fulfil` handle a batch in
  input order. The lemmas prove the batch's properties.
- `orders.dfy` (module `Orders`): the order ledger (`OrderRepository`, a `seq<Order>`
  that only grows by appending) and `OrderService`. Its imperative loop
  `ProcessBulkOrders` is proved equal to `Fulfil`.

Each line item is fulfilled when its product exists and has at least the
requested stock at that point of the batch. A later item for the same product
sees the stock left by earlier ones. Otherwise the item is skipped and nothing
changes. Partial success is the intended behaviour.

The proved properties:
- stock never goes negative;
- the revenue is the sum of the summaries' totals, and each total is the
  catalogue price times the quantity;
- the summaries answer a subsequence of the request, in input order;
- the ledger grows by one order per summary, for the caller, and nothing earlier
  in the ledger changes;
- each product's stock drops by exactly the quantity fulfilled for it, and no
  id, name or price changes;
- a skipped item leaves the batch exactly as if it had not been asked for;
- inventory value plus revenue is conserved across a batch.

Prices are whole integers (for example cents). Quantities are unconstrained
integers, as in the code: nothing rejects a zero or negative quantity. A negative
quantity passes the stock check, raises the stock and brings in a negative total
(`NegativeQuantityRestocks`).

As the code does:
- The stock adjustment has no floor. Non-negativity comes only from the caller's
  stock check.
- The batch is not atomic: each line item succeeds or is skipped on its own.

## Model

| member | source | states |
|---|---|---|
| `Inventory.TotalValue` | services/product_service.py:25-26 | the inventory value of an empty product list is 0 |
| `Inventory.TotalValueAppend` | services/product_service.py:25-26 | the value of two lists put together is the sum of their values |
| `Inventory.TotalValueNonNegative` | services/product_service.py:25-26 | with no negative price or stock the value is non-negative |
| `Inventory.TotalValueReorder` | services/product_service.py:25-26 | two lists with the same products in any order have the same value |
| `Inventory.LowStockItems` | services/product_service.py:28-29 | at most one name is reported per product |
| `Inventory.LowStockItemsMembers` | services/product_service.py:28-29 | a name is reported iff some product of that name has stock below the threshold |
| `Inventory.LowStockItemsAppend` | services/product_service.py:28-29 | the report of a concatenation is the concatenation of the reports, so input order is kept |
| `Inventory.LowStockItemsAll` | services/product_service.py:28-29 | one name per product is reported iff every product is below the threshold |
| `Inventory.FormatProductData` | services/product_service.py:31-40 | one record per product, same order, with id, name, price and stock copied |
| `Inventory.FormatProductDataLossless` | services/product_service.py:31-40 | reading the records back gives exactly the product list |
| `Catalog.AdjustStock` | services/product_service.py:42-46 | an existing product's stock moves by the change with no floor; other products and all other fields stay the same; a missing id changes nothing; non-negative stock stays non-negative when the result is non-negative |
| `Catalog.AdjustStockHasNoFloor` | services/product_service.py:42-46 | taking 1 from a stock of 0 leaves -1 |
| `Catalog.ListingAdjust` | services/product_service.py:42-46 | adjusting a product's stock by d moves the catalogue's total value by its price times d |
| `Catalog.Listing` | services/product_service.py:7-8 | the rows of the catalogue in table row order: one per listed id, each the row stored under its id |
| `Catalog.ListsCount` | services/product_service.py:7-8 | a row order that lists each key once is as long as the catalogue |
| `Catalog.ProductService.GetProductById` | services/product_service.py:10-11 | a product is found iff the id is in the catalogue, and it is the row stored under that id |
| `Catalog.ProductService.GetAllProducts` | services/product_service.py:7-8 | every catalogue row is listed, only catalogue rows are listed, and the list is as long as the catalogue |
| `Catalog.ProductService.GenerateInventoryReport` | services/product_service.py:13-23 | total_products is the catalogue size; the other fields are the three helpers on the same listing, with threshold 10; nothing is changed |
| `Catalog.ProductService.UpdateStock` | services/product_service.py:42-46 | the new catalogue is AdjustStock of the old one, the row order is unchanged, and the catalogue invariant is kept |
| `Fulfilment.Step` | services/order_service.py:27-47 | one line item: an unknown product or too little stock leaves the batch unchanged; otherwise only that product's stock drops by the quantity, one order and one summary at the catalogue price are appended and the revenue grows by that total |
| `Fulfilment.Run` | services/order_service.py:26-47 | line items handled in input order keep the product ids, only extend the placed orders and the summaries, and add at most one summary, with one order, per item |
| `Fulfilment.Fulfil` | services/order_service.py:22-48 | a whole batch from an empty result keeps the product ids and gives one order per summary and at most one summary per line item |
| `Fulfilment.RunConcat` | services/order_service.py:26-47 | handling two lists of items one after the other is handling their concatenation |
| `Fulfilment.SkippedItemChangesNothing` | services/order_service.py:27-47 | an item with an unknown product or too little stock leaves the result as if it had not been requested, so later items are still handled |
| `Fulfilment.FulfilKeepsShape` | services/order_service.py:33 | a batch adds and removes no product and changes no id, name or price |
| `Fulfilment.RevenueIsSumOfTotals` | services/order_service.py:24-45 | the total revenue is the sum of the returned order totals |
| `Fulfilment.LineTotalsAtCataloguePrice` | services/order_service.py:35 | each returned total is the product's catalogue price times the quantity |
| `Fulfilment.LedgerMatchesProcessed` | services/order_service.py:38-45 | one Order per summary, in the same order, with the caller's user id and the summary's product and quantity |
| `Fulfilment.StockNeverNegative` | services/order_service.py:31-33 | a catalogue without negative stock has none after the batch |
| `Fulfilment.ProcessedIsSubsequence` | services/order_service.py:23-45 | the summaries answer a subsequence of the requested items, in input order, so there are at most as many as items |
| `Fulfilment.StockAccounting` | services/order_service.py:31-33 | each product's stock drops by exactly the sum of the quantities fulfilled for it |
| `Fulfilment.UntouchedStockKept` | services/order_service.py:33 | a product that no line item names keeps its row unchanged |
| `Fulfilment.StepConservesValue` | services/order_service.py:31-36 | one line item moves exactly its order total from the inventory value into the revenue |
| `Fulfilment.ValueConserved` | services/order_service.py:26-36 | inventory value after the batch plus revenue equals the inventory value before |
| `Fulfilment.NegativeQuantityRestocks` | services/order_service.py:31-36 | a quantity of -5 on an empty stock passes the check, raises the stock to 5 and yields a total of -50 |
| `Orders.OrdersOfUser` | services/order_service.py:19-20 | every order listed for a user is a ledger order of that user, and there are no more of them than ledger rows |
| `Orders.OrdersOfUserMembers` | services/order_service.py:19-20 | an order is listed for a user iff it is in the ledger with that user id |
| `Orders.OrdersOfUserAppend` | services/order_service.py:19-20 | listing a concatenated ledger lists each part, in ledger order |
| `Orders.BatchOutcome` | services/order_service.py:22-48 | for the whole batch: revenue is the sum of totals, at most one summary per item, one order per summary, stock stays non-negative, the caller's orders gain exactly the new orders, and value plus revenue is conserved |
| `Orders.OrderRepository.Add` | repositories/order_repository.py:7-8 | the ledger gains the order at its end and nothing else changes |
| `Orders.OrderRepository.GetByUserId` | repositories/order_repository.py:10-11 | the ledger filtered by user id, every matching row kept, repeats included, in ledger order; an order is returned iff it is in the ledger with that user id |
| `Orders.OrderService.GetOrdersByUser` | services/order_service.py:19-20 | the repository's ledger filtered by user id, every matching row kept in ledger order; an order is returned iff it is in the ledger with that user id |
| `Orders.OrderService.ProcessBulkOrders` | services/order_service.py:22-48 | the new catalogue, ledger, summaries and revenue are those of Fulfil on the old catalogue; revenue is the sum of totals; at most one summary per item; the ledger grows by one order per summary; stock stays non-negative; the caller's orders gain exactly the new orders; the report's total value drops by the revenue |
| `Orders.WorkedExample` | services/order_service.py:26-48 | price 10, stock 5, batch [3, 3]: only the first item is fulfilled, revenue 30, stock left 2 |

## Left out

- `OrderService.create_order` (services/order_service.py:8-17) is not modelled. It calls an undefined global `product_service.update_stock` with one argument, and it depends on `Product.is_in_stock`, whose code is not part of this model. It has no well-defined behaviour.
- `ProductService.update_product` (services/product_service.py:48-49) is a one-line delegation to the repository and is not modelled.
- The database and HTTP backends (database/), the repositories' delegation, configuration (config.py, database/factory.py), the web routes and sessions (app.py), users and password hashing (services/user_service.py) and the error decorator (decorators/error_handler.py) are I/O or framework glue. The product table and the order ledger stand for them as a map and a sequence.
- The write-back of a product row is taken to store the row, so the model describes the intended repository rather than either database backend as written. With the SQL backend the product repository's `update` call has no matching method (that backend names it `update_product`), so `update_stock` fails after changing the stock in memory. With the HTTP backend a product lookup returns a JSON dictionary, so reading `product.stock` in the bulk loop fails.
- The warnings logged for skipped line items are side effects with no bearing on state, and are not modelled.
- The order id that the database assigns on insert is not modelled; an Order holds user id, product id and quantity.
- The order in which the database returns all products is unspecified; the model fixes it as the row order `ids`.
- Prices are integers instead of floating point, so totals and values are exact.
- Malformed line items (a missing `product_id` or `quantity` key, which raises an error) are not modelled; a `LineItem` always has both fields.
- A product lookup is taken to give no product exactly when the id is absent. Python truthiness of a found product is assumed to be true.
- Concurrent requests, and the check-then-decrement race between them, are not modelled; the model is one sequential request.
- `Catalog.ProductService.UpdateStock`: its contract does not restate the change in total value; `Catalog.ListingAdjust` proves that for `AdjustStock`, which the contract names, so the bulk loop's proof stays small.

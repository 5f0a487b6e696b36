/**
 * What bulk order fulfilment does, as a function of the catalogue and the
 * requested line items: each line item, in input order, is either skipped
 * (unknown product, or not enough stock) or fulfilled (stock drops by the
 * quantity, an order is placed, a processed-order summary is emitted and its
 * total is added to the revenue).  The batch is not all-or-nothing.
 */
module Fulfilment {
  import opened Inventory
  import opened Catalog

  /** One requested line item of a bulk order. */
  datatype LineItem = LineItem(productId: int, quantity: int)

  /** A row of the order ledger. */
  datatype Order = Order(userId: int, productId: int, quantity: int)

  /** The summary returned for a fulfilled line item. */
  datatype ProcessedOrder = ProcessedOrder(productId: int, quantity: int, orderTotal: int)

  /**
   * The state of a batch in progress: the catalogue, the orders placed so
   * far, the summaries emitted so far and the revenue accumulated so far.
   */
  datatype Batch = Batch(
    products: map<int, Product>,
    placed: seq<Order>,
    processed: seq<ProcessedOrder>,
    revenue: int)

  /** The batch before its first line item. */
  function Start(products: map<int, Product>): Batch {
    Batch(products, [], [], 0)
  }

  /**
   * Handles one line item for the user `userId`: an unknown product or too
   * little stock leaves the batch as it is; otherwise the product's stock
   * drops by the quantity, one order and one summary are appended and the
   * revenue grows by the catalogue price times the quantity.
   */
  function Step(b: Batch, userId: int, item: LineItem): (r: Batch)
    ensures item.productId !in b.products ==> r == b
    ensures item.productId in b.products && b.products[item.productId].stock < item.quantity ==> r == b
    ensures item.productId in b.products && b.products[item.productId].stock >= item.quantity ==>
      var product := b.products[item.productId];
      && SameExceptStock(b.products, r.products)
      && (forall k :: k in b.products && k != product.id ==> r.products[k] == b.products[k])
      && (product.id in b.products ==> r.products[product.id].stock == b.products[product.id].stock - item.quantity)
      && r.placed == b.placed + [Order(userId, product.id, item.quantity)]
      && r.processed == b.processed + [ProcessedOrder(product.id, item.quantity, product.price * item.quantity)]
      && r.revenue == b.revenue + product.price * item.quantity
  {
    if item.productId !in b.products then b
    else
      var product := b.products[item.productId];
      if product.stock >= item.quantity then
        var orderTotal := product.price * item.quantity;
        Batch(AdjustStock(b.products, product.id, -item.quantity),
              b.placed + [Order(userId, product.id, item.quantity)],
              b.processed + [ProcessedOrder(product.id, item.quantity, orderTotal)],
              b.revenue + orderTotal)
      else b
  }

  /** Handles the line items one after another, in input order. */
  function Run(b: Batch, userId: int, items: seq<LineItem>): (r: Batch)
    ensures r.products.Keys == b.products.Keys
    ensures |b.placed| <= |r.placed| && r.placed[..|b.placed|] == b.placed
    ensures |b.processed| <= |r.processed| && r.processed[..|b.processed|] == b.processed
    ensures |r.placed| - |b.placed| == |r.processed| - |b.processed| <= |items|
    decreases |items|
  {
    if items == [] then b
    else Step(Run(b, userId, items[..|items| - 1]), userId, items[|items| - 1])
  }

  /** The whole batch, from the catalogue `products`. */
  function Fulfil(products: map<int, Product>, userId: int, items: seq<LineItem>): (r: Batch)
    ensures r.products.Keys == products.Keys
    ensures |r.placed| == |r.processed| <= |items|
  {
    Run(Start(products), userId, items)
  }

  /**
   * Nothing rejects a negative quantity: it passes the stock check, raises the
   * stock and brings in a negative total.
   */
  lemma NegativeQuantityRestocks()
    ensures var b := Fulfil(map[1 := Product(1, "widget", 10, 0)], 7, [LineItem(1, -5)]);
      && b.products[1].stock == 5
      && b.processed == [ProcessedOrder(1, -5, -50)]
      && b.revenue == -50
  {
    assert [LineItem(1, -5)][..0] == [];
  }

  /** The sum of the order totals. */
  function SumOfTotals(processed: seq<ProcessedOrder>): int {
    if processed == [] then 0
    else SumOfTotals(processed[..|processed| - 1]) + processed[|processed| - 1].orderTotal
  }

  /** The quantity of product `productId` over all summaries. */
  function QuantityOrdered(processed: seq<ProcessedOrder>, productId: int): int {
    if processed == [] then 0
    else
      var last := processed[|processed| - 1];
      QuantityOrdered(processed[..|processed| - 1], productId)
        + (if last.productId == productId then last.quantity else 0)
  }

  /** The line items that the summaries answer. */
  function Requested(processed: seq<ProcessedOrder>): (items: seq<LineItem>)
    ensures |items| == |processed|
  {
    if processed == [] then []
    else
      var last := processed[|processed| - 1];
      Requested(processed[..|processed| - 1]) + [LineItem(last.productId, last.quantity)]
  }

  /** `xs` is `ys` with some elements left out, the rest in their order. */
  ghost predicate IsSubsequence<T>(xs: seq<T>, ys: seq<T>)
    decreases |ys|
  {
    if xs == [] then true
    else if ys == [] then false
    else
      || (xs[|xs| - 1] == ys[|ys| - 1] && IsSubsequence(xs[..|xs| - 1], ys[..|ys| - 1]))
      || IsSubsequence(xs, ys[..|ys| - 1])
  }

  lemma {:induction false} SubsequenceLength<T>(xs: seq<T>, ys: seq<T>)
    requires IsSubsequence(xs, ys)
    ensures |xs| <= |ys|
    decreases |ys|
  {
    if xs != [] {
      if xs[|xs| - 1] == ys[|ys| - 1] && IsSubsequence(xs[..|xs| - 1], ys[..|ys| - 1]) {
        SubsequenceLength(xs[..|xs| - 1], ys[..|ys| - 1]);
      } else {
        SubsequenceLength(xs, ys[..|ys| - 1]);
      }
    }
  }

  /** A batch with at least one line item is the last step after the others. */
  lemma FulfilLast(products: map<int, Product>, userId: int, items: seq<LineItem>)
    requires items != []
    ensures Fulfil(products, userId, items)
         == Step(Fulfil(products, userId, items[..|items| - 1]), userId, items[|items| - 1])
  {
  }

  /** Handling `xs` and then `ys` is handling `xs + ys`. */
  lemma {:induction false} RunConcat(b: Batch, userId: int, xs: seq<LineItem>, ys: seq<LineItem>)
    ensures Run(b, userId, xs + ys) == Run(Run(b, userId, xs), userId, ys)
    decreases |ys|
  {
    if ys == [] {
      assert xs + ys == xs;
    } else {
      var zs := xs + ys;
      assert zs[..|zs| - 1] == xs + ys[..|ys| - 1];
      assert zs[|zs| - 1] == ys[|ys| - 1];
      RunConcat(b, userId, xs, ys[..|ys| - 1]);
    }
  }

  /**
   * A line item that is skipped (its product is unknown, or has too little
   * stock at that point of the batch) changes nothing: the batch ends exactly
   * as if the item had not been requested, so later items are still handled.
   */
  lemma SkippedItemChangesNothing(products: map<int, Product>, userId: int, items: seq<LineItem>, k: int)
    requires 0 <= k < |items|
    requires var before := Fulfil(products, userId, items[..k]).products;
      items[k].productId !in before || before[items[k].productId].stock < items[k].quantity
    ensures Fulfil(products, userId, items) == Fulfil(products, userId, items[..k] + items[k + 1..])
  {
    var start := Start(products);
    assert items == (items[..k] + [items[k]]) + items[k + 1..];
    RunConcat(start, userId, items[..k] + [items[k]], items[k + 1..]);
    RunConcat(start, userId, items[..k], [items[k]]);
    assert Run(Run(start, userId, items[..k]), userId, [items[k]]) == Run(start, userId, items[..k]) by {
      assert [items[k]][..0] == [];
    }
    RunConcat(start, userId, items[..k], items[k + 1..]);
  }

  /** SameExceptStock is transitive. */
  lemma SameExceptStockTrans(m1: map<int, Product>, m2: map<int, Product>, m3: map<int, Product>)
    requires SameExceptStock(m1, m2) && SameExceptStock(m2, m3)
    ensures SameExceptStock(m1, m3)
  {
  }

  /** A key list of a map lists every map with the same keys. */
  lemma ListsSameKeys(m: map<int, Product>, m': map<int, Product>, ids: seq<int>)
    requires Lists(m, ids) && m'.Keys == m.Keys
    ensures Lists(m', ids)
  {
  }

  /** A batch never adds or removes a product and never changes an id, a name or a price. */
  lemma {:induction false} FulfilKeepsShape(products: map<int, Product>, userId: int, items: seq<LineItem>)
    ensures SameExceptStock(products, Fulfil(products, userId, items).products)
    ensures WellKeyed(products) ==> WellKeyed(Fulfil(products, userId, items).products)
    decreases |items|
  {
    if items != [] {
      var before := Fulfil(products, userId, items[..|items| - 1]);
      FulfilKeepsShape(products, userId, items[..|items| - 1]);
      FulfilLast(products, userId, items);
      SameExceptStockTrans(products, before.products, Step(before, userId, items[|items| - 1]).products);
    }
  }

  lemma SumOfTotalsSnoc(processed: seq<ProcessedOrder>, p: ProcessedOrder)
    ensures SumOfTotals(processed + [p]) == SumOfTotals(processed) + p.orderTotal
  {
    assert (processed + [p])[..|processed|] == processed;
  }

  /** The revenue is the sum of the totals of the returned summaries. */
  lemma {:induction false} RevenueIsSumOfTotals(products: map<int, Product>, userId: int, items: seq<LineItem>)
    ensures var b := Fulfil(products, userId, items); b.revenue == SumOfTotals(b.processed)
    decreases |items|
  {
    if items != [] {
      var before := Fulfil(products, userId, items[..|items| - 1]);
      RevenueIsSumOfTotals(products, userId, items[..|items| - 1]);
      FulfilLast(products, userId, items);
      var item := items[|items| - 1];
      if item.productId in before.products {
        var product := before.products[item.productId];
        SumOfTotalsSnoc(before.processed, ProcessedOrder(product.id, item.quantity, product.price * item.quantity));
      }
    }
  }

  /** One order is placed per summary, for the batch's user, with the summary's product and quantity. */
  ghost predicate PlacedMatchesProcessed(b: Batch, userId: int) {
    && |b.placed| == |b.processed|
    && forall i :: 0 <= i < |b.placed| ==>
         b.placed[i] == Order(userId, b.processed[i].productId, b.processed[i].quantity)
  }

  lemma {:induction false} LedgerMatchesProcessed(products: map<int, Product>, userId: int, items: seq<LineItem>)
    ensures PlacedMatchesProcessed(Fulfil(products, userId, items), userId)
    decreases |items|
  {
    if items != [] {
      LedgerMatchesProcessed(products, userId, items[..|items| - 1]);
      FulfilLast(products, userId, items);
    }
  }

  /** Starting from a catalogue without negative stock, no stock ever goes negative. */
  lemma {:induction false} StockNeverNegative(products: map<int, Product>, userId: int, items: seq<LineItem>)
    requires WellKeyed(products) && StocksNonNegative(products)
    ensures StocksNonNegative(Fulfil(products, userId, items).products)
    decreases |items|
  {
    if items != [] {
      StockNeverNegative(products, userId, items[..|items| - 1]);
      FulfilKeepsShape(products, userId, items[..|items| - 1]);
      FulfilLast(products, userId, items);
    }
  }

  /** Prices never change, so each fulfilled total is the catalogue price times the quantity. */
  ghost predicate TotalsAtPrice(processed: seq<ProcessedOrder>, products: map<int, Product>) {
    forall i :: 0 <= i < |processed| ==>
      processed[i].productId in products
      && processed[i].orderTotal == products[processed[i].productId].price * processed[i].quantity
  }

  lemma {:induction false} LineTotalsAtCataloguePrice(products: map<int, Product>, userId: int, items: seq<LineItem>)
    requires WellKeyed(products)
    ensures TotalsAtPrice(Fulfil(products, userId, items).processed, products)
    decreases |items|
  {
    if items != [] {
      var before := Fulfil(products, userId, items[..|items| - 1]);
      LineTotalsAtCataloguePrice(products, userId, items[..|items| - 1]);
      FulfilKeepsShape(products, userId, items[..|items| - 1]);
      FulfilLast(products, userId, items);
    }
  }

  lemma SubsequenceSnoc<T>(xs: seq<T>, ys: seq<T>, y: T)
    requires IsSubsequence(xs, ys)
    ensures IsSubsequence(xs, ys + [y]) && IsSubsequence(xs + [y], ys + [y])
  {
    assert (ys + [y])[..|ys|] == ys;
    assert (xs + [y])[..|xs|] == xs;
  }

  /** The summaries answer a subsequence of the requested line items, in input order. */
  lemma {:induction false} ProcessedIsSubsequence(products: map<int, Product>, userId: int, items: seq<LineItem>)
    requires WellKeyed(products)
    ensures IsSubsequence(Requested(Fulfil(products, userId, items).processed), items)
    ensures |Fulfil(products, userId, items).processed| <= |items|
    decreases |items|
  {
    var b := Fulfil(products, userId, items);
    if items != [] {
      var init, item := items[..|items| - 1], items[|items| - 1];
      var before := Fulfil(products, userId, init);
      ProcessedIsSubsequence(products, userId, init);
      FulfilKeepsShape(products, userId, init);
      FulfilLast(products, userId, items);
      assert items == init + [item];
      SubsequenceSnoc(Requested(before.processed), init, item);
    }
    SubsequenceLength(Requested(b.processed), items);
  }

  /** Each stock has dropped by exactly the quantity fulfilled for that product. */
  ghost predicate StockAccounted(before: map<int, Product>, after: map<int, Product>, processed: seq<ProcessedOrder>) {
    forall k :: k in before && k in after ==>
      after[k].stock == before[k].stock - QuantityOrdered(processed, k)
  }

  lemma QuantityOrderedSnoc(processed: seq<ProcessedOrder>, p: ProcessedOrder, k: int)
    ensures QuantityOrdered(processed + [p], k)
         == QuantityOrdered(processed, k) + (if p.productId == k then p.quantity else 0)
  {
    assert (processed + [p])[..|processed|] == processed;
  }

  lemma {:induction false} StockAccounting(products: map<int, Product>, userId: int, items: seq<LineItem>)
    requires WellKeyed(products)
    ensures var b := Fulfil(products, userId, items);
      b.products.Keys == products.Keys && StockAccounted(products, b.products, b.processed)
    decreases |items|
  {
    FulfilKeepsShape(products, userId, items);
    if items != [] {
      var init, item := items[..|items| - 1], items[|items| - 1];
      var before := Fulfil(products, userId, init);
      StockAccounting(products, userId, init);
      FulfilKeepsShape(products, userId, init);
      FulfilLast(products, userId, items);
      if item.productId in before.products && before.products[item.productId].stock >= item.quantity {
        var product := before.products[item.productId];
        var p := ProcessedOrder(product.id, item.quantity, product.price * item.quantity);
        forall k | k in products
          ensures QuantityOrdered(before.processed + [p], k)
               == QuantityOrdered(before.processed, k) + (if p.productId == k then p.quantity else 0)
        {
          QuantityOrderedSnoc(before.processed, p, k);
        }
      }
    }
  }

  /** A product no fulfilled line item names keeps its stock. */
  lemma UntouchedStockKept(products: map<int, Product>, userId: int, items: seq<LineItem>, k: int)
    requires WellKeyed(products) && k in products
    requires forall i :: 0 <= i < |items| ==> items[i].productId != k
    ensures k in Fulfil(products, userId, items).products
    ensures Fulfil(products, userId, items).products[k] == products[k]
  {
    var b := Fulfil(products, userId, items);
    StockAccounting(products, userId, items);
    ProcessedIsSubsequence(products, userId, items);
    FulfilKeepsShape(products, userId, items);
    QuantityOrderedAbsent(b.processed, items, k);
  }

  /** No summary of a product that no line item names. */
  lemma {:induction false} QuantityOrderedAbsent(processed: seq<ProcessedOrder>, items: seq<LineItem>, k: int)
    requires IsSubsequence(Requested(processed), items)
    requires forall i :: 0 <= i < |items| ==> items[i].productId != k
    ensures QuantityOrdered(processed, k) == 0
    decreases |items|
  {
    if processed != [] {
      var xs := Requested(processed);
      var init := processed[..|processed| - 1];
      assert xs[..|xs| - 1] == Requested(init);
      if xs[|xs| - 1] == items[|items| - 1] && IsSubsequence(xs[..|xs| - 1], items[..|items| - 1]) {
        QuantityOrderedAbsent(init, items[..|items| - 1], k);
      } else {
        QuantityOrderedAbsentSkip(processed, items, k);
      }
    }
  }

  lemma {:induction false} QuantityOrderedAbsentSkip(processed: seq<ProcessedOrder>, items: seq<LineItem>, k: int)
    requires processed != [] && items != []
    requires IsSubsequence(Requested(processed), items[..|items| - 1])
    requires forall i :: 0 <= i < |items| ==> items[i].productId != k
    ensures QuantityOrdered(processed, k) == 0
    decreases |items|, 0
  {
    QuantityOrderedAbsent(processed, items[..|items| - 1], k);
  }

  lemma PriceTimesNegation(price: int, quantity: int)
    ensures price * -quantity == -(price * quantity)
  {
  }

  /** One line item moves its order total, if any, from the stock on hand into the revenue. */
  lemma StepConservesValue(b: Batch, ids: seq<int>, userId: int, item: LineItem)
    requires WellKeyed(b.products) && Lists(b.products, ids)
    ensures var b' := Step(b, userId, item);
      Lists(b'.products, ids)
      && TotalValue(Listing(b'.products, ids)) + b'.revenue == TotalValue(Listing(b.products, ids)) + b.revenue
  {
    if item.productId in b.products && b.products[item.productId].stock >= item.quantity {
      var product := b.products[item.productId];
      ListingAdjust(b.products, ids, product.id, -item.quantity);
      PriceTimesNegation(product.price, item.quantity);
      ListsSameKeys(b.products, Step(b, userId, item).products, ids);
    }
  }

  /**
   * Inventory value plus revenue is conserved: every fulfilled line item moves
   * exactly its order total from the stock on hand into the revenue.
   */
  lemma {:induction false} ValueConserved(products: map<int, Product>, ids: seq<int>, userId: int, items: seq<LineItem>)
    requires WellKeyed(products) && Lists(products, ids)
    ensures var b := Fulfil(products, userId, items);
      Lists(b.products, ids)
      && TotalValue(Listing(b.products, ids)) + b.revenue == TotalValue(Listing(products, ids))
    decreases |items|
  {
    if items != [] {
      var init := items[..|items| - 1];
      ValueConserved(products, ids, userId, init);
      FulfilKeepsShape(products, userId, init);
      FulfilLast(products, userId, items);
      StepConservesValue(Fulfil(products, userId, init), ids, userId, items[|items| - 1]);
    }
  }
}

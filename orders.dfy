/**
 * The order side: the append-only order ledger behind the order repository,
 * and the order service whose bulk operation fulfils a batch of line items
 * against the product service.
 */
module Orders {
  import opened Inventory
  import opened Catalog
  import opened Fulfilment

  /** The orders of the ledger that belong to `userId`, in ledger order. */
  function OrdersOfUser(ledger: seq<Order>, userId: int): (mine: seq<Order>)
    ensures |mine| <= |ledger|
    ensures forall i :: 0 <= i < |mine| ==> mine[i].userId == userId && mine[i] in ledger
  {
    if ledger == [] then []
    else
      var last := ledger[|ledger| - 1];
      OrdersOfUser(ledger[..|ledger| - 1], userId) + (if last.userId == userId then [last] else [])
  }

  /** An order is listed for a user exactly when it is in the ledger and is that user's. */
  lemma {:induction false} OrdersOfUserMembers(ledger: seq<Order>, userId: int, o: Order)
    ensures o in OrdersOfUser(ledger, userId) <==> o in ledger && o.userId == userId
  {
    if ledger != [] {
      var init := ledger[..|ledger| - 1];
      OrdersOfUserMembers(init, userId, o);
      assert ledger == init + [ledger[|ledger| - 1]];
    }
  }

  /** Listing a concatenation lists each part: ledger order is kept. */
  lemma {:induction false} OrdersOfUserAppend(a: seq<Order>, b: seq<Order>, userId: int)
    ensures OrdersOfUser(a + b, userId) == OrdersOfUser(a, userId) + OrdersOfUser(b, userId)
    decreases |b|
  {
    if b == [] {
      assert a + b == a;
    } else {
      var init := b[..|b| - 1];
      assert (a + b)[..|a + b| - 1] == a + init;
      assert (a + b)[|a + b| - 1] == b[|b| - 1];
      OrdersOfUserAppend(a, init, userId);
    }
  }

  /** A ledger whose orders all belong to `userId` is listed whole for that user. */
  lemma {:induction false} OrdersOfUserAll(ledger: seq<Order>, userId: int)
    requires forall i :: 0 <= i < |ledger| ==> ledger[i].userId == userId
    ensures OrdersOfUser(ledger, userId) == ledger
  {
    if ledger != [] {
      OrdersOfUserAll(ledger[..|ledger| - 1], userId);
    }
  }

  /** What the caller of a bulk order can rely on, gathered from the lemmas about Fulfil. */
  lemma BatchOutcome(products: map<int, Product>, ids: seq<int>, ledger: seq<Order>, userId: int, items: seq<LineItem>)
    requires WellKeyed(products) && Lists(products, ids)
    ensures var b := Fulfil(products, userId, items);
      && b.revenue == SumOfTotals(b.processed)
      && |b.processed| <= |items|
      && |ledger + b.placed| == |ledger| + |b.processed|
      && (StocksNonNegative(products) ==> StocksNonNegative(b.products))
      && OrdersOfUser(ledger + b.placed, userId) == OrdersOfUser(ledger, userId) + b.placed
      && Lists(b.products, ids)
      && TotalValue(Listing(b.products, ids)) + b.revenue == TotalValue(Listing(products, ids))
  {
    var b := Fulfil(products, userId, items);
    RevenueIsSumOfTotals(products, userId, items);
    ProcessedIsSubsequence(products, userId, items);
    LedgerMatchesProcessed(products, userId, items);
    if StocksNonNegative(products) {
      StockNeverNegative(products, userId, items);
    }
    ValueConserved(products, ids, userId, items);
    OrdersOfUserAppend(ledger, b.placed, userId);
    OrdersOfUserAll(b.placed, userId);
  }

  /** The order repository: an append-only ledger. */
  class OrderRepository {
    var orders: seq<Order>

    constructor (orders: seq<Order>)
      ensures this.orders == orders
    {
      this.orders := orders;
    }

    method Add(order: Order)
      modifies this
      ensures orders == old(orders) + [order]
    {
      orders := orders + [order];
    }

    function GetByUserId(userId: int): (mine: seq<Order>)
      reads this
      ensures mine == OrdersOfUser(orders, userId)
      ensures |mine| <= |orders|
      ensures forall o :: o in mine <==> o in orders && o.userId == userId
    {
      forall o ensures o in OrdersOfUser(orders, userId) <==> o in orders && o.userId == userId {
        OrdersOfUserMembers(orders, userId, o);
      }
      OrdersOfUser(orders, userId)
    }
  }

  /** The order service, over an order repository and a product service. */
  class OrderService {
    const orderRepository: OrderRepository
    const productService: ProductService

    constructor (orderRepository: OrderRepository, productService: ProductService)
      ensures this.orderRepository == orderRepository && this.productService == productService
    {
      this.orderRepository := orderRepository;
      this.productService := productService;
    }

    /** The orders placed by `userId`, in ledger order. */
    function GetOrdersByUser(userId: int): (mine: seq<Order>)
      reads orderRepository
      ensures mine == OrdersOfUser(orderRepository.orders, userId)
      ensures forall o :: o in mine <==> o in orderRepository.orders && o.userId == userId
    {
      orderRepository.GetByUserId(userId)
    }

    /**
     * Fulfils the line items `orders` for `userId`, one after another in
     * input order, and returns the summaries of the fulfilled items with the
     * revenue they bring in.  Items whose product is unknown, or whose
     * product has less stock than requested at that point, are skipped.
     */
    method ProcessBulkOrders(userId: int, orders: seq<LineItem>)
      returns (processedOrders: seq<ProcessedOrder>, totalRevenue: int)
      requires productService.Valid()
      modifies productService, orderRepository
      ensures productService.Valid() && productService.ids == old(productService.ids)
      ensures var b := Fulfil(old(productService.products), userId, orders);
        && productService.products == b.products
        && orderRepository.orders == old(orderRepository.orders) + b.placed
        && processedOrders == b.processed
        && totalRevenue == b.revenue
      ensures totalRevenue == SumOfTotals(processedOrders)
      ensures |processedOrders| <= |orders|
      ensures |orderRepository.orders| == old(|orderRepository.orders|) + |processedOrders|
      ensures StocksNonNegative(old(productService.products)) ==> StocksNonNegative(productService.products)
      ensures GetOrdersByUser(userId) == old(GetOrdersByUser(userId)) + Fulfil(old(productService.products), userId, orders).placed
      ensures productService.GenerateInventoryReport().totalValue + totalRevenue
           == old(productService.GenerateInventoryReport().totalValue)
    {
      processedOrders, totalRevenue := [], 0;
      for i := 0 to |orders|
        invariant productService.Valid() && productService.ids == old(productService.ids)
        invariant var b := Fulfil(old(productService.products), userId, orders[..i]);
          && productService.products == b.products
          && orderRepository.orders == old(orderRepository.orders) + b.placed
          && processedOrders == b.processed
          && totalRevenue == b.revenue
      {
        assert orders[..i + 1][..i] == orders[..i];
        FulfilLast(old(productService.products), userId, orders[..i + 1]);
        var item := orders[i];
        var product := productService.GetProductById(item.productId);
        if product.None? {
          continue;
        }
        var p := product.value;
        if p.stock >= item.quantity {
          productService.UpdateStock(p.id, -item.quantity);
          var orderTotal := p.price * item.quantity;
          totalRevenue := totalRevenue + orderTotal;
          orderRepository.Add(Order(userId, p.id, item.quantity));
          processedOrders := processedOrders + [ProcessedOrder(p.id, item.quantity, orderTotal)];
        }
      }
      assert orders[..|orders|] == orders;
      BatchOutcome(old(productService.products), old(productService.ids), old(orderRepository.orders), userId, orders);
    }
  }

  /**
   * One product priced 10 with 5 in stock, and a batch asking twice for 3 of
   * it: the first request is fulfilled (stock 2, revenue 30), the second is
   * skipped for want of stock.
   */
  method WorkedExample() returns (processedOrders: seq<ProcessedOrder>, totalRevenue: int, stockLeft: int)
    ensures processedOrders == [ProcessedOrder(1, 3, 30)]
    ensures totalRevenue == 30
    ensures stockLeft == 2
  {
    var ledger := new OrderRepository([]);
    var catalogue := map[1 := Product(1, "widget", 10, 5)];
    assert Lists(catalogue, [1]);
    var products := new ProductService(catalogue, [1]);
    var service := new OrderService(ledger, products);
    var items := [LineItem(1, 3), LineItem(1, 3)];
    assert items[..1] == [LineItem(1, 3)];
    assert [LineItem(1, 3)][..0] == [];
    processedOrders, totalRevenue := service.ProcessBulkOrders(7, items);
    stockLeft := products.products[1].stock;
  }
}

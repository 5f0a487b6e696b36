/**
 * The product catalogue behind the product service: the product table as a
 * map from id to product, plus the order in which the table lists its rows.
 * Reads go through GetProductById and GetAllProducts; the only write is the
 * stock adjustment UpdateStock.
 */
module Catalog {
  import opened Inventory

  datatype Option<T> = None | Some(value: T)

  /** Every row is stored under its own id (the table's primary key). */
  ghost predicate WellKeyed(m: map<int, Product>) {
    forall k :: k in m ==> m[k].id == k
  }

  ghost predicate Distinct(ids: seq<int>) {
    forall i, j :: 0 <= i < j < |ids| ==> ids[i] != ids[j]
  }

  /** `ids` lists every key of `m` exactly once. */
  ghost predicate Lists(m: map<int, Product>, ids: seq<int>) {
    && Distinct(ids)
    && (forall i :: 0 <= i < |ids| ==> ids[i] in m)
    && (forall k :: k in m ==> k in ids)
  }

  ghost predicate StocksNonNegative(m: map<int, Product>) {
    forall k :: k in m ==> m[k].stock >= 0
  }

  ghost predicate PricesNonNegative(m: map<int, Product>) {
    forall k :: k in m ==> m[k].price >= 0
  }

  /** `m'` has the same keys as `m` and differs from it at most in stock. */
  ghost predicate SameExceptStock(m: map<int, Product>, m': map<int, Product>) {
    && m'.Keys == m.Keys
    && forall k :: k in m ==> m'[k].id == m[k].id && m'[k].name == m[k].name && m'[k].price == m[k].price
  }

  /**
   * The effect of a stock adjustment on the table: the stock of an existing
   * product moves by `delta` (with no lower bound), a missing id changes nothing.
   */
  function AdjustStock(m: map<int, Product>, id: int, delta: int): (m': map<int, Product>)
    ensures SameExceptStock(m, m')
    ensures forall k :: k in m && k != id ==> m'[k] == m[k]
    ensures id in m ==> m'[id].stock == m[id].stock + delta
    ensures id !in m ==> m' == m
    ensures WellKeyed(m) ==> WellKeyed(m')
    ensures StocksNonNegative(m) && (id in m ==> m[id].stock + delta >= 0) ==> StocksNonNegative(m')
  {
    if id in m then m[id := m[id].(stock := m[id].stock + delta)] else m
  }

  /** The adjustment alone has no floor: taking 1 from an empty stock leaves -1. */
  lemma AdjustStockHasNoFloor()
    ensures AdjustStock(map[1 := Product(1, "widget", 10, 0)], 1, -1)[1].stock == -1
  {
  }

  /** The rows of `m` in the order `ids` gives. */
  function Listing(m: map<int, Product>, ids: seq<int>): (products: seq<Product>)
    requires forall i :: 0 <= i < |ids| ==> ids[i] in m
    ensures |products| == |ids|
    ensures forall i :: 0 <= i < |ids| ==> products[i] == m[ids[i]]
  {
    if ids == [] then [] else [m[ids[0]]] + Listing(m, ids[1..])
  }

  /** A list of distinct keys covering the map is as long as the map is large. */
  lemma {:induction false} ListsCount(m: map<int, Product>, ids: seq<int>)
    requires Lists(m, ids)
    ensures |m| == |ids|
  {
    if ids == [] {
      assert forall k :: k !in m.Keys;
    } else {
      var k := ids[0];
      var rest := m - {k};
      forall i | 0 <= i < |ids[1..]| ensures ids[1..][i] in rest {
        assert ids[1..][i] == ids[i + 1] != ids[0];
      }
      forall k' | k' in rest ensures k' in ids[1..] {
        var i :| 0 <= i < |ids| && ids[i] == k';
        assert i != 0;
        assert ids[1..][i - 1] == k';
      }
      ListsCount(rest, ids[1..]);
      assert m.Keys == rest.Keys + {k};
    }
  }

  /** A listing of distinct keys covering a well-keyed map shows each row, and only rows. */
  lemma {:induction false} ListingMembers(m: map<int, Product>, ids: seq<int>)
    requires WellKeyed(m) && Lists(m, ids)
    ensures var products := Listing(m, ids);
      && (forall i :: 0 <= i < |products| ==> products[i].id in m && m[products[i].id] == products[i])
      && (forall k :: k in m ==> m[k] in products)
  {
    var products := Listing(m, ids);
    forall k | k in m ensures m[k] in products {
      var i :| 0 <= i < |ids| && ids[i] == k;
      assert products[i] == m[k];
    }
  }

  lemma {:induction false} DistinctTail(ids: seq<int>)
    requires Distinct(ids) && ids != []
    ensures Distinct(ids[1..]) && ids[0] !in ids[1..]
  {
    var tail := ids[1..];
    assert forall i :: 0 <= i < |tail| ==> tail[i] == ids[i + 1];
  }

  /** The listing of a catalogue whose prices and stocks are non-negative. */
  lemma {:induction false} ListingNonNegative(m: map<int, Product>, ids: seq<int>)
    requires forall i :: 0 <= i < |ids| ==> ids[i] in m
    ensures StocksNonNegative(m) && PricesNonNegative(m) ==> AllNonNegative(Listing(m, ids))
  {
    var products := Listing(m, ids);
    if StocksNonNegative(m) && PricesNonNegative(m) {
      forall i | 0 <= i < |products| ensures products[i].price >= 0 && products[i].stock >= 0 {
        var k := ids[i];
        assert StocksNonNegative(m) && PricesNonNegative(m);
        assert products[i] == m[k];
      }
    }
  }

  lemma StockValueShift(price: int, stock: int, delta: int)
    ensures price * (stock + delta) == price * stock + price * delta
  {
  }

  /** Adjusting one product's stock moves the listed value by its price times the change. */
  lemma {:induction false} ListingAdjust(m: map<int, Product>, ids: seq<int>, id: int, delta: int)
    requires forall i :: 0 <= i < |ids| ==> ids[i] in m
    requires Distinct(ids)
    ensures TotalValue(Listing(AdjustStock(m, id, delta), ids))
         == TotalValue(Listing(m, ids)) + (if id in ids then m[id].price * delta else 0)
  {
    if ids != [] {
      var m' := AdjustStock(m, id, delta);
      var k := ids[0];
      var before, after := Listing(m, ids), Listing(m', ids);
      DistinctTail(ids);
      ListingAdjust(m, ids[1..], id, delta);
      assert before[1..] == Listing(m, ids[1..]);
      assert after[1..] == Listing(m', ids[1..]);
      if k == id {
        StockValueShift(m[k].price, m[k].stock, delta);
      } else {
        assert id in ids <==> id in ids[1..];
      }
    }
  }

  /** The product service over the catalogue. */
  class ProductService {
    /** The product table, by id. */
    var products: map<int, Product>
    /** The order in which the table lists its rows. */
    var ids: seq<int>

    ghost predicate Valid()
      reads this
    {
      WellKeyed(products) && Lists(products, ids)
    }

    constructor (products: map<int, Product>, ids: seq<int>)
      requires WellKeyed(products) && Lists(products, ids)
      ensures Valid() && this.products == products && this.ids == ids
    {
      this.products := products;
      this.ids := ids;
    }

    /** The product stored under `productId`, if any. */
    function GetProductById(productId: int): (product: Option<Product>)
      reads this
      requires Valid()
      ensures product.Some? <==> productId in products
      ensures product.Some? ==> product.value.id == productId && product.value == products[productId]
    {
      if productId in products then Some(products[productId]) else None
    }

    /** Every product of the catalogue, once each, in table order. */
    function GetAllProducts(): (all: seq<Product>)
      reads this
      requires Valid()
      ensures |all| == |products|
      ensures forall i :: 0 <= i < |all| ==> all[i].id in products && products[all[i].id] == all[i]
      ensures forall k :: k in products ==> products[k] in all
    {
      ListsCount(products, ids);
      ListingMembers(products, ids);
      Listing(products, ids)
    }

    /** The inventory report, computed afresh from the current catalogue. */
    function GenerateInventoryReport(): (report: InventoryReport)
      reads this
      requires Valid()
      ensures report.totalProducts == |products| == |report.products|
      ensures report.totalValue == TotalValue(GetAllProducts())
      ensures report.lowStockItems == LowStockItems(GetAllProducts(), DefaultLowStockThreshold)
      ensures report.products == FormatProductData(GetAllProducts())
      ensures |report.lowStockItems| <= report.totalProducts
      ensures StocksNonNegative(products) && PricesNonNegative(products) ==> report.totalValue >= 0
    {
      var all := GetAllProducts();
      ListingNonNegative(products, ids);
      TotalValueNonNegative(all);
      InventoryReport(|all|, TotalValue(all), LowStockItems(all), FormatProductData(all))
    }

    /**
     * Adds `quantityChange` to the stock of the product `productId` and
     * writes the row back; does nothing when there is no such product.
     * There is no check that the stock stays non-negative: that is the caller's job.
     */
    method UpdateStock(productId: int, quantityChange: int)
      requires Valid()
      modifies this
      ensures Valid() && ids == old(ids)
      ensures products == AdjustStock(old(products), productId, quantityChange)
    {
      var product := GetProductById(productId);
      if product.Some? {
        var p := product.value;
        p := p.(stock := p.stock + quantityChange);
        products := products[p.id := p];
      }
    }
  }
}

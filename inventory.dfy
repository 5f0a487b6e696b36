/**
 * The read side of the product service: pure functions over a list of
 * products, as returned by the product repository.  Prices are whole minor
 * currency units (cents), so every amount is an exact integer.
 */
module Inventory {

  /** One row of the product table. */
  datatype Product = Product(id: int, name: string, price: int, stock: int)

  /** The flattened dictionary emitted for one product by the listing. */
  datatype ProductRecord = ProductRecord(id: int, name: string, price: int, stock: int)

  /** The inventory report: product count, stock value, low-stock names, listing. */
  datatype InventoryReport = InventoryReport(
    totalProducts: nat,
    totalValue: int,
    lowStockItems: seq<string>,
    products: seq<ProductRecord>)

  /** The threshold used when the caller gives none. */
  const DefaultLowStockThreshold: int := 10

  /** No product in the list has a negative price or a negative stock. */
  ghost predicate AllNonNegative(products: seq<Product>) {
    forall i :: 0 <= i < |products| ==> products[i].price >= 0 && products[i].stock >= 0
  }

  /** The value of the stock on hand: the sum of price times stock. */
  function TotalValue(products: seq<Product>): (value: int)
    ensures products == [] ==> value == 0
  {
    if products == [] then 0
    else products[0].price * products[0].stock + TotalValue(products[1..])
  }

  /** With no negative price or stock the value cannot be negative. */
  lemma {:induction false} TotalValueNonNegative(products: seq<Product>)
    ensures AllNonNegative(products) ==> TotalValue(products) >= 0
  {
    if products != [] && AllNonNegative(products) {
      var tail := products[1..];
      assert forall i :: 0 <= i < |tail| ==> tail[i] == products[i + 1];
      TotalValueNonNegative(tail);
    }
  }

  lemma {:induction false} TotalValueAppend(a: seq<Product>, b: seq<Product>)
    ensures TotalValue(a + b) == TotalValue(a) + TotalValue(b)
  {
    if a != [] {
      assert (a + b)[1..] == a[1..] + b;
      TotalValueAppend(a[1..], b);
    } else {
      assert a + b == b;
    }
  }

  /** Taking one row out of a list takes its price times stock out of the value. */
  lemma {:induction false} TotalValueRemove(b: seq<Product>, j: int)
    requires 0 <= j < |b|
    ensures TotalValue(b) == b[j].price * b[j].stock + TotalValue(b[..j] + b[j + 1..])
  {
    assert b == b[..j] + ([b[j]] + b[j + 1..]);
    TotalValueAppend(b[..j], [b[j]] + b[j + 1..]);
    TotalValueAppend([b[j]], b[j + 1..]);
    TotalValueAppend(b[..j], b[j + 1..]);
  }

  lemma ElementIndex<T>(x: T, b: seq<T>) returns (j: int)
    requires x in multiset(b)
    ensures 0 <= j < |b| && b[j] == x
  {
    assert x in b;
    j :| 0 <= j < |b| && b[j] == x;
  }

  lemma MultisetDropAt<T>(b: seq<T>, j: int)
    requires 0 <= j < |b|
    ensures multiset(b[..j] + b[j + 1..]) == multiset(b) - multiset{b[j]}
  {
    assert b == b[..j] + [b[j]] + b[j + 1..];
  }

  lemma MultisetDropFirst<T>(a: seq<T>)
    requires a != []
    ensures multiset(a[1..]) == multiset(a) - multiset{a[0]}
  {
    assert a == [a[0]] + a[1..];
  }

  /** The first element of `a` sits somewhere in a list `b` with the same elements. */
  lemma MatchFirst<T>(a: seq<T>, b: seq<T>) returns (j: int)
    requires multiset(a) == multiset(b) && a != []
    ensures 0 <= j < |b| && b[j] == a[0]
    ensures multiset(a[1..]) == multiset(b[..j] + b[j + 1..])
  {
    j := ElementIndex(a[0], b);
    MultisetDropFirst(a);
    MultisetDropAt(b, j);
  }

  /** The value does not depend on the order in which the rows are listed. */
  lemma {:induction false} TotalValueReorder(a: seq<Product>, b: seq<Product>)
    requires multiset(a) == multiset(b)
    ensures TotalValue(a) == TotalValue(b)
  {
    if a == [] {
      assert |b| == |multiset(b)| == 0;
    } else {
      var j := MatchFirst(a, b);
      TotalValueReorder(a[1..], b[..j] + b[j + 1..]);
      TotalValueRemove(b, j);
    }
  }

  /** The names of the products whose stock is below the threshold, in list order. */
  function LowStockItems(products: seq<Product>, threshold: int := DefaultLowStockThreshold): (names: seq<string>)
    ensures |names| <= |products|
  {
    if products == [] then []
    else
      (if products[0].stock < threshold then [products[0].name] else [])
      + LowStockItems(products[1..], threshold)
  }

  /** A name is reported exactly when some product of that name is below the threshold. */
  lemma {:induction false} LowStockItemsMembers(products: seq<Product>, threshold: int, name: string)
    ensures name in LowStockItems(products, threshold)
        <==> exists i :: 0 <= i < |products| && products[i].stock < threshold && products[i].name == name
  {
    if products != [] {
      LowStockItemsMembers(products[1..], threshold, name);
      var tail := products[1..];
      assert forall i :: 0 <= i < |tail| ==> tail[i] == products[i + 1];
      if exists i :: 0 <= i < |products| && products[i].stock < threshold && products[i].name == name {
        var i :| 0 <= i < |products| && products[i].stock < threshold && products[i].name == name;
        if i > 0 {
          assert tail[i - 1].stock < threshold && tail[i - 1].name == name;
        }
      }
    }
  }

  /** Filtering a concatenation filters each part: input order is kept. */
  lemma {:induction false} LowStockItemsAppend(a: seq<Product>, b: seq<Product>, threshold: int)
    ensures LowStockItems(a + b, threshold) == LowStockItems(a, threshold) + LowStockItems(b, threshold)
  {
    if a == [] {
      assert a + b == b;
    } else {
      assert (a + b)[1..] == a[1..] + b;
      LowStockItemsAppend(a[1..], b, threshold);
    }
  }

  /** Every product is reported exactly when all of them are below the threshold. */
  lemma {:induction false} LowStockItemsAll(products: seq<Product>, threshold: int)
    ensures |LowStockItems(products, threshold)| == |products|
        <==> forall i :: 0 <= i < |products| ==> products[i].stock < threshold
  {
    if products != [] {
      LowStockItemsAll(products[1..], threshold);
      var tail := products[1..];
      assert forall i :: 0 <= i < |tail| ==> tail[i] == products[i + 1];
      if forall i :: 0 <= i < |tail| ==> tail[i].stock < threshold {
        assert forall i :: 1 <= i < |products| ==> products[i] == tail[i - 1];
      }
    }
  }

  /** One record per product, in the same order, with every field copied. */
  function FormatProductData(products: seq<Product>): (records: seq<ProductRecord>)
    ensures |records| == |products|
    ensures forall i :: 0 <= i < |products| ==>
              && records[i].id == products[i].id
              && records[i].name == products[i].name
              && records[i].price == products[i].price
              && records[i].stock == products[i].stock
  {
    seq(|products|, i requires 0 <= i < |products| =>
      ProductRecord(products[i].id, products[i].name, products[i].price, products[i].stock))
  }

  /** Reading a record back as a product. */
  function RecordToProduct(r: ProductRecord): Product {
    Product(r.id, r.name, r.price, r.stock)
  }

  /** The listing loses nothing: reading every record back gives the products again. */
  lemma FormatProductDataLossless(products: seq<Product>)
    ensures var records := FormatProductData(products);
      seq(|records|, i requires 0 <= i < |records| => RecordToProduct(records[i])) == products
  {
  }
}

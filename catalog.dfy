/** The product catalog as the order pages see it: each product carries its
    category record (when it has one) and its two day rates. */
module Catalog {
  import opened Js

  /** A product category and its two independent flags. */
  datatype Category = Category(id: int, name: string, includeMounting: bool, includeAccessories: bool)

  /** A product. Prices are the parsed numbers (`parseFloat(x || 0)`);
      `hasLabourPrice` and `excludeConsumables` are the truthiness of the
      stored 0/1 flags. */
  datatype Product = Product(
    id: int,
    title: string,
    category: Option<Category>,
    prepaidPrice: real,
    standardPrice: real,
    hasLabourPrice: bool,
    labourPrice: real,
    excludeConsumables: bool)

  /** The day rate that applies to every line of an order. */
  function Rate(p: Product, isPrepaid: bool): real {
    if isPrepaid then p.prepaidPrice else p.standardPrice
  }

  /** `products.find((p) => p.id === id)`: the first product with that id. */
  function FindProduct(products: seq<Product>, id: int): (r: Option<Product>)
    ensures r.None? <==> forall k :: 0 <= k < |products| ==> products[k].id != id
    ensures r.Some? ==> r.value in products && r.value.id == id
  {
    if products == [] then None
    else if products[0].id == id then Some(products[0])
    else FindProduct(products[1..], id)
  }

  /** What `find` returns is the first match: no earlier product has that id. */
  lemma {:induction false} FindProductIsFirst(products: seq<Product>, id: int)
    requires FindProduct(products, id).Some?
    ensures exists k :: 0 <= k < |products| && products[k] == FindProduct(products, id).value &&
                        forall j :: 0 <= j < k ==> products[j].id != id
  {
    if products[0].id != id {
      FindProductIsFirst(products[1..], id);
      var k :| 0 <= k < |products[1..]| && products[1..][k] == FindProduct(products, id).value &&
               forall j :: 0 <= j < k ==> products[1..][j].id != id;
      assert products[k + 1] == FindProduct(products, id).value;
      forall j | 0 <= j < k + 1 ensures products[j].id != id {
        if j > 0 { assert products[j] == products[1..][j - 1]; }
      }
    } else {
      assert products[0] == FindProduct(products, id).value;
    }
  }

  /** Every product in the catalog has non-negative rates and labour price. */
  predicate NonNegativePrices(products: seq<Product>) {
    forall k :: 0 <= k < |products| ==>
      products[k].prepaidPrice >= 0.0 && products[k].standardPrice >= 0.0 && products[k].labourPrice >= 0.0
  }
}

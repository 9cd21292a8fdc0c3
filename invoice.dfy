/** The printable invoice: it sorts the ordered products into its three tables,
    and re-derives the subtotal and the total from the amounts stored with the
    order instead of recomputing the summary. */
module Invoice {
  import opened Js
  import opened Catalog
  import opened Seqs
  import OrderSummary

  // ---------------------------------------------------------------------------
  // The empty-order guard

  /** `Object.keys(v).length` for the values an order can be. */
  function KeyCount(v: Value): nat {
    match v
    case Arr(items) => |items|
    case Object(entries) => |entries|
    case _ => 0
  }

  /** `!order || typeof order !== 'object' || Object.keys(order).length === 0`. */
  predicate IsEmptyOrder(order: Value) {
    !Truthy(order) || !IsObjectType(order) || KeyCount(order) == 0
  }

  /** The error view is shown for everything except an object or array with at
      least one key. */
  lemma EmptyOrderCases(order: Value)
    ensures !IsEmptyOrder(order) <==> (order.Object? && |order.entries| > 0) || (order.Arr? && |order.items| > 0)
  {
  }

  // ---------------------------------------------------------------------------
  // Categorisation

  /** The three tables of the invoice. */
  datatype Section = Main | Mounting | Accessories

  /** `quantities[product.id] || 0`. */
  function QuantityOf(q: OrderSummary.Quantities, id: int): nat {
    if q == [] then 0
    else if q[0].0 == id then q[0].1
    else QuantityOf(q[1..], id)
  }

  /** An id without an entry has quantity 0, and a positive quantity comes
      from an entry for that id. */
  lemma {:induction false} QuantityOfEntries(q: OrderSummary.Quantities, id: int)
    ensures (forall k :: 0 <= k < |q| ==> q[k].0 != id) ==> QuantityOf(q, id) == 0
    ensures QuantityOf(q, id) > 0 ==> exists k :: 0 <= k < |q| && q[k] == (id, QuantityOf(q, id))
  {
    if q != [] && q[0].0 != id {
      QuantityOfEntries(q[1..], id);
      if QuantityOf(q, id) > 0 {
        var k :| 0 <= k < |q[1..]| && q[1..][k] == (id, QuantityOf(q, id));
        assert q[k + 1] == (id, QuantityOf(q, id));
      }
      if forall k :: 0 <= k < |q| ==> q[k].0 != id {
        assert forall k :: 0 <= k < |q[1..]| ==> q[1..][k].0 != id by {
          forall k | 0 <= k < |q[1..]| ensures q[1..][k].0 != id { assert q[1..][k] == q[k + 1]; }
        }
      }
    }
  }

  /** The table a product goes to; a product without a category counts as one
      with neither flag (`product.category || {}`). */
  function SectionOf(p: Product): Section {
    if p.category.Some? && p.category.value.includeMounting then Mounting
    else if p.category.Some? && p.category.value.includeAccessories then Accessories
    else Main
  }

  /** The test a product passes to be pushed onto section `s`. */
  function InSection(q: OrderSummary.Quantities, s: Section): Product -> bool {
    (p: Product) => QuantityOf(q, p.id) > 0 && SectionOf(p) == s
  }

  /** What section `s` collects from `products`. */
  function Listed(products: seq<Product>, q: OrderSummary.Quantities, s: Section): seq<Product> {
    Filter(products, InSection(q, s))
  }

  /** The ordered products: those with a positive quantity. */
  function Ordered(products: seq<Product>, q: OrderSummary.Quantities): seq<Product> {
    Filter(products, IsOrdered(q))
  }

  function IsOrdered(q: OrderSummary.Quantities): Product -> bool {
    (p: Product) => QuantityOf(q, p.id) > 0
  }

  /** The `products.forEach` loop that pushes each ordered product onto one of
      the three lists. */
  method Categorise(products: seq<Product>, q: OrderSummary.Quantities)
    returns (main: seq<Product>, mounting: seq<Product>, accessories: seq<Product>)
    ensures main == Listed(products, q, Main)
    ensures mounting == Listed(products, q, Mounting)
    ensures accessories == Listed(products, q, Accessories)
  {
    main, mounting, accessories := [], [], [];
    for i := 0 to |products|
      invariant main == Listed(products[..i], q, Main)
      invariant mounting == Listed(products[..i], q, Mounting)
      invariant accessories == Listed(products[..i], q, Accessories)
    {
      var product := products[i];
      var qty := QuantityOf(q, product.id);
      assert products[..i + 1] == products[..i] + [product];
      FilterAppend(products[..i], InSection(q, Main), product);
      FilterAppend(products[..i], InSection(q, Mounting), product);
      FilterAppend(products[..i], InSection(q, Accessories), product);
      if qty > 0 {
        if product.category.Some? && product.category.value.includeMounting {
          mounting := mounting + [product];
        } else if product.category.Some? && product.category.value.includeAccessories {
          accessories := accessories + [product];
        } else {
          main := main + [product];
        }
      }
    }
    assert products[..|products|] == products;
  }

  /** `includeMounting` takes precedence: a category with both flags sends its
      products to the mounting table, and the accessories table only gets
      products whose category has `includeAccessories` without `includeMounting`. */
  lemma SectionPrecedence(p: Product)
    ensures SectionOf(p) == Mounting <==> p.category.Some? && p.category.value.includeMounting
    ensures SectionOf(p) == Accessories <==>
              p.category.Some? && !p.category.value.includeMounting && p.category.value.includeAccessories
    ensures p.category.None? ==> SectionOf(p) == Main
  {
  }

  /** Every product with a positive quantity is in exactly one table, the one
      its category picks; a product with quantity 0 is in none. */
  lemma ExactlyOneSection(products: seq<Product>, q: OrderSummary.Quantities, p: Product)
    ensures p in Listed(products, q, SectionOf(p)) <==> p in products && QuantityOf(q, p.id) > 0
    ensures forall s :: s != SectionOf(p) ==> p !in Listed(products, q, s)
  {
    FilterMembership(products, InSection(q, SectionOf(p)), p);
    forall s | s != SectionOf(p) ensures p !in Listed(products, q, s) {
      FilterMembership(products, InSection(q, s), p);
    }
  }

  /** Each table lists its products in catalog order. */
  lemma SectionsKeepOrder(products: seq<Product>, q: OrderSummary.Quantities, s: Section)
    ensures Subsequence(Listed(products, q, s), products)
  {
    FilterIsSubsequence(products, InSection(q, s));
  }

  /** The three tables together hold exactly the ordered products, each as
      often as it occurs in the catalog. */
  lemma SectionsPartitionOrdered(products: seq<Product>, q: OrderSummary.Quantities)
    ensures multiset(Listed(products, q, Main)) + multiset(Listed(products, q, Mounting)) +
            multiset(Listed(products, q, Accessories)) == multiset(Ordered(products, q))
  {
    FilterPartition3(products, InSection(q, Main), InSection(q, Mounting), InSection(q, Accessories), IsOrdered(q));
  }

  // ---------------------------------------------------------------------------
  // Amounts

  /** The seven amounts stored in `order_detail`, parsed; an absent one is None. */
  datatype StoredAmounts = StoredAmounts(
    equipmentTotal: Option<real>,
    labourCharge: Option<real>,
    mountLabour: Option<real>,
    insurance: Option<real>,
    consumablesTotal: Option<real>,
    adminFees: Option<real>,
    deliveryPickup: Option<real>)

  /** `parseFloat(amount || 0)` with the destructuring default 0. */
  function Amount(a: Option<real>): real {
    if a.Some? then a.value else 0.0
  }

  /** The invoice subtotal: the seven stored amounts added up. */
  function Subtotal(d: StoredAmounts): real {
    Amount(d.equipmentTotal) + Amount(d.labourCharge) + Amount(d.mountLabour) + Amount(d.insurance) +
    Amount(d.consumablesTotal) + Amount(d.adminFees) + Amount(d.deliveryPickup)
  }

  /** `parseFloat(total_amount) || subtotal + parseFloat(taxes || 0)`: the stored
      total when it is a nonzero number, otherwise the recomputed sum. */
  function TotalAmount(totalAmount: Option<real>, subtotal: real, taxes: Option<real>): real {
    if totalAmount.Some? && totalAmount.value != 0.0 then totalAmount.value else subtotal + Amount(taxes)
  }

  /** The amounts an order would store from a summary breakdown. */
  function StoredFrom(b: OrderSummary.Breakdown): StoredAmounts {
    StoredAmounts(Some(b.equipmentTotal), Some(b.labourCharge), Some(b.mountLabour), Some(b.insurance),
                  Some(b.consumablesTotal), Some(b.adminFees), Some(b.deliveryPickup))
  }

  /** The invoice subtotal drops the summary's extra labour: stored from a
      computed breakdown, it falls short of the summary subtotal by exactly
      `extraLabourTotal`. */
  lemma SubtotalOmitsExtraLabour(o: OrderSummary.Order)
    ensures Subtotal(StoredFrom(OrderSummary.Compute(o))) ==
            OrderSummary.Compute(o).subtotal - OrderSummary.Compute(o).extraLabourTotal
  {
  }

  /** Without a stored total the invoice total is the summary's total payment
      minus the extra labour (the taxes were computed on the larger subtotal). */
  lemma TotalFallbackDrift(o: OrderSummary.Order)
    ensures TotalAmount(None, Subtotal(StoredFrom(OrderSummary.Compute(o))), Some(OrderSummary.Compute(o).taxes)) ==
            OrderSummary.Compute(o).totalPayment - OrderSummary.Compute(o).extraLabourTotal
  {
    SubtotalOmitsExtraLabour(o);
  }

  /** The stored total wins whenever it is a nonzero number; zero and a missing
      or unparseable value (`NaN`) fall back, and the sum then uses the stored
      taxes. */
  lemma TotalAmountSources(totalAmount: Option<real>, subtotal: real, taxes: Option<real>)
    ensures totalAmount.Some? && totalAmount.value != 0.0 ==> TotalAmount(totalAmount, subtotal, taxes) == totalAmount.value
    ensures TotalAmount(Some(0.0), subtotal, taxes) == TotalAmount(None, subtotal, taxes) == subtotal + Amount(taxes)
  {
  }

  // ---------------------------------------------------------------------------
  // Lines

  /** `rental_days || 1` with the destructuring default 3. */
  function InvoiceDays(rentalDays: Option<int>): (d: int)
    ensures d != 0
  {
    if rentalDays.None? then 3 else if rentalDays.value != 0 then rentalDays.value else 1
  }

  /** `is_prepaid` with the destructuring default false. */
  function InvoicePrepaid(isPrepaid: Option<bool>): bool {
    isPrepaid.Some? && isPrepaid.value
  }

  /** One table line: rate chosen by `is_prepaid`, times quantity, times days. */
  function LineTotal(p: Product, qty: nat, isPrepaid: Option<bool>, rentalDays: Option<int>): real {
    Rate(p, InvoicePrepaid(isPrepaid)) * qty as real * InvoiceDays(rentalDays) as real
  }

  /** `getProductTotal`: quantity times the prepaid price times days. */
  function ProductTotal(p: Product, q: OrderSummary.Quantities, rentalDays: Option<int>): real {
    QuantityOf(q, p.id) as real * p.prepaidPrice * InvoiceDays(rentalDays) as real
  }

  /** `getProductTotal` always prices at the prepaid rate: it agrees with the
      table line of a prepaid order, and with the table line of a standard
      order only where the two rates coincide or nothing is ordered. */
  lemma ProductTotalIsPrepaid(p: Product, q: OrderSummary.Quantities, rentalDays: Option<int>)
    ensures ProductTotal(p, q, rentalDays) == LineTotal(p, QuantityOf(q, p.id), Some(true), rentalDays)
    ensures ProductTotal(p, q, rentalDays) == LineTotal(p, QuantityOf(q, p.id), Some(false), rentalDays) <==>
            p.prepaidPrice == p.standardPrice || QuantityOf(q, p.id) == 0
  {
    var qty := QuantityOf(q, p.id);
    var n, d := qty as real, InvoiceDays(rentalDays) as real;
    RatesAgree(p.prepaidPrice, p.standardPrice, n, d, ProductTotal(p, q, rentalDays),
               LineTotal(p, qty, Some(true), rentalDays), LineTotal(p, qty, Some(false), rentalDays));
  }

  /** With x = n · a · d, y = a · n · d and z = b · n · d: x = y always, and
      x = z exactly when a = b or n = 0. */
  lemma RatesAgree(a: real, b: real, n: real, d: real, x: real, y: real, z: real)
    requires d != 0.0
    requires x == n * a * d && y == a * n * d && z == b * n * d
    ensures x == y
    ensures x == z <==> a == b || n == 0.0
  {
    Reorder(n, a, d);
    Reorder(n, b, d);
    if n == 0.0 {
      ZeroScale(a, b, d);
    } else {
      NonZeroProduct(n, d);
      ScaledEqual(a, b, n * d);
    }
  }

  lemma ZeroScale(a: real, b: real, d: real)
    ensures a * (0.0 * d) == b * (0.0 * d) == 0.0
  {
  }

  lemma ScaledEqual(a: real, b: real, k: real)
    requires k != 0.0
    ensures a * k == b * k <==> a == b
  {
    if a * k == b * k {
      assert (a - b) * k == 0.0;
    }
  }

  lemma NonZeroProduct(x: real, y: real)
    requires x != 0.0 && y != 0.0
    ensures x * y != 0.0
  {
  }

  lemma Reorder(n: real, r: real, d: real)
    ensures n * r * d == r * n * d == r * (n * d)
  {
  }

  /** The day count: 3 when `rental_days` is absent, 1 when it is 0 (or any
      other falsy value), otherwise the stored count. */
  lemma InvoiceDaysCases(d: int)
    ensures InvoiceDays(None) == 3
    ensures InvoiceDays(Some(0)) == 1
    ensures d != 0 ==> InvoiceDays(Some(d)) == d
  {
  }

  /** An invoice without `is_prepaid` prices its lines at the standard rate,
      where the summary would have priced them prepaid. */
  lemma DefaultLinesAreStandard(p: Product, qty: nat, rentalDays: Option<int>)
    ensures LineTotal(p, qty, None, rentalDays) == p.standardPrice * qty as real * InvoiceDays(rentalDays) as real
    ensures OrderSummary.Prepaid(OrderSummary.Order(None, None, [], [], None, []))
  {
  }

  /** A printed row. */
  datatype Row = Row(title: string, qty: nat, rate: real, days: int, total: real)

  /** The products a table prints a row for: a truthy id and a nonzero quantity. */
  function RowKept(q: OrderSummary.Quantities): Product -> bool {
    (p: Product) => p.id != 0 && QuantityOf(q, p.id) != 0
  }

  /** The row printed for a product. */
  function ToRow(q: OrderSummary.Quantities, isPrepaid: Option<bool>, rentalDays: Option<int>): Product -> Row {
    (p: Product) =>
      Row(p.title, QuantityOf(q, p.id), Rate(p, InvoicePrepaid(isPrepaid)), InvoiceDays(rentalDays),
          LineTotal(p, QuantityOf(q, p.id), isPrepaid, rentalDays))
  }

  /** The rows of a table, in list order. */
  function Rows(list: seq<Product>, q: OrderSummary.Quantities, isPrepaid: Option<bool>, rentalDays: Option<int>): seq<Row> {
    Map(Filter(list, RowKept(q)), ToRow(q, isPrepaid, rentalDays))
  }

  /** `categoryProducts.some(p => p && p.id && getProductQuantity(p.id) > 0)`. */
  predicate HasProducts(list: seq<Product>, q: OrderSummary.Quantities) {
    Any(list, (p: Product) => p.id != 0 && QuantityOf(q, p.id) > 0)
  }

  /** The table is drawn exactly when it has a row to draw: the `some` test
      before the table and the per-row skips agree. */
  lemma TableShownIffRows(list: seq<Product>, q: OrderSummary.Quantities, isPrepaid: Option<bool>, rentalDays: Option<int>)
    ensures HasProducts(list, q) <==> Rows(list, q, isPrepaid, rentalDays) != []
  {
    var kept := Filter(list, RowKept(q));
    if HasProducts(list, q) {
      var i :| 0 <= i < |list| && list[i].id != 0 && QuantityOf(q, list[i].id) > 0;
      FilterMembership(list, RowKept(q), list[i]);
    }
    if kept != [] {
      FilterMembership(list, RowKept(q), kept[0]);
      var i :| 0 <= i < |list| && list[i] == kept[0];
      assert list[i].id != 0 && QuantityOf(q, list[i].id) > 0;
    }
  }

  /** Every printed row has a positive quantity, a nonzero day count and a
      total of rate · qty · days. */
  lemma RowsArePriced(list: seq<Product>, q: OrderSummary.Quantities, isPrepaid: Option<bool>, rentalDays: Option<int>)
    ensures forall i :: 0 <= i < |Rows(list, q, isPrepaid, rentalDays)| ==>
              var r := Rows(list, q, isPrepaid, rentalDays)[i];
              r.qty > 0 && r.days != 0 && r.total == r.rate * r.qty as real * r.days as real
  {
    forall i | 0 <= i < |Rows(list, q, isPrepaid, rentalDays)|
      ensures var r := Rows(list, q, isPrepaid, rentalDays)[i];
              r.qty > 0 && r.days != 0 && r.total == r.rate * r.qty as real * r.days as real
    {
      RowPriced(list, q, isPrepaid, rentalDays, i);
    }
  }

  lemma RowPriced(list: seq<Product>, q: OrderSummary.Quantities, isPrepaid: Option<bool>, rentalDays: Option<int>, i: nat)
    requires i < |Rows(list, q, isPrepaid, rentalDays)|
    ensures var r := Rows(list, q, isPrepaid, rentalDays)[i];
            r.qty > 0 && r.days != 0 && r.total == r.rate * r.qty as real * r.days as real
  {
    var kept := Filter(list, RowKept(q));
    var p := kept[i];
    assert RowKept(q)(p);
    assert Rows(list, q, isPrepaid, rentalDays)[i] == ToRow(q, isPrepaid, rentalDays)(p);
  }

  /** Within one of the categorised lists every product has a positive
      quantity, so a table is left out exactly when all its products have id 0. */
  lemma ListedTableShown(products: seq<Product>, q: OrderSummary.Quantities, s: Section)
    ensures HasProducts(Listed(products, q, s), q) <==> exists p :: p in Listed(products, q, s) && p.id != 0
  {
    var l := Listed(products, q, s);
    if exists p :: p in l && p.id != 0 {
      var p :| p in l && p.id != 0;
      var i :| 0 <= i < |l| && l[i] == p;
      assert InSection(q, s)(l[i]);
    }
  }

  // ---------------------------------------------------------------------------
  // Laptop

  /** `hasOwnProperty("ownLaptop") ? (ownLaptop ? true : false) : true`. */
  function OwnLaptop(selection: Obj): (r: Value)
    ensures r.Bool?
    ensures r == Bool(false) <==> "ownLaptop" in selection && !Truthy(selection["ownLaptop"])
  {
    if "ownLaptop" in selection then Bool(Truthy(selection["ownLaptop"])) else Bool(true)
  }

  /** The three laptop notes: `true`, `false` and `null` ("Not specified"). */
  datatype LaptopNote = OwnsLaptop | NeedsLaptop | NotSpecified | NoNote

  function LaptopNoteOf(v: Value): LaptopNote {
    if v == Bool(true) then OwnsLaptop
    else if v == Bool(false) then NeedsLaptop
    else if v == Null then NotSpecified
    else NoNote
  }

  /** The "Not specified" note can never show: the derived value is always a
      boolean, and a missing key reads as owning a laptop. */
  lemma NotSpecifiedUnreachable(selection: Obj)
    ensures LaptopNoteOf(OwnLaptop(selection)) != NotSpecified
    ensures LaptopNoteOf(OwnLaptop(selection)) != NoNote
    ensures "ownLaptop" !in selection ==> LaptopNoteOf(OwnLaptop(selection)) == OwnsLaptop
  {
  }
}

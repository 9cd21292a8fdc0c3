/** The order pricing engine of the order-summary sidebar: from the catalog,
    the selected quantities, the rental-day count, the prepaid/standard mode,
    the mounting flag and the tax lines it derives every line of the cost
    breakdown. Amounts are exact reals; nothing is rounded here (rounding to
    cents happens only when the sidebar prints them). */
module OrderSummary {
  import opened Js
  import opened Catalog

  /** `Object.entries(quantities)` with each key already read by `parseInt`:
      (product id, quantity) pairs in the object's key order. */
  type Quantities = seq<(int, nat)>

  /** The parsed tax object: (label, percent) pairs in key order. */
  type TaxLines = seq<(string, real)>

  /** What the sidebar reads from `formData` and `clientData`. An absent
      field is `None` and takes the destructuring default. */
  datatype Order = Order(
    rentalDays: Option<int>,        // formData.rental_days, default 4
    isPrepaid: Option<bool>,        // formData.is_prepaid, default true
    products: seq<Product>,         // formData.products
    quantities: Quantities,         // clientData.equipmentSelection.quantities, default {}
    mountingRequired: Option<bool>, // clientData.equipmentSelection.mountingRequired, default false
    tax: TaxLines)                  // the parsed formData.other_settings.tax

  function Days(o: Order): int { if o.rentalDays.Some? then o.rentalDays.value else 4 }
  function Prepaid(o: Order): bool { if o.isPrepaid.Some? then o.isPrepaid.value else true }
  function Mounting(o: Order): bool { if o.mountingRequired.Some? then o.mountingRequired.value else false }

  /** The cost breakdown the sidebar shows. */
  datatype Breakdown = Breakdown(
    noSelection: bool,
    equipmentTotal: real,
    labourCharge: real,
    insurance: real,
    consumablesTotal: real,
    extraLabourTotal: real,
    mountLabour: real,
    combinedLabour: real,
    deliveryPickup: real,
    adminFees: real,
    subtotal: real,
    taxes: real,
    totalPayment: real)

  // ---------------------------------------------------------------------------
  // The folds over the quantities

  /** A looked-up product takes part in equipment and consumables only when it
      exists, has a category, and is not a mounting item on an order that
      does not require mounting. */
  predicate Billable(p: Option<Product>, mountingRequired: bool) {
    p.Some? && p.value.category.Some? &&
    !(!mountingRequired && p.value.category.value.includeMounting)
  }

  /** One entry's equipment: qty · rate · rental_days when billable. */
  function EquipmentLine(products: seq<Product>, e: (int, nat), days: int, isPrepaid: bool, mountingRequired: bool): real
  {
    var p := FindProduct(products, e.0);
    if Billable(p, mountingRequired) then e.1 as real * Rate(p.value, isPrepaid) * days as real else 0.0
  }

  /** Σ qty · rate · rental_days over the billable entries. */
  function EquipmentSum(products: seq<Product>, q: Quantities, days: int, isPrepaid: bool, mountingRequired: bool): real
  {
    if q == [] then 0.0
    else EquipmentLine(products, q[0], days, isPrepaid, mountingRequired) + EquipmentSum(products, q[1..], days, isPrepaid, mountingRequired)
  }

  /** One entry's consumables: rate · qty · rental_days · 0.01 when billable
      and its product does not exclude consumables. */
  function ConsumablesLine(products: seq<Product>, e: (int, nat), days: int, isPrepaid: bool, mountingRequired: bool): real
  {
    var p := FindProduct(products, e.0);
    if Billable(p, mountingRequired) && !p.value.excludeConsumables
    then Rate(p.value, isPrepaid) * e.1 as real * days as real * 0.01 else 0.0
  }

  /** Σ of the consumables lines. */
  function ConsumablesSum(products: seq<Product>, q: Quantities, days: int, isPrepaid: bool, mountingRequired: bool): real
  {
    if q == [] then 0.0
    else ConsumablesLine(products, q[0], days, isPrepaid, mountingRequired) + ConsumablesSum(products, q[1..], days, isPrepaid, mountingRequired)
  }

  /** One entry's labour: qty · labour_price when its product has a labour
      price; neither the category check nor the mounting rule applies. */
  function ExtraLabourLine(products: seq<Product>, e: (int, nat)): real
  {
    var p := FindProduct(products, e.0);
    if p.Some? && p.value.hasLabourPrice then e.1 as real * p.value.labourPrice else 0.0
  }

  /** Σ of the labour lines. */
  function ExtraLabourSum(products: seq<Product>, q: Quantities): real
  {
    if q == [] then 0.0 else ExtraLabourLine(products, q[0]) + ExtraLabourSum(products, q[1..])
  }

  /** `Object.values(quantities).reduce((a, b) => a + b, 0)`: the raw sum of
      every quantity, before any filtering. */
  function TotalQty(q: Quantities): nat
  {
    if q == [] then 0 else q[0].1 + TotalQty(q[1..])
  }

  /** Σ subtotal · percent / 100 over the tax lines. */
  function TaxSum(subtotal: real, tax: TaxLines): real
  {
    if tax == [] then 0.0 else subtotal * (tax[0].1 / 100.0) + TaxSum(subtotal, tax[1..])
  }

  /** Σ percent over the tax lines. */
  function RateSum(tax: TaxLines): real
  {
    if tax == [] then 0.0 else tax[0].1 + RateSum(tax[1..])
  }

  // ---------------------------------------------------------------------------
  // The lines

  /** `calculateLabour`: a flat 160 below 2000 of equipment, then 80 more for
      each started (and each reached) thousand from 2000 on. */
  function CalculateLabour(total: real): (r: real)
    ensures r >= 160.0
    ensures r == 160.0 <==> total < 2000.0
  {
    if total < 2000.0 then 160.0
    else
      var extra := ((total - 2000.0) / 1000.0).Floor;
      assert extra >= 0;
      160.0 + (extra + 1) as real * 80.0
  }

  /** The whole sidebar computation. */
  function Compute(o: Order): (b: Breakdown)
    ensures b.totalPayment == b.subtotal + b.taxes
    ensures b.noSelection ==> b.totalPayment == 0.0
  {
    var days, prepaid, mounting := Days(o), Prepaid(o), Mounting(o);
    var equipmentTotal := EquipmentSum(o.products, o.quantities, days, prepaid, mounting);
    var noSelection := TotalQty(o.quantities) == 0;
    var labourCharge := if noSelection then 0.0 else CalculateLabour(equipmentTotal);
    var insurance := if noSelection then 0.0 else equipmentTotal * 0.05;
    var consumablesTotal := if noSelection then 0.0 else ConsumablesSum(o.products, o.quantities, days, prepaid, mounting);
    var extraLabourTotal := if noSelection then 0.0 else ExtraLabourSum(o.products, o.quantities);
    var mountLabour := if noSelection then 0.0 else if mounting then 160.0 else 0.0;
    var combinedLabour := mountLabour + extraLabourTotal;
    var deliveryPickup := if noSelection then 0.0 else 150.0;
    var adminFees := if noSelection then 0.0 else (equipmentTotal + labourCharge + deliveryPickup) * 0.03;
    var subtotal := equipmentTotal + labourCharge + combinedLabour + insurance + consumablesTotal + adminFees + deliveryPickup;
    var taxes := if noSelection then 0.0 else TaxSum(subtotal, o.tax);
    assert noSelection ==> equipmentTotal == 0.0 by {
      if noSelection { EquipmentZeroWithoutQuantity(o.products, o.quantities, days, prepaid, mounting); }
    }
    Breakdown(noSelection, equipmentTotal, labourCharge, insurance, consumablesTotal, extraLabourTotal,
              mountLabour, combinedLabour, deliveryPickup, adminFees, subtotal, taxes, subtotal + taxes)
  }

  // ---------------------------------------------------------------------------
  // Labour

  /** The tier rule stated without a floor: for k ≥ 1, an equipment total in
      [1000·k + 1000, 1000·k + 2000) bills 160 + 80·k. The boundary itself
      belongs to the upper tier, so exactly 2000 already bills 240. */
  lemma LabourTier(total: real, k: int)
    requires k >= 1
    requires 1000.0 * (k - 1) as real + 2000.0 <= total < 1000.0 * k as real + 2000.0
    ensures CalculateLabour(total) == 160.0 + 80.0 * k as real
  {
    var x := (total - 2000.0) / 1000.0;
    assert (k - 1) as real <= x < k as real;
    assert x.Floor == k - 1;
  }

  /** Labour never decreases as the equipment total grows. */
  lemma LabourMonotone(a: real, b: real)
    requires a <= b
    ensures CalculateLabour(a) <= CalculateLabour(b)
  {
    if a >= 2000.0 {
      var xa, xb := (a - 2000.0) / 1000.0, (b - 2000.0) / 1000.0;
      assert xa <= xb;
      assert xa.Floor as real <= xa && xb < xb.Floor as real + 1.0;
      assert xa.Floor <= xb.Floor;
    }
  }

  /** The breakpoints around the first two tier boundaries. */
  lemma LabourBreakpoints()
    ensures CalculateLabour(1999.99) == 160.0
    ensures CalculateLabour(2000.0) == 240.0
    ensures CalculateLabour(2999.99) == 240.0
    ensures CalculateLabour(3000.0) == 320.0
  {
    LabourTier(2000.0, 1);
    LabourTier(2999.99, 1);
    LabourTier(3000.0, 2);
  }

  // ---------------------------------------------------------------------------
  // The empty selection

  /** A zero raw quantity sum means every entry has quantity 0. */
  lemma {:induction false} ZeroTotalQty(q: Quantities)
    requires TotalQty(q) == 0
    ensures forall i :: 0 <= i < |q| ==> q[i].1 == 0
  {
    if q != [] {
      ZeroTotalQty(q[1..]);
      assert forall i :: 1 <= i < |q| ==> q[i] == q[1..][i - 1];
    }
  }

  lemma {:induction false} EquipmentZeroWithoutQuantity(products: seq<Product>, q: Quantities, days: int, isPrepaid: bool, mountingRequired: bool)
    requires TotalQty(q) == 0
    ensures EquipmentSum(products, q, days, isPrepaid, mountingRequired) == 0.0
  {
    if q != [] {
      assert q[0].1 + TotalQty(q[1..]) == 0;
      EquipmentZeroWithoutQuantity(products, q[1..], days, isPrepaid, mountingRequired);
    }
  }

  /** With a raw quantity sum of 0 every line of the breakdown is 0, whatever
      the tax lines say. */
  lemma NoSelectionIsFree(o: Order)
    requires TotalQty(o.quantities) == 0
    ensures var b := Compute(o);
      b.noSelection && b.equipmentTotal == 0.0 && b.labourCharge == 0.0 && b.insurance == 0.0 &&
      b.consumablesTotal == 0.0 && b.extraLabourTotal == 0.0 && b.mountLabour == 0.0 &&
      b.combinedLabour == 0.0 && b.deliveryPickup == 0.0 && b.adminFees == 0.0 &&
      b.subtotal == 0.0 && b.taxes == 0.0 && b.totalPayment == 0.0
  {
    EquipmentZeroWithoutQuantity(o.products, o.quantities, Days(o), Prepaid(o), Mounting(o));
  }

  /** The "no selection" test reads the raw quantities: an order whose only
      item is a mounting-category product, on an order without mounting,
      bills no equipment but still bills labour 160, delivery 150 and admin
      fees 9.30. */
  lemma MountingOnlySelectionStillBills()
    ensures var mount := Product(7, "Wall mount", Some(Category(3, "Mounts", true, false)),
                                 50.0, 60.0, false, 0.0, false);
            var b := Compute(Order(Some(2), Some(true), [mount], [(7, 1)], Some(false), []));
            !b.noSelection && b.equipmentTotal == 0.0 && b.labourCharge == 160.0 &&
            b.deliveryPickup == 150.0 && b.adminFees == 9.3 && b.insurance == 0.0 &&
            b.consumablesTotal == 0.0 && b.subtotal == 319.3 && b.totalPayment == 319.3
  {
  }

  // ---------------------------------------------------------------------------
  // Equipment, consumables, extra labour

  /** Equipment scales linearly with the rental-day count. */
  lemma {:induction false} EquipmentScalesWithDays(products: seq<Product>, q: Quantities, days: int, isPrepaid: bool, mountingRequired: bool)
    ensures EquipmentSum(products, q, days, isPrepaid, mountingRequired)
         == days as real * EquipmentSum(products, q, 1, isPrepaid, mountingRequired)
  {
    if q != [] {
      EquipmentScalesWithDays(products, q[1..], days, isPrepaid, mountingRequired);
      EquipmentLineScales(products, q[0], days, isPrepaid, mountingRequired);
    }
  }

  lemma EquipmentLineScales(products: seq<Product>, e: (int, nat), days: int, isPrepaid: bool, mountingRequired: bool)
    ensures EquipmentLine(products, e, days, isPrepaid, mountingRequired)
         == days as real * EquipmentLine(products, e, 1, isPrepaid, mountingRequired)
  {
  }

  /** With non-negative prices, equipment is non-negative for non-negative day counts. */
  lemma {:induction false} EquipmentNonNegative(products: seq<Product>, q: Quantities, days: nat, isPrepaid: bool, mountingRequired: bool)
    requires NonNegativePrices(products)
    ensures EquipmentSum(products, q, days, isPrepaid, mountingRequired) >= 0.0
  {
    if q != [] {
      EquipmentNonNegative(products, q[1..], days, isPrepaid, mountingRequired);
      EquipmentLineBounds(products, q[0], 0, days, isPrepaid, mountingRequired);
    }
  }

  /** One entry's equipment is non-negative and grows with the day count. */
  lemma EquipmentLineBounds(products: seq<Product>, e: (int, nat), d1: nat, d2: nat, isPrepaid: bool, mountingRequired: bool)
    requires NonNegativePrices(products) && d1 <= d2
    ensures 0.0 <= EquipmentLine(products, e, d1, isPrepaid, mountingRequired) <= EquipmentLine(products, e, d2, isPrepaid, mountingRequired)
  {
    var p := FindProduct(products, e.0);
    if Billable(p, mountingRequired) {
      var unit := e.1 as real * Rate(p.value, isPrepaid);
      assert unit >= 0.0 by { MulNonNegative(e.1 as real, Rate(p.value, isPrepaid)); }
      MulNonNegative(unit, d1 as real);
      MonotoneScale(unit, d1 as real, d2 as real, unit * d1 as real, unit * d2 as real);
    }
  }

  /** More rental days never lower the equipment total (non-negative prices). */
  lemma {:induction false} EquipmentMonotoneInDays(products: seq<Product>, q: Quantities, d1: nat, d2: nat, isPrepaid: bool, mountingRequired: bool)
    requires NonNegativePrices(products)
    requires d1 <= d2
    ensures EquipmentSum(products, q, d1, isPrepaid, mountingRequired) <= EquipmentSum(products, q, d2, isPrepaid, mountingRequired)
  {
    if q != [] {
      EquipmentMonotoneInDays(products, q[1..], d1, d2, isPrepaid, mountingRequired);
      EquipmentLineBounds(products, q[0], d1, d2, isPrepaid, mountingRequired);
    }
  }

  lemma MonotoneScale(e: real, x: real, y: real, sx: real, sy: real)
    requires e >= 0.0 && x <= y
    requires sx == e * x && sy == e * y
    ensures sx <= sy
  {
    MulNonNegative(e, y - x);
    assert e * y - e * x == e * (y - x);
  }

  lemma MulNonNegative(x: real, y: real)
    requires x >= 0.0 && y >= 0.0
    ensures x * y >= 0.0
  {
  }

  /** Consumables are at most 1% of equipment (non-negative prices and days),
      and exactly 1% when no product in the catalog excludes consumables. */
  lemma {:induction false} ConsumablesAtMostOnePercent(products: seq<Product>, q: Quantities, days: nat, isPrepaid: bool, mountingRequired: bool)
    requires NonNegativePrices(products)
    ensures ConsumablesSum(products, q, days, isPrepaid, mountingRequired)
         <= 0.01 * EquipmentSum(products, q, days, isPrepaid, mountingRequired)
    ensures (forall k :: 0 <= k < |products| ==> !products[k].excludeConsumables) ==>
              (ConsumablesSum(products, q, days, isPrepaid, mountingRequired)
               == 0.01 * EquipmentSum(products, q, days, isPrepaid, mountingRequired))
  {
    if q != [] {
      ConsumablesAtMostOnePercent(products, q[1..], days, isPrepaid, mountingRequired);
      ConsumablesLineBound(products, q[0], days, isPrepaid, mountingRequired);
    }
  }

  /** One entry's consumables are non-negative and at most 1% of its
      equipment, and exactly 1% when its product does not exclude them. */
  lemma ConsumablesLineBound(products: seq<Product>, e: (int, nat), days: nat, isPrepaid: bool, mountingRequired: bool)
    requires NonNegativePrices(products)
    ensures 0.0 <= ConsumablesLine(products, e, days, isPrepaid, mountingRequired)
                <= 0.01 * EquipmentLine(products, e, days, isPrepaid, mountingRequired)
    ensures (forall k :: 0 <= k < |products| ==> !products[k].excludeConsumables) ==>
              ConsumablesLine(products, e, days, isPrepaid, mountingRequired) == 0.01 * EquipmentLine(products, e, days, isPrepaid, mountingRequired)
  {
    EquipmentLineBounds(products, e, days, days, isPrepaid, mountingRequired);
    var p := FindProduct(products, e.0);
    if Billable(p, mountingRequired) {
      var line := e.1 as real * Rate(p.value, isPrepaid) * days as real;
      assert Rate(p.value, isPrepaid) * e.1 as real * days as real * 0.01 == 0.01 * line;
    }
  }

  /** Entries concatenate: every fold splits over `q1 + q2`. */
  lemma {:induction false} EquipmentSplits(products: seq<Product>, q1: Quantities, q2: Quantities, days: int, isPrepaid: bool, mountingRequired: bool)
    ensures EquipmentSum(products, q1 + q2, days, isPrepaid, mountingRequired)
         == EquipmentSum(products, q1, days, isPrepaid, mountingRequired) + EquipmentSum(products, q2, days, isPrepaid, mountingRequired)
  {
    if q1 == [] {
      assert q1 + q2 == q2;
    } else {
      assert (q1 + q2)[0] == q1[0] && (q1 + q2)[1..] == q1[1..] + q2;
      EquipmentSplits(products, q1[1..], q2, days, isPrepaid, mountingRequired);
    }
  }

  lemma {:induction false} ConsumablesSplits(products: seq<Product>, q1: Quantities, q2: Quantities, days: int, isPrepaid: bool, mountingRequired: bool)
    ensures ConsumablesSum(products, q1 + q2, days, isPrepaid, mountingRequired)
         == ConsumablesSum(products, q1, days, isPrepaid, mountingRequired) + ConsumablesSum(products, q2, days, isPrepaid, mountingRequired)
  {
    if q1 == [] {
      assert q1 + q2 == q2;
    } else {
      assert (q1 + q2)[0] == q1[0] && (q1 + q2)[1..] == q1[1..] + q2;
      ConsumablesSplits(products, q1[1..], q2, days, isPrepaid, mountingRequired);
    }
  }

  lemma {:induction false} ExtraLabourSplits(products: seq<Product>, q1: Quantities, q2: Quantities)
    ensures ExtraLabourSum(products, q1 + q2) == ExtraLabourSum(products, q1) + ExtraLabourSum(products, q2)
  {
    if q1 == [] {
      assert q1 + q2 == q2;
    } else {
      assert (q1 + q2)[0] == q1[0] && (q1 + q2)[1..] == q1[1..] + q2;
      ExtraLabourSplits(products, q1[1..], q2);
    }
  }

  /** An entry whose product is not billable (unknown, uncategorised, or a
      mounting item without mounting) adds nothing to equipment or
      consumables, but its labour price is still charged. */
  lemma UnbillableEntryStillChargesLabour(products: seq<Product>, q: Quantities, e: (int, nat), days: int, isPrepaid: bool, mountingRequired: bool)
    requires !Billable(FindProduct(products, e.0), mountingRequired)
    ensures EquipmentSum(products, q + [e], days, isPrepaid, mountingRequired) == EquipmentSum(products, q, days, isPrepaid, mountingRequired)
    ensures ConsumablesSum(products, q + [e], days, isPrepaid, mountingRequired) == ConsumablesSum(products, q, days, isPrepaid, mountingRequired)
    ensures ExtraLabourSum(products, q + [e]) == ExtraLabourSum(products, q) +
              (var p := FindProduct(products, e.0);
               if p.Some? && p.value.hasLabourPrice then e.1 as real * p.value.labourPrice else 0.0)
  {
    EquipmentSplits(products, q, [e], days, isPrepaid, mountingRequired);
    ConsumablesSplits(products, q, [e], days, isPrepaid, mountingRequired);
    ExtraLabourSplits(products, q, [e]);
    assert [e][1..] == [];
  }

  /** Extra labour depends on neither the rental-day count nor the mounting
      flag nor the pricing mode. */
  lemma ExtraLabourIndependent(o: Order, days: Option<int>, mounting: Option<bool>, prepaid: Option<bool>)
    ensures Compute(o).extraLabourTotal
         == Compute(o.(rentalDays := days, mountingRequired := mounting, isPrepaid := prepaid)).extraLabourTotal
  {
  }

  // ---------------------------------------------------------------------------
  // Mount labour, admin fees, subtotal, taxes

  /** Mount labour is 160 exactly when mounting is required and something is
      selected, and 0 otherwise; combined labour adds the extra labour. */
  lemma MountLabourRule(o: Order)
    ensures var b := Compute(o);
      (b.mountLabour == 160.0 <==> Mounting(o) && TotalQty(o.quantities) != 0) &&
      (b.mountLabour != 160.0 ==> b.mountLabour == 0.0) &&
      b.combinedLabour == b.mountLabour + b.extraLabourTotal
  {
  }

  /** Insurance is always 5% of the equipment total: on a selection it is
      computed so, and on an empty selection both are 0. */
  lemma InsuranceRule(o: Order)
    ensures var b := Compute(o);
      b.insurance == b.equipmentTotal * 0.05 && (b.noSelection ==> b.insurance == 0.0)
  {
  }

  /** Admin fees are always 3% of equipment + labour + delivery, also on an
      empty selection; insurance, consumables and combined labour are not in
      their base. */
  lemma AdminFeesBase(o: Order)
    ensures var b := Compute(o);
      b.adminFees == 0.03 * (b.equipmentTotal + b.labourCharge + b.deliveryPickup)
  {
    if TotalQty(o.quantities) == 0 { NoSelectionIsFree(o); }
  }

  /** Two orders that agree on equipment, labour and delivery agree on admin
      fees, however their insurance, consumables or combined labour differ. */
  lemma AdminFeesIgnoreOtherLines(o1: Order, o2: Order)
    requires Compute(o1).equipmentTotal == Compute(o2).equipmentTotal
    requires Compute(o1).labourCharge == Compute(o2).labourCharge
    requires Compute(o1).deliveryPickup == Compute(o2).deliveryPickup
    ensures Compute(o1).adminFees == Compute(o2).adminFees
  {
    AdminFeesBase(o1);
    AdminFeesBase(o2);
  }

  /** The subtotal is the sum of the seven lines, and with non-negative prices
      and days and non-negative tax rates the total is at least the subtotal. */
  lemma SubtotalAndTotal(o: Order)
    requires NonNegativePrices(o.products) && Days(o) >= 0
    requires forall k :: 0 <= k < |o.tax| ==> o.tax[k].1 >= 0.0
    ensures var b := Compute(o);
      b.subtotal == b.equipmentTotal + b.labourCharge + b.combinedLabour + b.insurance +
                    b.consumablesTotal + b.adminFees + b.deliveryPickup &&
      b.subtotal >= 0.0 && b.totalPayment >= b.subtotal
  {
    var b := Compute(o);
    LinesNonNegative(o);
    if !b.noSelection {
      TaxIsRateSum(b.subtotal, o.tax);
      RateSumNonNegative(o.tax);
      MulNonNegative(b.subtotal, RateSum(o.tax));
      assert b.taxes >= 0.0;
    }
  }

  /** Every line of the breakdown is non-negative (non-negative prices and days). */
  lemma LinesNonNegative(o: Order)
    requires NonNegativePrices(o.products) && Days(o) >= 0
    ensures var b := Compute(o);
      b.equipmentTotal >= 0.0 && b.labourCharge >= 0.0 && b.combinedLabour >= 0.0 && b.insurance >= 0.0 &&
      b.consumablesTotal >= 0.0 && b.adminFees >= 0.0 && b.deliveryPickup >= 0.0
  {
    EquipmentNonNegative(o.products, o.quantities, Days(o), Prepaid(o), Mounting(o));
    ExtraLabourNonNegative(o.products, o.quantities);
    ConsumablesNonNegative(o.products, o.quantities, Days(o), Prepaid(o), Mounting(o));
  }

  lemma {:induction false} ExtraLabourNonNegative(products: seq<Product>, q: Quantities)
    requires NonNegativePrices(products)
    ensures ExtraLabourSum(products, q) >= 0.0
  {
    if q != [] {
      ExtraLabourNonNegative(products, q[1..]);
    }
  }

  lemma {:induction false} ConsumablesNonNegative(products: seq<Product>, q: Quantities, days: nat, isPrepaid: bool, mountingRequired: bool)
    requires NonNegativePrices(products)
    ensures ConsumablesSum(products, q, days, isPrepaid, mountingRequired) >= 0.0
  {
    if q != [] {
      ConsumablesNonNegative(products, q[1..], days, isPrepaid, mountingRequired);
      ConsumablesLineBound(products, q[0], days, isPrepaid, mountingRequired);
    }
  }

  lemma {:induction false} RateSumNonNegative(tax: TaxLines)
    requires forall k :: 0 <= k < |tax| ==> tax[k].1 >= 0.0
    ensures RateSum(tax) >= 0.0
  {
    if tax != [] {
      RateSumNonNegative(tax[1..]);
    }
  }

  /** Tax lines are additive, not compounded: every line is taken on the same
      subtotal, so the lines of two configurations simply add up. */
  lemma {:induction false} TaxAdditive(subtotal: real, t1: TaxLines, t2: TaxLines)
    ensures TaxSum(subtotal, t1 + t2) == TaxSum(subtotal, t1) + TaxSum(subtotal, t2)
  {
    if t1 == [] {
      assert t1 + t2 == t2;
    } else {
      assert (t1 + t2)[1..] == t1[1..] + t2;
      TaxAdditive(subtotal, t1[1..], t2);
    }
  }

  /** The tax total is the subtotal times the sum of the rates, over 100. */
  lemma {:induction false} TaxIsRateSum(subtotal: real, tax: TaxLines)
    ensures TaxSum(subtotal, tax) == subtotal * RateSum(tax) / 100.0
  {
    if tax != [] {
      TaxIsRateSum(subtotal, tax[1..]);
    }
  }

  // ---------------------------------------------------------------------------
  // A worked order

  /** One product at 100/day prepaid, quantity 2, 3 days, no mounting, a 5%
      tax line: 600 + 160 + 30 + 6 + 27.30 + 150 = 973.30, plus 48.665 tax.
      Consumables are 1% of the 600 of equipment (6) and admin fees 3% of
      600 + 160 + 150 (27.30). */
  lemma WorkedOrder()
    ensures var screen := Product(1, "Screen", Some(Category(1, "Screens", false, false)),
                                  100.0, 120.0, false, 0.0, false);
            var b := Compute(Order(Some(3), Some(true), [screen], [(1, 2)], Some(false), [("GST 5%", 5.0)]));
            b.equipmentTotal == 600.0 && b.labourCharge == 160.0 && b.mountLabour == 0.0 &&
            b.extraLabourTotal == 0.0 && b.insurance == 30.0 && b.consumablesTotal == 6.0 &&
            b.deliveryPickup == 150.0 && b.adminFees == 27.3 && b.subtotal == 973.3 &&
            b.taxes == 48.665 && b.totalPayment == 1021.965
  {
    var screen := Product(1, "Screen", Some(Category(1, "Screens", false, false)), 100.0, 120.0, false, 0.0, false);
    var o := Order(Some(3), Some(true), [screen], [(1, 2)], Some(false), [("GST 5%", 5.0)]);
    assert FindProduct([screen], 1) == Some(screen);
    assert EquipmentSum(o.products, o.quantities, 3, true, false) == 600.0;
    assert ConsumablesSum(o.products, o.quantities, 3, true, false) == 6.0;
    assert ExtraLabourSum(o.products, o.quantities) == 0.0;
    assert TotalQty(o.quantities) == 2;
    assert TaxSum(973.3, o.tax) == 48.665;
    var b := Compute(o);
    assert b.equipmentTotal == 600.0;
    assert b.labourCharge == 160.0;
    assert b.insurance == 30.0;
    assert b.consumablesTotal == 6.0;
    assert b.adminFees == 27.3;
    assert b.subtotal == 973.3;
    assert b.taxes == 48.665;
  }
}

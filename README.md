# Online ordering dashboard — a Dafny model of its logic

This project models the logic of an admin dashboard for rental orders of
audio-visual equipment, written in React. The models cover:

- **The order pricing engine.** The order-summary sidebar prices an order:
  equipment, tiered labour, mount and per-product labour, insurance,
  consumables, delivery, admin fees and taxes.
- **The printable invoice.** It sorts the ordered products into three tables
  and re-derives its totals from the stored amounts.
- **The form wizard.** This covers the product picker, the event-information
  day count, the tax step, and the validators and payload encoders of the
  create and edit wizards.
- **The forms list.** This covers the page window, the range line, deleting
  and duplicating forms, and the status badge.
- **The two Redux slices and the route guard.** These are the categories and
  user slices.
- **The login page.** This covers its six-cell code buffer and phone-number
  sanitising.
- **The editors.** There are editors for products, users, the signed-in
  profile and the company settings. Each has an upload guard (an image of at
  most 5 MiB), a required-field check and a multipart payload.

## How the model is built

- **JavaScript values** are the datatype `Js.Value`. Truthiness, `||`, property
  reads and `instanceof File` are written out as functions.
- **React state records** are maps from field name to `Value`.
- **A multipart payload** is the sequence of its `(key, value)` parts, in
  append order. `Js.PartFor` is how a receiver reads the first part under a
  key.
- **Money** is exact `real`. Quantities are `nat`, and day numbers and
  timestamps are `int`.
- **Pure computations are functions.** Lemmas state what the source
  promises about them.
- **Loops are methods.** Validation loops with an early return and chains of
  `append` calls are methods with loop invariants. Each method is proved
  equal to the specification function that the lemmas are about.
- **Changed state is a class.** Where the source changes state in place, the
  model is a class:
  - the picker's two lists;
  - the login page;
  - the forms list;
  - the Redux stores.

  Each method's `ensures` gives the whole new state in terms of the old. For
  the stores it is `Current() == Next(old(Current()), a)`, and
  the lemmas are stated on `Next`.
- **Foreign results are parameters.** These include the answers of the HTTP
  requests, `JSON.parse`, `Number` on strings, `Date` and `dayjs`, and the
  preview URL from `FileReader` or `createObjectURL`.

### Behaviour worth knowing

- **Labour at exactly 2000.** `calculateLabour(2000)` is 240: the tier
  boundary belongs to the upper tier (`OrderSummary.LabourBreakpoints`).
- **The empty-selection test.** It reads the raw quantity sum, before the
  mounting and category filter. A selection made only of mounting items, on an
  order without mounting, still bills labour, delivery and admin fees
  (`OrderSummary.MountingOnlySelectionStillBills`).
- **A worked order.** With 600 of equipment, consumables are 1% of it (6),
  admin fees are 3% of 600 + 160 + 150 (27.30), and the total is 1021.965
  (`OrderSummary.WorkedOrder`).
- **The event-information day count can be 0.** It is 0 when load-in and
  finish are the same moment. It is never raised to 1, and the product
  picker's count gives 1 for the same event (`EventInfo.DayCountsDisagree`).
- **The invoice defaults.** The invoice defaults to `is_prepaid = false` and
  `rental_days = 3`. The summary defaults to `true` and `4`.
- **The invoice subtotal.** It omits the summary's extra labour, so without a
  stored total the two totals drift apart.
- **The tax step never confirms a selection.** The tax step ignores the
  `setTaxSelected` callback it is given. So in the edit wizard, a tax counts
  as chosen only if one was stored when the form was loaded.
- **The new-product editor.** It keeps a description field but never sends it.
- **The forms list's range line.** It is drawn only for a non-empty list, so
  its `"0"` alternative never shows.
- **Deleting a form.** The page steps back by one only when the list held
  exactly one form before the deletion. That is the length the handler
  reads.

## Model

Paths are relative to the repository root.

A row that says "No contract of its own" is a definition that models the cited code. The rows it names hold the lemmas and methods that state its properties.

| member | source | states |
|---|---|---|
| `Catalog.Rate` | src/pages/admin/Invoice/OrderSummary.jsx:27-29 | No contract of its own. It is the day rate of a line: the prepaid price when `is_prepaid` holds, else the standard one. Its properties are stated through the equipment and consumables rows below and through `Invoice.ProductTotalIsPrepaid` and `Invoice.DefaultLinesAreStandard`. |
| `Catalog.FindProduct` | src/pages/admin/Invoice/OrderSummary.jsx:18-19 | The lookup finds nothing exactly when no product has the id. Otherwise it returns a catalog product with that id. |
| `Catalog.FindProductIsFirst` | src/pages/admin/Invoice/OrderSummary.jsx:18-19 | The product found is the first with that id: no earlier product carries it. |
| `OrderSummary.Days` | src/pages/admin/Invoice/OrderSummary.jsx:4 | No contract of its own. It is `rental_days` with the destructuring default 4; see `OrderSummary.WorkedOrder`. |
| `OrderSummary.Prepaid` | src/pages/admin/Invoice/OrderSummary.jsx:4 | No contract of its own. It is `is_prepaid` with the destructuring default true; see `OrderSummary.WorkedOrder` and `Invoice.DefaultLinesAreStandard`. |
| `OrderSummary.Mounting` | src/pages/admin/Invoice/OrderSummary.jsx:6 | No contract of its own. It is `mountingRequired` with the default false; see `OrderSummary.MountLabourRule`. |
| `OrderSummary.Billable` | src/pages/admin/Invoice/OrderSummary.jsx:24-25 | No contract of its own. A product counts towards equipment and consumables only when it is found, has a category, and is not a mounting product on an order without mounting. See `OrderSummary.UnbillableEntryStillChargesLabour` and `OrderSummary.MountingOnlySelectionStillBills`. |
| `OrderSummary.EquipmentSum` | src/pages/admin/Invoice/OrderSummary.jsx:22-32 | No contract of its own. Its properties are in `OrderSummary.EquipmentZeroWithoutQuantity`, `OrderSummary.EquipmentScalesWithDays`, `OrderSummary.EquipmentNonNegative`, `OrderSummary.EquipmentMonotoneInDays` and `OrderSummary.EquipmentSplits`. |
| `OrderSummary.ConsumablesSum` | src/pages/admin/Invoice/OrderSummary.jsx:48-61 | No contract of its own. Its properties are in `OrderSummary.ConsumablesAtMostOnePercent`, `OrderSummary.ConsumablesSplits` and `OrderSummary.UnbillableEntryStillChargesLabour`. |
| `OrderSummary.ExtraLabourSum` | src/pages/admin/Invoice/OrderSummary.jsx:64-72 | No contract of its own. Its properties are in `OrderSummary.ExtraLabourSplits`, `OrderSummary.ExtraLabourIndependent`, `OrderSummary.UnbillableEntryStillChargesLabour` and `OrderSummary.LinesNonNegative`. |
| `OrderSummary.TotalQty` | src/pages/admin/Invoice/OrderSummary.jsx:34-35 | No contract of its own. It is the raw sum of the quantities; see `OrderSummary.ZeroTotalQty` and `OrderSummary.NoSelectionIsFree`. |
| `OrderSummary.TaxSum` | src/pages/admin/Invoice/OrderSummary.jsx:93-99 | No contract of its own. Its properties are in `OrderSummary.TaxAdditive` and `OrderSummary.TaxIsRateSum`. |
| `OrderSummary.RateSum` | src/pages/admin/Invoice/OrderSummary.jsx:97 | No contract of its own. It is the sum of the tax percents that `OrderSummary.TaxIsRateSum` relates the tax total to. |
| `OrderSummary.CalculateLabour` | src/pages/admin/Invoice/OrderSummary.jsx:38-42 | Labour is at least 160. It is exactly 160 if and only if equipment is below 2000. |
| `OrderSummary.LabourTier` | src/pages/admin/Invoice/OrderSummary.jsx:38-42 | Stated without a floor: for k ≥ 1, equipment in [1000k+1000, 1000k+2000) bills 160 + 80k. |
| `OrderSummary.LabourMonotone` | src/pages/admin/Invoice/OrderSummary.jsx:38-42 | Labour never decreases as equipment grows. |
| `OrderSummary.LabourBreakpoints` | src/pages/admin/Invoice/OrderSummary.jsx:39-41 | The labour at 1999.99, 2000, 2999.99 and 3000 is 160, 240, 240 and 320. |
| `OrderSummary.Compute` | src/pages/admin/Invoice/OrderSummary.jsx:4-101 | The total payment is subtotal plus taxes. It is 0 when nothing is selected. |
| `OrderSummary.ZeroTotalQty` | src/pages/admin/Invoice/OrderSummary.jsx:34-35 | A zero raw quantity sum means every entry has quantity 0. |
| `OrderSummary.EquipmentZeroWithoutQuantity` | src/pages/admin/Invoice/OrderSummary.jsx:22-35 | With a zero raw quantity sum, equipment is 0. |
| `OrderSummary.NoSelectionIsFree` | src/pages/admin/Invoice/OrderSummary.jsx:34-101 | With a zero raw quantity sum, every one of the thirteen lines is 0, whatever the tax lines say. |
| `OrderSummary.MountingOnlySelectionStillBills` | src/pages/admin/Invoice/OrderSummary.jsx:25-35 | An order holding only a mounting item and requiring no mounting bills equipment 0. It still bills labour 160, delivery 150 and admin fees 9.30. |
| `OrderSummary.EquipmentScalesWithDays` | src/pages/admin/Invoice/OrderSummary.jsx:22-32 | Equipment is the day count times the one-day equipment total. |
| `OrderSummary.EquipmentNonNegative` | src/pages/admin/Invoice/OrderSummary.jsx:22-32 | With non-negative prices and days, equipment is non-negative. |
| `OrderSummary.EquipmentMonotoneInDays` | src/pages/admin/Invoice/OrderSummary.jsx:22-32 | More rental days never lower equipment. |
| `OrderSummary.ConsumablesAtMostOnePercent` | src/pages/admin/Invoice/OrderSummary.jsx:48-61 | Consumables are at most 1% of equipment. They are exactly 1% when no product excludes consumables. |
| `OrderSummary.EquipmentSplits` | src/pages/admin/Invoice/OrderSummary.jsx:22-32 | The equipment fold distributes over a concatenation of the quantity entries. |
| `OrderSummary.ConsumablesSplits` | src/pages/admin/Invoice/OrderSummary.jsx:48-61 | The consumables fold distributes over a concatenation of the quantity entries. |
| `OrderSummary.ExtraLabourSplits` | src/pages/admin/Invoice/OrderSummary.jsx:64-72 | The extra-labour fold distributes over a concatenation of the quantity entries. |
| `OrderSummary.UnbillableEntryStillChargesLabour` | src/pages/admin/Invoice/OrderSummary.jsx:64-72 | An unknown, uncategorised or excluded mounting product adds nothing to equipment or consumables, but its labour price is still added. |
| `OrderSummary.ExtraLabourIndependent` | src/pages/admin/Invoice/OrderSummary.jsx:64-72 | Extra labour does not depend on the day count, the mounting flag or the pricing mode. |
| `OrderSummary.MountLabourRule` | src/pages/admin/Invoice/OrderSummary.jsx:74-75 | Mount labour is 160 if and only if mounting is required and something is selected, and 0 otherwise. Combined labour is mount labour plus extra labour. |
| `OrderSummary.InsuranceRule` | src/pages/admin/Invoice/OrderSummary.jsx:45 | Insurance is 5% of the equipment total for every order. On an empty selection it is 0. |
| `OrderSummary.AdminFeesBase` | src/pages/admin/Invoice/OrderSummary.jsx:77-81 | Admin fees are 3% of equipment + labour + delivery. |
| `OrderSummary.AdminFeesIgnoreOtherLines` | src/pages/admin/Invoice/OrderSummary.jsx:77-81 | Orders that agree on equipment, labour and delivery agree on admin fees. Insurance, consumables and combined labour make no difference. |
| `OrderSummary.SubtotalAndTotal` | src/pages/admin/Invoice/OrderSummary.jsx:83-101 | The subtotal is the sum of the seven lines. With non-negative inputs, the subtotal is non-negative and the total is at least the subtotal. |
| `OrderSummary.LinesNonNegative` | src/pages/admin/Invoice/OrderSummary.jsx:22-81 | With non-negative prices and a non-negative day count, each of the seven lines of the breakdown is non-negative: equipment, labour, combined labour, insurance, consumables, admin fees and delivery. |
| `OrderSummary.TaxAdditive` | src/pages/admin/Invoice/OrderSummary.jsx:93-99 | Tax lines add up and do not compound. |
| `OrderSummary.TaxIsRateSum` | src/pages/admin/Invoice/OrderSummary.jsx:93-99 | Taxes are the subtotal times the sum of the rates, over 100. |
| `OrderSummary.WorkedOrder` | src/pages/admin/Invoice/OrderSummary.jsx:22-101 | In one concrete order, each line has its exact value. |
| `Invoice.KeyCount` | src/pages/admin/Invoice/index.jsx:17 | No contract of its own. It is `Object.keys(v).length` for each kind of value; see `Invoice.EmptyOrderCases`. |
| `Invoice.IsEmptyOrder` | src/pages/admin/Invoice/index.jsx:17-35 | No contract of its own. Its cases are in `Invoice.EmptyOrderCases`. |
| `Invoice.QuantityOf` | src/pages/admin/Invoice/index.jsx:191 | No contract of its own. Its properties are in `Invoice.QuantityOfEntries`, `Invoice.ExactlyOneSection` and `Invoice.ProductTotalIsPrepaid`. |
| `Invoice.SectionOf` | src/pages/admin/Invoice/index.jsx:160-174 | No contract of its own. The table rule is stated in `Invoice.SectionPrecedence` and `Invoice.ExactlyOneSection`. |
| `Invoice.Listed` | src/pages/admin/Invoice/index.jsx:159-176 | No contract of its own. It is what a table collects. `Invoice.Categorise` is proved against it, and `Invoice.SectionsKeepOrder`, `Invoice.SectionsPartitionOrdered` and `Invoice.ListedTableShown` state its properties. |
| `Invoice.Ordered` | src/pages/admin/Invoice/index.jsx:163 | No contract of its own. It is the products with a positive quantity; `Invoice.SectionsPartitionOrdered` states that the three tables split exactly these. |
| `Invoice.Amount` | src/pages/admin/Invoice/index.jsx:86-93 | No contract of its own. It reads a stored amount with the destructuring default 0 and the fallback 0 of line 186; see `Invoice.TotalAmountSources`. |
| `Invoice.Subtotal` | src/pages/admin/Invoice/index.jsx:183-186 | No contract of its own. Its relation to the sidebar's breakdown is in `Invoice.SubtotalOmitsExtraLabour` and `Invoice.TotalFallbackDrift`. |
| `Invoice.TotalAmount` | src/pages/admin/Invoice/index.jsx:188 | No contract of its own. Its cases are in `Invoice.TotalAmountSources` and `Invoice.TotalFallbackDrift`. |
| `Invoice.StoredFrom` | src/pages/admin/Invoice/index.jsx:85-97 | No contract of its own. It is the amounts an order stores from a sidebar breakdown; see `Invoice.SubtotalOmitsExtraLabour` and `Invoice.TotalFallbackDrift`. |
| `Invoice.InvoicePrepaid` | src/pages/admin/Invoice/index.jsx:105 | No contract of its own. It is `is_prepaid` with the default false; see `Invoice.DefaultLinesAreStandard`. |
| `Invoice.LineTotal` | src/pages/admin/Invoice/index.jsx:275-277 | No contract of its own. It is a table line's amount; see `Invoice.ProductTotalIsPrepaid` and `Invoice.DefaultLinesAreStandard`. |
| `Invoice.ProductTotal` | src/pages/admin/Invoice/index.jsx:193-198 | No contract of its own. `Invoice.ProductTotalIsPrepaid` states when it agrees with the table line. |
| `Invoice.Rows` | src/pages/admin/Invoice/index.jsx:269-277 | No contract of its own. Its properties are in `Invoice.TableShownIffRows` and `Invoice.RowsArePriced`. |
| `Invoice.HasProducts` | src/pages/admin/Invoice/index.jsx:237-241 | No contract of its own. `Invoice.TableShownIffRows` and `Invoice.ListedTableShown` state when it holds. |
| `Invoice.LaptopNoteOf` | src/pages/admin/Invoice/index.jsx:579-598 | No contract of its own. `Invoice.NotSpecifiedUnreachable` shows that its "Not specified" note never applies. |
| `Invoice.EmptyOrderCases` | src/pages/admin/Invoice/index.jsx:17-35 | The error view is shown unless the order is an object or array with at least one key. |
| `Invoice.QuantityOfEntries` | src/pages/admin/Invoice/index.jsx:191 | The quantity is 0 for an id with no entry. A positive quantity comes from an entry for that id. |
| `Invoice.Categorise` | src/pages/admin/Invoice/index.jsx:153-176 | The push loop leaves each table equal to the filter for that section. |
| `Invoice.SectionPrecedence` | src/pages/admin/Invoice/index.jsx:160-174 | `includeMounting` wins over `includeAccessories`. A product without a category goes to the main table. |
| `Invoice.ExactlyOneSection` | src/pages/admin/Invoice/index.jsx:159-176 | A product is in its section's table exactly when it is in the catalog with a positive quantity. It is never in another table. |
| `Invoice.SectionsKeepOrder` | src/pages/admin/Invoice/index.jsx:159-176 | Each table lists its products in catalog order. |
| `Invoice.SectionsPartitionOrdered` | src/pages/admin/Invoice/index.jsx:159-176 | The three tables together hold exactly the ordered products, as multisets. |
| `Invoice.SubtotalOmitsExtraLabour` | src/pages/admin/Invoice/index.jsx:183-186 | Amounts stored from a computed breakdown give an invoice subtotal short of the summary's subtotal by exactly the extra labour. |
| `Invoice.TotalFallbackDrift` | src/pages/admin/Invoice/index.jsx:188 | Without a stored total, the invoice total is the summary's total payment minus the extra labour. |
| `Invoice.TotalAmountSources` | src/pages/admin/Invoice/index.jsx:188 | A nonzero stored total is used as is. A total of 0, or a missing or unparseable one, falls back to subtotal + taxes. |
| `Invoice.InvoiceDays` | src/pages/admin/Invoice/index.jsx:106 | The invoice's day count is never 0. |
| `Invoice.InvoiceDaysCases` | src/pages/admin/Invoice/index.jsx:106 | The day count is 3 when absent and 1 when it is 0. Any other value is kept. |
| `Invoice.ProductTotalIsPrepaid` | src/pages/admin/Invoice/index.jsx:193-198 | `getProductTotal` equals the prepaid table line. It equals the standard line if and only if the two rates are equal or nothing is ordered. |
| `Invoice.DefaultLinesAreStandard` | src/pages/admin/Invoice/index.jsx:105 | Without `is_prepaid`, the invoice prices at the standard rate, while the summary's default is prepaid. |
| `Invoice.TableShownIffRows` | src/pages/admin/Invoice/index.jsx:237-273 | A table is drawn if and only if it has at least one row to print. |
| `Invoice.RowsArePriced` | src/pages/admin/Invoice/index.jsx:269-277 | Every printed row has a positive quantity, a nonzero day count and a total of rate × quantity × days. |
| `Invoice.ListedTableShown` | src/pages/admin/Invoice/index.jsx:237-241 | A categorised table is left out exactly when all its products have id 0. |
| `Invoice.OwnLaptop` | src/pages/admin/Invoice/index.jsx:147-151 | The value is always a boolean. It is false exactly when the key is present with a falsy value. |
| `Invoice.NotSpecifiedUnreachable` | src/pages/admin/Invoice/index.jsx:579-598 | The "Not specified" note can never show, and neither can the no-note case. An absent key shows "owns a laptop". |
| `ProductSelection.FilterProducts` | src/components/admin/ProductSelection.jsx:56-72 | No contract of its own. Its properties are in `ProductSelection.FilteredIsSublist`, `ProductSelection.FilteredMembership`, `ProductSelection.NoFilterShowsAll`, `ProductSelection.SearchIsUntrimmed` and `ProductSelection.UnicodeBlankSearchShowsAll`. |
| `ProductSelection.InSync` | src/components/admin/ProductSelection.jsx:86-104 | No contract of its own. It says that the id list is exactly the id strings of the selected records; `ProductSelection.SyncPreserved` shows that add, remove and toggle keep it. |
| `ProductSelection.IsSelected` | src/components/admin/ProductSelection.jsx:116-117 | No contract of its own. It is `isProductSelected`; see `ProductSelection.AddIdempotent`, `ProductSelection.RemoveUnselects` and `ProductSelection.UnselectedAbsent`. |
| `ProductSelection.AddTo` | src/components/admin/ProductSelection.jsx:86-94 | No contract of its own. Its properties are in `ProductSelection.AddIdempotent` and `ProductSelection.SyncPreserved`. `ProductSelection.Selection.AddProduct` is proved against it. |
| `ProductSelection.RemoveFrom` | src/components/admin/ProductSelection.jsx:97-104 | No contract of its own. Its properties are in `ProductSelection.RemoveUnselects`, `ProductSelection.RemoveKeepsOthers`, `ProductSelection.SyncPreserved` and `ProductSelection.NonStringIdSurvives`. `ProductSelection.Selection.RemoveProduct` is proved against it. |
| `ProductSelection.Toggle` | src/components/admin/ProductSelection.jsx:107-113 | No contract of its own. Its properties are in `ProductSelection.ToggleTwiceRestores` and `ProductSelection.SyncPreserved`. `ProductSelection.Selection.ProductClick` is proved against it. |
| `ProductSelection.RentalDays` | src/components/admin/ProductSelection.jsx:75-83 | The count is at least 1. It is 1 unless both dates are set. |
| `ProductSelection.RentalDaysInclusive` | src/components/admin/ProductSelection.jsx:76-80 | With both dates set, the count is end − start + 1. An end before the start counts 1. |
| `ProductSelection.RentalDaysMonotone` | src/components/admin/ProductSelection.jsx:76-80 | A later end never counts fewer days. |
| `ProductSelection.FilteredIsSublist` | src/components/admin/ProductSelection.jsx:56-72 | The shown list is an order-preserving sublist of the catalog. |
| `ProductSelection.FilteredMembership` | src/components/admin/ProductSelection.jsx:56-72 | A product is shown if and only if all three hold: it is in the catalog; it is in the chosen category, if one is chosen; its lower-cased title contains the lower-cased search, if the trimmed search is non-empty. |
| `ProductSelection.NoFilterShowsAll` | src/components/admin/ProductSelection.jsx:59-69 | With no category and a blank search, every product is shown. |
| `ProductSelection.SearchIsUntrimmed` | src/components/admin/ProductSelection.jsx:65-68 | A search of only spaces filters nothing. A search with a leading space matches that space literally. |
| `ProductSelection.UnicodeBlankSearchShowsAll` | src/components/admin/ProductSelection.jsx:64 | A search made only of non-ASCII spaces (no-break space, ideographic space, byte order mark) is blank after `trim`, so it filters nothing. |
| `ProductSelection.AddIdempotent` | src/components/admin/ProductSelection.jsx:86-94 | After an add the product is selected, and adding it again changes nothing. |
| `ProductSelection.RemoveUnselects` | src/components/admin/ProductSelection.jsx:97-104 | After removal no selected record has the id, the id string is not in the id list, and both lists keep their order. |
| `ProductSelection.NonStringIdSurvives` | src/components/admin/ProductSelection.jsx:101-103 | The strict `!==` keeps a non-string entry of the id list through any removal. As an example, removing "5" from the lists `[5]` and `[product "5"]` drops the record but keeps the number 5, so the lists fall out of step. Such an entry can be loaded at src/pages/admin/EditForm/index.jsx:104. |
| `ProductSelection.RemoveKeepsOthers` | src/components/admin/ProductSelection.jsx:97-104 | Entries with another id stay exactly as they were. |
| `ProductSelection.SyncPreserved` | src/components/admin/ProductSelection.jsx:86-113 | If the id list is exactly the id strings of the selected records, add, remove and toggle keep it so. Lists holding a non-string id are not in step to begin with; see `ProductSelection.NonStringIdSurvives`. |
| `ProductSelection.UnselectedAbsent` | src/components/admin/ProductSelection.jsx:97-104 | When the lists are in step and the id is not selected, no selected record carries the id, and neither does the id list. |
| `ProductSelection.ToggleTwiceRestores` | src/components/admin/ProductSelection.jsx:107-113 | Toggling an unselected product twice restores both lists. |
| `ProductSelection.Selection.constructor` | src/components/admin/ProductSelection.jsx:6-10 | The picker starts with the two lists the parent gives it. |
| `ProductSelection.Selection.AddProduct` | src/components/admin/ProductSelection.jsx:86-94 | The new lists are the add-to function of the old ones. |
| `ProductSelection.Selection.RemoveProduct` | src/components/admin/ProductSelection.jsx:97-104 | The new lists are the remove function of the old ones. |
| `ProductSelection.Selection.ProductClick` | src/components/admin/ProductSelection.jsx:107-113 | The new lists are the toggle function of the old ones. |
| `EventInfo.RentalDaysEffect` | src/components/admin/EventInfo.jsx:13-28 | No contract of its own. Its properties are in `EventInfo.RentalDaysWritten`, `EventInfo.OnlyRentalDaysChanges`, `EventInfo.IncompleteKeepsForm`, `EventInfo.StartDateIgnored` and `EventInfo.DayCountsDisagree`. |
| `EventInfo.CeilDays` | src/components/admin/EventInfo.jsx:23-24 | d is the ceiling of the span in days: the span is at most d days and more than d − 1 days. d is 0 if and only if the span is 0. |
| `EventInfo.OnlyRentalDaysChanges` | src/components/admin/EventInfo.jsx:25-28 | Every field other than `rentalDays` is carried over. |
| `EventInfo.RentalDaysWritten` | src/components/admin/EventInfo.jsx:13-28 | With the four fields filled in and end ≥ start, `rentalDays` becomes the ceiling of the span. With end < start, the form is kept. |
| `EventInfo.IncompleteKeepsForm` | src/components/admin/EventInfo.jsx:13-22 | A missing field or an invalid moment leaves the form unchanged. |
| `EventInfo.StartDateIgnored` | src/components/admin/EventInfo.jsx:19-20 | The start date and start time do not affect the count, which runs from load-in. |
| `EventInfo.CeilDaysExamples` | src/components/admin/EventInfo.jsx:24 | Any part of a day counts as one day. A whole number of days is exact. |
| `EventInfo.DayCountsDisagree` | src/components/admin/EventInfo.jsx:22-24 | On a same-moment event this count writes 0, while the picker's count gives 1. |
| `TaxInfo.NumberOr0` | src/components/admin/Taxinfo.jsx:51 | No contract of its own. It is `Number(v)`, or 0 when that is falsy; its cases are in `TaxInfo.ArrayRates` and `TaxInfo.CustomRoundTrip`. |
| `TaxInfo.ReadTax` | src/components/admin/Taxinfo.jsx:23-35 | No contract of its own. Its cases are in `TaxInfo.ReadTaxCases`. |
| `TaxInfo.CurrentName` | src/components/admin/Taxinfo.jsx:37 | No contract of its own; see `TaxInfo.ReadTaxCases` and `TaxInfo.StoredTaxReadsBack`. |
| `TaxInfo.CurrentRate` | src/components/admin/Taxinfo.jsx:38 | No contract of its own; see `TaxInfo.CustomRoundTrip`. |
| `TaxInfo.InitialChoice` | src/components/admin/Taxinfo.jsx:40-53 | No contract of its own. Its properties are in `TaxInfo.ReadTaxCases`, `TaxInfo.CustomLabelStaysUnwritten` and `TaxInfo.NoTaxLabelRewritten`, and its round trips with `TaxInfo.WriteBack` are in `TaxInfo.PresetRoundTrip` and `TaxInfo.CustomRoundTrip`. |
| `TaxInfo.SetTax` | src/components/admin/Taxinfo.jsx:62-76 | No contract of its own. It is the state update of the effect; `TaxInfo.WriteBackKeepsTheRest` shows that it changes only the tax. |
| `TaxInfo.TaxEntry` | src/components/admin/Taxinfo.jsx:60-77 | No contract of its own. Its cases are in `TaxInfo.TaxEntryCases`. |
| `TaxInfo.WriteBack` | src/components/admin/Taxinfo.jsx:59-79 | No contract of its own. Its properties are in `TaxInfo.WriteBackSingleEntry`, `TaxInfo.WriteBackKeepsTheRest`, `TaxInfo.StoredTaxReadsBack`, `TaxInfo.PresetRoundTrip`, `TaxInfo.CustomRoundTrip` and `EditForm.WrittenTaxSelects`. |
| `TaxInfo.FindByLabel` | src/components/admin/Taxinfo.jsx:41 | The lookup returns a preset with that label, or none if and only if no preset has it. |
| `TaxInfo.FindByKey` | src/components/admin/Taxinfo.jsx:70 | The lookup returns a preset with that key, or none if and only if no preset has it. |
| `TaxInfo.WriteBackSingleEntry` | src/components/admin/Taxinfo.jsx:59-78 | The write-back stores something exactly when a preset is chosen, or custom with a non-empty name. What it stores is a tax object with exactly one entry. |
| `TaxInfo.TaxEntryCases` | src/components/admin/Taxinfo.jsx:60-77 | The one entry is `{"none": 0}` for no tax, `{label: rate}` for each rated preset, and `{name: Number(rate) or 0}` for a named custom tax. |
| `TaxInfo.WriteBackKeepsTheRest` | src/components/admin/Taxinfo.jsx:62-76 | Every other form field and every other setting is kept. |
| `TaxInfo.PresetRoundTrip` | src/components/admin/Taxinfo.jsx:37-78 | Writing a preset and reading the stored tax back selects the same preset, whatever the custom name and rate fields hold. The choice read back has an empty custom name and a zero rate. |
| `TaxInfo.StoredTaxReadsBack` | src/components/admin/Taxinfo.jsx:23-38 | The stored object reads back the same way whether it is kept as an object or as its JSON text. |
| `TaxInfo.CustomRoundTrip` | src/components/admin/Taxinfo.jsx:37-78 | A custom name that is neither a preset label nor "none" reads back as custom with that name and the numeric rate. |
| `TaxInfo.CustomLabelStaysUnwritten` | src/components/admin/Taxinfo.jsx:40-61 | A stored tax named "Custom" selects custom with an empty name, and then nothing is written back. |
| `TaxInfo.NoTaxLabelRewritten` | src/components/admin/Taxinfo.jsx:40-75 | A stored tax named "No Tax" reads as none and is rewritten as `{"none": 0}`. |
| `TaxInfo.ArrayRates` | src/components/admin/Taxinfo.jsx:66 | The custom rate is read with `Number`, and a falsy number as 0. A one-item array is read as that item's text: `[5]` is 5 and `[true]` is 0, where `true` is 1. A longer array is 0. |
| `TaxInfo.ReadTaxCases` | src/components/admin/Taxinfo.jsx:23-43 | A missing or empty tax reads as none. So does a string that fails to parse. A string that parses to a non-object makes reading the rate throw. |
| `FormState.HeaderParts` | src/pages/admin/EditForm/index.jsx:196-201 | No contract of its own. It is the six parts that open both wizards' payloads. `FormState.OpenPayload` is proved against it, and `EditForm.OpeningKeys` and `AddForm.CreatePayloadContacts` read it. |
| `FormState.LogoParts` | src/pages/admin/EditForm/index.jsx:203-205 | No contract of its own. The logo part goes only for a new file; see `EditForm.OpeningKeys`. |
| `FormState.FirstEmpty` | src/pages/admin/EditForm/index.jsx:169-174 | The result is the first position whose field is falsy, and none exactly when every field is filled in. |
| `FormState.FindFirstEmpty` | src/pages/admin/EditForm/index.jsx:169-174 | The loop with its early return finds that same position. |
| `FormState.FirstEmptyIsUnique` | src/pages/admin/EditForm/index.jsx:169-174 | An empty field whose predecessors are all filled in is the one reported. |
| `FormState.FirstEmptyPrefix` | src/pages/admin/AddForm/index.jsx:80-103 | With a filled-in prefix, the longer list passes if and only if the rest does. |
| `FormState.InputChange` | src/pages/admin/AddForm/index.jsx:61-69 | A file input stores its first file, or null. Any other input stores its value. Every other field is unchanged. |
| `FormState.InputChangeOverrides` | src/pages/admin/EditForm/index.jsx:116-124 | The last input wins. Re-entering the stored value changes nothing. |
| `FormState.OpenPayload` | src/pages/admin/EditForm/index.jsx:196-201 | The six opening appends give the header parts in order: the user id, the title and the four contact fields. |
| `EditForm.LabelFor` | src/pages/admin/EditForm/index.jsx:127-143 | No contract of its own. It is the fixed label table; see `EditForm.RequiredFieldLabels` and `EditForm.FallbackSplitsCapitals`. |
| `EditForm.SpaceCapitals` | src/pages/admin/EditForm/index.jsx:144 | No contract of its own. Its properties are in `EditForm.SpaceCapitalsInsertsOnlySpaces`, `EditForm.CapitalsFollowSpaces`, `EditForm.SpaceCapitalsKeepsLowercase` and `EditForm.SplitsOneCapital`. |
| `EditForm.CapitalizeFirst` | src/pages/admin/EditForm/index.jsx:144 | No contract of its own; see `EditForm.FallbackSplitsCapitals`. |
| `EditForm.FormatFieldName` | src/pages/admin/EditForm/index.jsx:126-145 | No contract of its own. Its properties are in `EditForm.RequiredFieldLabels` and `EditForm.FallbackSplitsCapitals`. |
| `EditForm.SpaceCapitalsInsertsOnlySpaces` | src/pages/admin/EditForm/index.jsx:144 | Splitting before capitals only inserts spaces. Spaces aside, the name is unchanged. |
| `EditForm.CapitalsFollowSpaces` | src/pages/admin/EditForm/index.jsx:144 | Every capital of the split name has a space right before it. |
| `EditForm.RequiredFieldLabels` | src/pages/admin/EditForm/index.jsx:127-144 | Each of the ten required fields has its table label. |
| `EditForm.FallbackSplitsCapitals` | src/pages/admin/EditForm/index.jsx:144 | An unlisted name is split before its capitals and its first letter raised. |
| `EditForm.SpaceCapitalsKeepsLowercase` | src/pages/admin/EditForm/index.jsx:144 | A name without capitals is kept as it is. |
| `EditForm.SplitsOneCapital` | src/pages/admin/EditForm/index.jsx:144 | A name with a single capital gets exactly one space, right before that capital. |
| `EditForm.Validation` | src/pages/admin/EditForm/index.jsx:147-187 | No contract of its own. `EditForm.ValidateForm` is proved against it. Its rules are in `EditForm.DraftRule`, `EditForm.PublishRule`, `EditForm.PublishReportsFirstEmpty`, `EditForm.ProductBeforeTax`, `EditForm.PublishImpliesDraft` and `AddForm.StricterThanEdit`. |
| `EditForm.ValidateForm` | src/pages/admin/EditForm/index.jsx:147-187 | The validator's loop with its early return computes the validation verdict. |
| `EditForm.DraftRule` | src/pages/admin/EditForm/index.jsx:148-154 | A draft passes if and only if it has a title. Otherwise it fails with the draft message. |
| `EditForm.PublishRule` | src/pages/admin/EditForm/index.jsx:156-186 | Publishing passes if and only if the ten fields are filled in, a product is chosen and a tax is selected. |
| `EditForm.PublishReportsFirstEmpty` | src/pages/admin/EditForm/index.jsx:169-174 | Publishing names the first empty required field by its formatted label. |
| `EditForm.ProductBeforeTax` | src/pages/admin/EditForm/index.jsx:176-184 | With the fields filled in and no tax selected, a missing product is reported before the missing tax. |
| `EditForm.PublishImpliesDraft` | src/pages/admin/EditForm/index.jsx:148-157 | A form that could be published could also be saved as a draft. |
| `EditForm.TaxObject` | src/pages/admin/EditForm/index.jsx:72-85 | No contract of its own. It is the tax as loaded; see `EditForm.SaveAfterLoadTax`. |
| `EditForm.TaxSelectedOnLoad` | src/pages/admin/EditForm/index.jsx:81 | No contract of its own. `EditForm.WrittenTaxSelects` shows that it holds after any tax write-back. |
| `EditForm.EventState` | src/pages/admin/EditForm/index.jsx:95-103 | No contract of its own; see `EditForm.LoadedEventFields`. |
| `EditForm.OwnState` | src/pages/admin/EditForm/index.jsx:87-107 | No contract of its own; see `EditForm.OwnFieldsAreNotEvents`, `EditForm.LoadedDefaults` and `EditForm.LoadedSettings`. |
| `EditForm.LoadedForm` | src/pages/admin/EditForm/index.jsx:87-108 | No contract of its own. Its properties are in `EditForm.LoadedEventFields`, `EditForm.LoadedSettings`, `EditForm.LoadedOtherSettings`, `EditForm.LoadedDefaults` and the `EditForm.SaveAfterLoad…` rows. |
| `EditForm.LoadedEventFields` | src/pages/admin/EditForm/index.jsx:95-103 | Each event field is loaded from `event_info`. A missing one becomes "". |
| `EditForm.OwnFieldsAreNotEvents` | src/pages/admin/EditForm/index.jsx:95-107 | The form's own keys (`otherSettings`, `products`, `status`, `accessCode`) are not event fields. |
| `EditForm.LoadedOtherSettings` | src/pages/admin/EditForm/index.jsx:107 | The loaded settings are the stored settings with `tax` replaced. |
| `EditForm.LoadedSettings` | src/pages/admin/EditForm/index.jsx:72-107 | The loaded `tax` is the parsed tax object. Every other stored setting is kept. |
| `EditForm.LoadedDefaults` | src/pages/admin/EditForm/index.jsx:104-106 | Products default to `[]`, and status and access code to "". |
| `EditForm.WrittenTaxSelects` | src/pages/admin/EditForm/index.jsx:72-85 | A tax written by the tax step, stored as an object or as JSON, marks the tax as selected on reload. An empty object does not, and neither does an unparseable string. |
| `EditForm.SavePayload` | src/pages/admin/EditForm/index.jsx:194-234 | No contract of its own. `EditForm.BuildSavePayload` is proved against it. Its properties are in `EditForm.OpeningKeys`, `EditForm.EventFieldsSent`, `EditForm.ProductsSentInOrder`, `EditForm.SettingsSent`, `EditForm.NoProductKeyBefore`, `EditForm.NoProductKeyAfter` and the `EditForm.SaveAfterLoad…` rows. |
| `EditForm.ProductsPosted` | src/pages/admin/EditForm/index.jsx:223-225 | No contract of its own. It is what a receiver collects under `product_select[…]`; see `EditForm.ProductsSentInOrder` and `EditForm.SaveAfterLoadProducts`. |
| `EditForm.AfterSave` | src/pages/admin/EditForm/index.jsx:245-249 | No contract of its own; see `EditForm.AfterSaveOnlyStatusAndCode`. |
| `EditForm.BuildSavePayload` | src/pages/admin/EditForm/index.jsx:194-234 | The successive appends build the save payload. |
| `EditForm.AppendEventFields` | src/pages/admin/EditForm/index.jsx:219-221 | The loop appends one part per event field, in order. |
| `EditForm.AppendProducts` | src/pages/admin/EditForm/index.jsx:223-225 | The loop appends one `product_select[i]` part per product, in order. |
| `EditForm.AppendSettings` | src/pages/admin/EditForm/index.jsx:227-232 | The loop appends one part per setting, in order. |
| `EditForm.EventKeyInjective` | src/pages/admin/EditForm/index.jsx:220 | Distinct event fields get distinct keys. |
| `EditForm.OpeningKeys` | src/pages/admin/EditForm/index.jsx:196-205 | No opening key is an event-field key or a product key. |
| `EditForm.EventFieldsDistinct` | src/pages/admin/EditForm/index.jsx:207-217 | The nine event fields are distinct. |
| `EditForm.EventFieldsSent` | src/pages/admin/EditForm/index.jsx:207-221 | The receiver reads each of the nine event fields as the form's value, or "" when it is falsy. |
| `EditForm.ProductsSentInOrder` | src/pages/admin/EditForm/index.jsx:223-225 | The product parts are exactly the form's product ids, in list order. |
| `EditForm.NoProductKeyBefore` | src/pages/admin/EditForm/index.jsx:196-221 | No part before the products carries a product key. |
| `EditForm.NoProductKeyAfter` | src/pages/admin/EditForm/index.jsx:227-234 | No part after the products carries a product key. |
| `EditForm.ProductKeysKept` | src/pages/admin/EditForm/index.jsx:223-225 | Every product part carries a product key, with its id as the value. |
| `EditForm.SettingsSent` | src/pages/admin/EditForm/index.jsx:227-232 | Every setting is sent under its own key. It is sent as JSON text exactly when its value is an object. |
| `EditForm.SaveAfterLoadEventFields` | src/pages/admin/EditForm/index.jsx:95-103 | Saving a freshly loaded form posts back each stored event field, or "". |
| `EditForm.SaveAfterLoadProducts` | src/pages/admin/EditForm/index.jsx:104 | Saving a freshly loaded form posts back the stored product ids, in order. |
| `EditForm.TaxSettingKey` | src/pages/admin/EditForm/index.jsx:229 | The tax setting's key is `other_settings[tax]`. |
| `EditForm.SaveAfterLoadTax` | src/pages/admin/EditForm/index.jsx:72-107 | Saving a freshly loaded form posts the parsed tax object, as JSON text when it is an object. |
| `EditForm.AfterSaveOnlyStatusAndCode` | src/pages/admin/EditForm/index.jsx:245-249 | A save replaces the status and the access code with the server's. Every other field is kept. |
| `AddForm.Validation` | src/pages/admin/AddForm/index.jsx:71-111 | No contract of its own. `AddForm.ValidateForm` is proved against it. Its rules are in `AddForm.DraftRule`, `AddForm.PublishRule`, `AddForm.PublishReportsFirstEmpty`, `AddForm.PublishImpliesDraft` and `AddForm.StricterThanEdit`. |
| `AddForm.ValidateForm` | src/pages/admin/AddForm/index.jsx:71-111 | The validator's loop with its early return computes the validation verdict. |
| `AddForm.DraftRule` | src/pages/admin/AddForm/index.jsx:72-78 | A draft passes if and only if it has a title. |
| `AddForm.PublishRule` | src/pages/admin/AddForm/index.jsx:80-110 | Publishing passes if and only if all fifteen fields are filled in and a product is chosen. There is no tax check. |
| `AddForm.PublishReportsFirstEmpty` | src/pages/admin/AddForm/index.jsx:98-103 | Publishing names the first empty field by its state name. |
| `AddForm.PublishImpliesDraft` | src/pages/admin/AddForm/index.jsx:72-81 | A form that could be published could also be saved as a draft. |
| `AddForm.StricterThanEdit` | src/pages/admin/AddForm/index.jsx:80-110 | A form the create check accepts for publishing is accepted by the edit check once a tax is selected. |
| `AddForm.EventInfoObject` | src/pages/admin/AddForm/index.jsx:132-142 | No contract of its own; see `AddForm.EventInfoListsFields` and `AddForm.EventInfoCarriesFields`. |
| `AddForm.JsonParts` | src/pages/admin/AddForm/index.jsx:130-147 | No contract of its own. It is the four parts after the contact details and the logo; see `AddForm.JsonPartRead`. |
| `AddForm.CreatePayload` | src/pages/admin/AddForm/index.jsx:118-147 | No contract of its own. `AddForm.BuildCreatePayload` is proved against it. Its properties are in `AddForm.CreatePayloadReads`, `AddForm.JsonPartRead`, `AddForm.OpeningKeysAreNot` and `AddForm.CreatePayloadContacts`. |
| `AddForm.BuildCreatePayload` | src/pages/admin/AddForm/index.jsx:118-147 | The successive appends build the create payload. |
| `AddForm.EventInfoListsFields` | src/pages/admin/AddForm/index.jsx:132-142 | `event_info` is the object of the nine event fields, in order. |
| `AddForm.CreatePayloadReads` | src/pages/admin/AddForm/index.jsx:130-147 | The receiver reads `event_info`, `product_select` and `other_settings` as JSON of the state, and reads the status. |
| `AddForm.JsonPartRead` | src/pages/admin/AddForm/index.jsx:130-147 | Each of the four closing parts is what the receiver reads under its key. |
| `AddForm.OpeningKeysAreNot` | src/pages/admin/AddForm/index.jsx:119-128 | No opening part uses one of the four closing keys. |
| `AddForm.CreatePayloadContacts` | src/pages/admin/AddForm/index.jsx:119-128 | The user and the contact fields are read as they are. A logo is read exactly when it is a file. |
| `AddForm.EventInfoCarriesFields` | src/pages/admin/AddForm/index.jsx:132-142 | Each event field appears in the `event_info` object with the state's value. |
| `AddForm.AfterSave` | src/pages/admin/AddForm/index.jsx:155-159 | No contract of its own; see `AddForm.AfterSaveOnlyStatusAndCode`. |
| `AddForm.AfterSaveOnlyStatusAndCode` | src/pages/admin/AddForm/index.jsx:155-159 | A save replaces the status, and the access code with the response's or "". Every other field is kept. |
| `FormsList.InWindow` | src/pages/admin/Forms/index.jsx:407-412 | No contract of its own. It is the filter on page numbers; see `FormsList.InWindowIsInterval` and `FormsList.FilterPrefix`. |
| `FormsList.PageWindow` | src/pages/admin/Forms/index.jsx:405-412 | No contract of its own. Its properties are in `FormsList.WindowIsRange` and `FormsList.WindowProperties`. |
| `FormsList.PrevDisabled` | src/pages/admin/Forms/index.jsx:398 | No contract of its own; see `FormsList.StepsStayInRange`. |
| `FormsList.NextDisabled` | src/pages/admin/Forms/index.jsx:429 | No contract of its own; see `FormsList.StepsStayInRange`. |
| `FormsList.ShownRange` | src/pages/admin/Forms/index.jsx:385-390 | No contract of its own; see `FormsList.RangeLabelMeaning`. |
| `FormsList.RangeLabel` | src/pages/admin/Forms/index.jsx:380-391 | No contract of its own; see `FormsList.RangeLabelMeaning`. |
| `FormsList.StatusBadge` | src/pages/admin/Forms/index.jsx:203-215 | No contract of its own; see `FormsList.StatusBadgeCases`. |
| `FormsList.PageAfterDelete` | src/pages/admin/Forms/index.jsx:89 | No contract of its own. See `FormsList.PageAfterDeleteMeaning`, and `FormsList.FormsPage.ConfirmDelete`, which uses it. |
| `FormsList.CopyTitle` | src/pages/admin/Forms/index.jsx:109 | No contract of its own. See `FormsList.CopyTitleMeaning`, and `FormsList.FormsPage.OpenDuplicate`, which uses it. |
| `FormsList.DuplicateRequest` | src/pages/admin/Forms/index.jsx:120-131 | No contract of its own. See `FormsList.DuplicateRequestMeaning`, and `FormsList.FormsPage.ConfirmDuplicate`, which returns it. |
| `FormsList.Pages` | src/pages/admin/Forms/index.jsx:405-407 | The pages are 1..totalPages, in order. |
| `FormsList.Range` | src/pages/admin/Forms/index.jsx:405-412 | The range lo..hi has hi − lo + 1 entries, or none when hi < lo, and entry i is lo + i. |
| `FormsList.InWindowIsInterval` | src/pages/admin/Forms/index.jsx:408-412 | The window test on a page number is membership in one interval. |
| `FormsList.FilterPrefix` | src/pages/admin/Forms/index.jsx:405-412 | Filtering a prefix of the pages gives the window clipped to that prefix. |
| `FormsList.WindowIsRange` | src/pages/admin/Forms/index.jsx:405-412 | The filtered pages are exactly the window's interval. |
| `FormsList.WindowProperties` | src/pages/admin/Forms/index.jsx:405-412 | For a valid page, the window is strictly increasing, within 1..totalPages, has min(5, totalPages) entries and contains the page. |
| `FormsList.StepsStayInRange` | src/pages/admin/Forms/index.jsx:397-429 | An enabled Prev or Next button leads to a page within 1..totalPages. |
| `FormsList.RangeLabelMeaning` | src/pages/admin/Forms/index.jsx:380-391 | The range runs from (page − 1)·perPage + 1 to min(page·perPage, totalItems). The "s" is dropped only for one form. |
| `FormsList.StatusBadgeCases` | src/pages/admin/Forms/index.jsx:203-215 | The badge reads "Publish" if and only if the status is "publish". It is highlighted if and only if the status is "active" or "publish". |
| `FormsList.PageAfterDeleteMeaning` | src/pages/admin/Forms/index.jsx:89 | The page stays at least 1. It steps back by one if and only if the list held one form and the page was above 1. Otherwise it is kept. |
| `FormsList.DuplicateRequestMeaning` | src/pages/admin/Forms/index.jsx:117-131 | The copy is a draft with the new title. It carries the original's contact, event, product and settings fields, and no id or access code. |
| `FormsList.CopyTitleMeaning` | src/pages/admin/Forms/index.jsx:109 | The default copy title is the title followed by " (Copy)". |
| `FormsList.FormsPage.constructor` | src/pages/admin/Forms/index.jsx:21-41 | The list starts empty on page 1 of 1, with no dialog open. |
| `FormsList.FormsPage.Fetched` | src/pages/admin/Forms/index.jsx:54-68 | A fetch replaces the list, the page count and the item count. Nothing else changes. |
| `FormsList.FormsPage.OpenDelete` | src/pages/admin/Forms/index.jsx:71-77 | Opening the delete dialog records the id only. |
| `FormsList.FormsPage.ConfirmDelete` | src/pages/admin/Forms/index.jsx:80-101 | A deletion drops every form with that id and moves the page by the pre-delete length. A failure keeps both. The dialog closes either way. |
| `FormsList.FormsPage.OpenDuplicate` | src/pages/admin/Forms/index.jsx:104-111 | Opening the duplicate dialog records the id and the default copy title. |
| `FormsList.FormsPage.ConfirmDuplicate` | src/pages/admin/Forms/index.jsx:114-149 | The request is the copy of the first form with that id, or none when there is no such form. The created form is appended at the end. The dialog closes. |
| `Records.ReplaceById` | src/lib/categoriesSlice.js:114-122 | No contract of its own; see `Records.ReplaceByIdMeaning` and `CategoriesSlice.UpdateReplacesFirst`. |
| `Records.WithoutId` | src/lib/categoriesSlice.js:134 | No contract of its own. See `Records.WithoutIdMeaning` and `Records.WithoutAbsentId`; the forms list uses the same filter at src/pages/admin/Forms/index.jsx:84. |
| `Records.IndexOfId` | src/lib/categoriesSlice.js:116-121 | The result is the first index whose record has the id, and none exactly when no record has it. |
| `Records.FindById` | src/pages/admin/Forms/index.jsx:117 | The lookup returns a record with the id, and none exactly when no record has it. |
| `Records.ReplaceByIdMeaning` | src/lib/categoriesSlice.js:114-122 | The length is kept. With no match nothing changes. Otherwise only the first match is replaced. |
| `Records.WithoutIdMeaning` | src/lib/categoriesSlice.js:134 | A record survives if and only if its id differs. The survivors keep their order. |
| `Records.WithoutAbsentId` | src/pages/admin/Forms/index.jsx:84 | Removing an id that no record carries changes nothing. |
| `CategoriesSlice.Next` | src/lib/categoriesSlice.js:72-139 | No contract of its own. `CategoriesSlice.Store.Dispatch` is proved against it. Its effects are in `CategoriesSlice.ReplaceWholesale`, `CategoriesSlice.AddAppends`, `CategoriesSlice.UpdateReplacesFirst`, `CategoriesSlice.DeleteRemoves`, `CategoriesSlice.FlagsAndErrors`, `CategoriesSlice.ClearErrorOnly` and `CategoriesSlice.DeleteUndoesAdd`. |
| `CategoriesSlice.ReplaceWholesale` | src/lib/categoriesSlice.js:77-91 | `setCategories` and a fulfilled fetch replace the items, whatever was there. The fetch also clears `loading`. |
| `CategoriesSlice.AddAppends` | src/lib/categoriesSlice.js:101-104 | The old items are a prefix of the new items, which are one longer and end with the added item. |
| `CategoriesSlice.UpdateReplacesFirst` | src/lib/categoriesSlice.js:114-122 | An update keeps the length, changes nothing without a match, and otherwise replaces only the first match. |
| `CategoriesSlice.DeleteRemoves` | src/lib/categoriesSlice.js:132-135 | An item survives if and only if its id differs. The order is kept. |
| `CategoriesSlice.FlagsAndErrors` | src/lib/categoriesSlice.js:83-139 | Each pending case sets its flag and clears the error. Each rejected case clears its flag and stores the error, keeping the items. The fetch cases never touch `actionLoading`, and the request cases never touch `loading`. |
| `CategoriesSlice.ClearErrorOnly` | src/lib/categoriesSlice.js:73-75 | `clearError` changes only the error, and is idempotent. |
| `CategoriesSlice.DeleteUndoesAdd` | src/lib/categoriesSlice.js:101-135 | Adding an item with a fresh id and then deleting that id restores the items. |
| `CategoriesSlice.Store.constructor` | src/lib/categoriesSlice.js:66-71 | The store starts in the initial state. |
| `CategoriesSlice.Store.Dispatch` | src/lib/categoriesSlice.js:72-139 | The in-place reducer leaves the state that the transition function gives. |
| `UserSlice.Next` | src/lib/userSlice.js:12-22 | No contract of its own. `UserSlice.Store.Dispatch` is proved against it. Its effects are in `UserSlice.ReducerEffects`, `UserSlice.SetAndClearForget` and `RouteGuard.GuardOverStore`. |
| `UserSlice.ReducerEffects` | src/lib/userSlice.js:12-22 | `setUser` stores the payload and ends loading. `clearUser` gives `(null, false)` and is idempotent. `setLoading` changes only the flag. |
| `UserSlice.SetAndClearForget` | src/lib/userSlice.js:12-19 | `setUser` and `clearUser` forget the previous state. A clear after a set is a plain clear. |
| `UserSlice.Store.constructor` | src/lib/userSlice.js:3-6 | The store starts with no user and loading set. |
| `UserSlice.Store.Dispatch` | src/lib/userSlice.js:12-22 | The in-place reducer leaves the state that the transition function gives. |
| `RouteGuard.Guard` | src/components/ProtectedAdminRoute.jsx:7-19 | No contract of its own; see `RouteGuard.GuardCases` and `RouteGuard.GuardOverStore`. |
| `RouteGuard.GuardCases` | src/components/ProtectedAdminRoute.jsx:7-19 | Spinner if and only if loading. Redirect to /login if and only if not loading and no user. The page if and only if not loading with a user. |
| `RouteGuard.GuardOverStore` | src/components/ProtectedAdminRoute.jsx:5-19 | On the user store: the initial state shows the spinner. A sign-out redirects. A set user shows the page. |
| `Login.OtpAfterKey` | src/pages/admin/Login/index.jsx:83-103 | No contract of its own. See `Login.KeyRules`, and `Login.LoginPage.KeyDown`, which is proved against it. |
| `Login.OtpCode` | src/pages/admin/Login/index.jsx:64-69 | No contract of its own. See `Login.OtpCodeMeaning`, and `Login.LoginPage.VerifyCode`, which returns it. |
| `Login.Sanitize` | src/pages/admin/Login/index.jsx:188-191 | No contract of its own. See `Login.SanitizeKeepsDigits`, and `Login.LoginPage.Type`, which uses it. |
| `Login.KeyRules` | src/pages/admin/Login/index.jsx:83-103 | A digit fills only its cell. Backspace clears its own cell when it holds something, else the cell before it, and at cell 0 does nothing. Other keys are ignored. The length and the cell invariant are kept. |
| `Login.Join` | src/pages/admin/Login/index.jsx:69 | One-character cells join to a string of the same length. |
| `Login.JoinSingles` | src/pages/admin/Login/index.jsx:69 | Character j of the joined code is cell j. |
| `Login.OtpCodeMeaning` | src/pages/admin/Login/index.jsx:66-69 | The code is refused if and only if a cell is empty. Otherwise it is the six digits in order. |
| `Login.SanitizeKeepsDigits` | src/pages/admin/Login/index.jsx:188-191 | A phone number keeps exactly its digits, in order, and sanitising twice is sanitising once. An e-mail is kept as typed. |
| `Login.LoginPage.constructor` | src/pages/admin/Login/index.jsx:16-19 | The page starts on the login step for a phone, with an empty field and six empty cells. |
| `Login.LoginPage.ChooseKind` | src/pages/admin/Login/index.jsx:141-157 | The switch buttons set the kind and empty the field. |
| `Login.LoginPage.Type` | src/pages/admin/Login/index.jsx:188-192 | Typing stores the sanitised text. |
| `Login.LoginPage.SendOtp` | src/pages/admin/Login/index.jsx:50-62 | A request is made if and only if the field is not empty. The code step opens if and only if the request got a truthy answer. |
| `Login.LoginPage.KeyDown` | src/pages/admin/Login/index.jsx:83-103 | The buffer becomes the key function of the old buffer, and stays six valid cells. |
| `Login.LoginPage.VerifyCode` | src/pages/admin/Login/index.jsx:64-69 | The code is refused if and only if a cell is empty. Otherwise it is the cells' digits in order. |
| `Login.LoginPage.BackToLogin` | src/pages/admin/Login/index.jsx:105-109 | It returns to the login step with an empty field and six empty cells. |
| `Js.Set` | src/pages/admin/EditProduct/index.jsx:61 | The state update of every editor's `handleChange` (`{ ...state, [field]: value }`). The same update appears at src/pages/admin/AddProduct/index.jsx:36-38, src/pages/admin/AddUser/index.jsx:28-30, src/pages/admin/EditUser/index.jsx:49-51, src/pages/admin/Profile/index.jsx:39-41 and src/pages/admin/Setting/index.jsx:49-51. The new state holds the new value under the given field, and every other field keeps its value. |
| `Upload.CheckUpload` | src/pages/admin/AddProduct/index.jsx:40-44 | A file is accepted if and only if one was chosen, its type contains "image" and its size is at most 5 MiB. No file gives the no-file verdict. |
| `Upload.HandleUpload` | src/pages/admin/AddProduct/index.jsx:40-49 | No contract of its own. See `Upload.UploadEffect`, `Upload.RemoveImageClears` and `AddProduct.UploadEnablesSubmit`. |
| `Upload.RemoveImage` | src/pages/admin/EditProduct/index.jsx:74-78 | No contract of its own; see `Upload.RemoveImageClears`. |
| `Upload.UploadEffect` | src/pages/admin/AddProduct/index.jsx:40-49 | A refused upload changes nothing. An accepted one stores the file and the preview, and no other field changes. |
| `Upload.UploadBoundary` | src/pages/admin/AddProduct/index.jsx:44 | Exactly 5 MiB is accepted and one byte more is not. A non-image is refused as such. |
| `Upload.UploadTypeExamples` | src/pages/admin/AddProduct/index.jsx:43 | The type test is a substring test: "image/png" and "x-image" pass, and "application/pdf" does not. |
| `Upload.RemoveImageClears` | src/pages/admin/EditProduct/index.jsx:74-78 | After removal no file is stored and no preview shows. Removal is idempotent and undoes an upload, and a later accepted upload overrides a removal. |
| `AddProduct.OrZero` | src/pages/admin/AddProduct/index.jsx:74-75 | No contract of its own. It is the value, or 0 when the value is falsy; see `AddProduct.PricesRead`. |
| `AddProduct.PriceParts` | src/pages/admin/AddProduct/index.jsx:73-78 | No contract of its own. It is the six parts that both product editors send. `AddProduct.AppendPrices` is proved against it, and `AddProduct.PricesRead`, `AddProduct.FlagsRead` and `EditProduct.ReadPastHead` read it. |
| `AddProduct.SubmitPayload` | src/pages/admin/AddProduct/index.jsx:71-79 | No contract of its own; see `AddProduct.SubmitMeaning`, `AddProduct.ReadPastTitle` and `AddProduct.NoDescriptionSent`. |
| `AddProduct.Submit` | src/pages/admin/AddProduct/index.jsx:67-79 | No contract of its own. `AddProduct.BuildSubmit` is proved against it. See `AddProduct.SubmitMeaning` and `AddProduct.ResetRestores`. |
| `AddProduct.ResetForm` | src/pages/admin/AddProduct/index.jsx:51-65 | No contract of its own; see `AddProduct.ResetRestores`. |
| `AddProduct.AfterSubmit` | src/pages/admin/AddProduct/index.jsx:81-92 | No contract of its own; see `AddProduct.ResetRestores`. |
| `AddProduct.Flag` | src/pages/admin/AddProduct/index.jsx:76-78 | A check box is sent as 1 if and only if it is ticked, and as 0 otherwise. |
| `AddProduct.BuildSubmit` | src/pages/admin/AddProduct/index.jsx:67-79 | The guard and the eight appends build the submission, or none without an image. |
| `AddProduct.AppendPrices` | src/pages/admin/AddProduct/index.jsx:73-78 | The six appends build the price parts. |
| `AddProduct.PricesRead` | src/pages/admin/AddProduct/index.jsx:73-75 | The category is read as chosen. An empty or missing price is read as 0. |
| `AddProduct.FlagsRead` | src/pages/admin/AddProduct/index.jsx:76-78 | The flags read as 1 or 0. The labour price is the cost, or 0, only under a ticked labour box, and 0 otherwise. |
| `AddProduct.SubmitMeaning` | src/pages/admin/AddProduct/index.jsx:67-79 | A submission is refused if and only if no image is set. Otherwise the title and image are read as set, and every other key as the price parts give it. |
| `AddProduct.ReadPastTitle` | src/pages/admin/AddProduct/index.jsx:72-79 | Under any other key, the submission reads as the price parts. |
| `AddProduct.NoDescriptionSent` | src/pages/admin/AddProduct/index.jsx:71-79 | The submission carries no description. |
| `AddProduct.ResetRestores` | src/pages/admin/AddProduct/index.jsx:51-65 | Reset gives the initial record with no preview and is idempotent. A successful save resets. A refused one keeps the editor. The reset editor cannot submit. |
| `AddProduct.UploadEnablesSubmit` | src/pages/admin/AddProduct/index.jsx:40-79 | After an accepted upload, the form submits with the chosen file as its image. |
| `EditProduct.Decode` | src/pages/admin/EditProduct/index.jsx:40-50 | No contract of its own. See `EditProduct.DecodedFields`, and its round trips with `EditProduct.EditPayload` in `EditProduct.DecodeEncodeFlags` and `EditProduct.DecodeEncodeRest`. |
| `EditProduct.Loaded` | src/pages/admin/EditProduct/index.jsx:39-51 | No contract of its own; see `EditProduct.LoadedMeaning`. |
| `EditProduct.ImagePart` | src/pages/admin/EditProduct/index.jsx:95 | No contract of its own. The image goes only when one is set; see `EditProduct.ImageEdits`. |
| `EditProduct.EditPayload` | src/pages/admin/EditProduct/index.jsx:86-95 | No contract of its own. `EditProduct.BuildEditPayload` is proved against it. See `EditProduct.EditPayloadMeaning`, `EditProduct.ReadPastHead`, `EditProduct.ImageEdits` and the two round-trip rows. |
| `EditProduct.BuildEditPayload` | src/pages/admin/EditProduct/index.jsx:86-95 | The appends build the edit payload. |
| `EditProduct.ReadPastHead` | src/pages/admin/EditProduct/index.jsx:89-94 | Under a price key, the edit payload reads as the shared price parts. |
| `EditProduct.EditPayloadMeaning` | src/pages/admin/EditProduct/index.jsx:87-95 | The description is sent, as "" when empty. An image is sent if and only if a new one was chosen. |
| `EditProduct.DecodedFields` | src/pages/admin/EditProduct/index.jsx:40-50 | The decoded flags are the truthiness of the stored ones. The category is `category_id`, and no image is chosen. |
| `EditProduct.DecodeEncodeFlags` | src/pages/admin/EditProduct/index.jsx:47-49 | Decoding then submitting without edits sends each flag as 1 if and only if it was truthy. The labour price is sent only under a truthy labour flag. |
| `EditProduct.DecodeEncodeRest` | src/pages/admin/EditProduct/index.jsx:40-95 | Decoding then submitting without edits sends the stored title and category, and no image. |
| `EditProduct.ImageEdits` | src/pages/admin/EditProduct/index.jsx:63-95 | After removal no image is sent. After an accepted upload the chosen file is sent. |
| `EditProduct.LoadedMeaning` | src/pages/admin/EditProduct/index.jsx:39-51 | A loaded product shows its stored image as preview, with no new image and the decoded fields. A failed load keeps the editor. |
| `UserFields.LabelOf` | src/pages/admin/AddUser/index.jsx:15-26 | No contract of its own; see `UserFields.FieldLabels`. |
| `UserFields.Required` | src/pages/admin/AddUser/index.jsx:58-62 | No contract of its own. `UserFields.CheckRequired` is proved against it; see `UserFields.RequiredMeaning`. |
| `UserFields.AllParts` | src/pages/admin/EditUser/index.jsx:84 | No contract of its own. `UserFields.AppendAll` is proved against it; see `UserFields.AllPartsRead` and `UserFields.ReadAfterFields`. |
| `UserFields.FilledParts` | src/pages/admin/AddUser/index.jsx:65-67 | No contract of its own. `UserFields.AppendFilled` is proved against it; see `UserFields.FilledPartsRead` and `UserFields.ReadAfterFields`. |
| `UserFields.CheckRequired` | src/pages/admin/EditUser/index.jsx:77-81 | The loop with its early return computes the required-field verdict. |
| `UserFields.RequiredMeaning` | src/pages/admin/AddUser/index.jsx:58-62 | The check passes if and only if every field is filled in. Otherwise it names the first empty field's label. |
| `UserFields.FieldLabels` | src/pages/admin/AddUser/index.jsx:15-26 | The four labels are Full Name, Email, Phone and Role. |
| `UserFields.AppendAll` | src/pages/admin/EditUser/index.jsx:84 | The loop appends one part per field, in order. |
| `UserFields.AppendFilled` | src/pages/admin/AddUser/index.jsx:65-67 | The loop appends one part per filled-in field, in order. |
| `UserFields.AllPartsRead` | src/pages/admin/EditUser/index.jsx:84 | A field is read back as its value if and only if it is among the fields. |
| `UserFields.FilledPartsRead` | src/pages/admin/AddUser/index.jsx:65-67 | A filled-in field is read back as its value. An empty one is not read at all. |
| `UserFields.ReadAfterFields` | src/pages/admin/AddUser/index.jsx:64-68 | Under a key outside the fields, what follows the field parts is read unchanged. |
| `AddUser.ImagePart` | src/pages/admin/AddUser/index.jsx:68 | No contract of its own. The image goes whenever one is set; see `AddUser.ImageEdits`. |
| `AddUser.SubmitPayload` | src/pages/admin/AddUser/index.jsx:64-68 | No contract of its own. `AddUser.HandleSubmit` returns it; see `AddUser.SubmitPayloadRead`, `AddUser.PassedSendsAll` and `AddUser.ImageEdits`. |
| `AddUser.HandleSubmit` | src/pages/admin/AddUser/index.jsx:55-68 | The check is the required-field check. A payload is built if and only if it passes. |
| `AddUser.SubmitPayloadRead` | src/pages/admin/AddUser/index.jsx:64-68 | Each field is sent only when filled in. The image is sent only when set. |
| `AddUser.PassedSendsAll` | src/pages/admin/AddUser/index.jsx:58-67 | After the check passes, the truthy-only payload holds all four fields. |
| `AddUser.ImageEdits` | src/pages/admin/AddUser/index.jsx:32-49 | After removal no image is sent. After an accepted upload the file is sent. |
| `EditUser.ImagePart` | src/pages/admin/EditUser/index.jsx:85 | No contract of its own. The image goes only when it is a new file; see `EditUser.ImageEdits`. |
| `EditUser.SubmitPayload` | src/pages/admin/EditUser/index.jsx:83-85 | No contract of its own. `EditUser.HandleSubmit` returns it; see `EditUser.SubmitPayloadRead` and `EditUser.ImageEdits`. |
| `EditUser.HandleSubmit` | src/pages/admin/EditUser/index.jsx:74-85 | The check is the required-field check. A payload is built if and only if it passes. |
| `EditUser.SubmitPayloadRead` | src/pages/admin/EditUser/index.jsx:83-85 | All four fields are always sent. The image is sent if and only if it is a file. |
| `EditUser.ImageEdits` | src/pages/admin/EditUser/index.jsx:53-70 | After removal no image is sent. After an accepted upload the file is sent. |
| `Profile.IsSuperAdmin` | src/pages/admin/Profile/index.jsx:69 | No contract of its own. It is the role test; see `Profile.EditableFields` and `Profile.RequiredForRole`. |
| `Profile.Editable` | src/pages/admin/Profile/index.jsx:68-71 | No contract of its own; see `Profile.EditableFields` and `Profile.RequiredForRole`. |
| `Profile.Disabled` | src/pages/admin/Profile/index.jsx:119 | No contract of its own. `Profile.EditableFields` shows that a field is disabled exactly when it is not editable. |
| `Profile.ImagePart` | src/pages/admin/Profile/index.jsx:81 | No contract of its own. The image goes only when it is a new file; see `Profile.SubmitMeaning`. |
| `Profile.SubmitPayload` | src/pages/admin/Profile/index.jsx:79-81 | No contract of its own. `Profile.HandleSubmit` returns it; see `Profile.SubmitMeaning`. |
| `Profile.EditableFields` | src/pages/admin/Profile/index.jsx:68-71 | The editable fields are all four for a super admin, and only the name otherwise. A field is editable if and only if its input is not disabled. |
| `Profile.HandleSubmit` | src/pages/admin/Profile/index.jsx:64-81 | The check runs over the editable fields. A payload is built if and only if it passes. |
| `Profile.SubmitMeaning` | src/pages/admin/Profile/index.jsx:79-81 | A field is sent if and only if its input is enabled. The image is sent if and only if it is a file. |
| `Profile.RequiredForRole` | src/pages/admin/Profile/index.jsx:73-77 | For anyone but a super admin, the check passes if and only if the name is filled in. For a super admin, all four fields are checked. |
| `Settings.FromResponse` | src/pages/admin/Setting/index.jsx:29-37 | No contract of its own; see `Settings.LoadedMeaning`. |
| `Settings.Loaded` | src/pages/admin/Setting/index.jsx:28-39 | No contract of its own; see `Settings.LoadedMeaning` and `Settings.LoadThenSubmit`. |
| `Settings.LoadedMeaning` | src/pages/admin/Setting/index.jsx:28-39 | A truthy response gives each text field from the response, or "", and no logo. The preview changes only for a truthy `logo_url`. A falsy response keeps the editor. |
| `Settings.SubmitPayload` | src/pages/admin/Setting/index.jsx:77-84 | No contract of its own; see `Settings.SubmitMeaning`, `Settings.AddressSent`, `Settings.ContactSent` and `Settings.LoadThenSubmit`. |
| `Settings.Submit` | src/pages/admin/Setting/index.jsx:75-84 | No contract of its own. `Settings.BuildSubmit` is proved against it; see `Settings.SubmitMeaning` and `Settings.LoadThenSubmit`. |
| `Settings.BuildSubmit` | src/pages/admin/Setting/index.jsx:75-84 | The guard and the appends build the submission, or none without a company name. |
| `Settings.AppendText` | src/pages/admin/Setting/index.jsx:80-84 | The five text appends build the text parts. |
| `Settings.TextKeys` | src/pages/admin/Setting/index.jsx:80-84 | The text parts use the five keys in order, never the logo's or the company name's. |
| `Settings.SubmitMeaning` | src/pages/admin/Setting/index.jsx:75-79 | A submission is refused if and only if there is no company name. The name is always sent, and the logo exactly when one is set. |
| `Settings.AddressSent` | src/pages/admin/Setting/index.jsx:80-82 | The two address lines and the telephone are sent as set. |
| `Settings.ContactSent` | src/pages/admin/Setting/index.jsx:83-84 | The toll-free number and the site address are sent as set. |
| `Settings.SkipFront` | src/pages/admin/Setting/index.jsx:77-84 | Under any key but the name's and the logo's, the submission reads as the text parts. |
| `Settings.LoadThenSubmit` | src/pages/admin/Setting/index.jsx:28-84 | Right after loading no logo is sent, and the form submits if and only if the server had a company name. After removal no logo is sent. |

## Left out

- **HTTP requests and async thunks.** Their answers are parameters wherever
  the state after an answer is modelled. Toasts, navigation and the modal
  windows are display-only.
- **Rendering.** JSX, styling, focus handling in the code cells, the
  clipboard and PDF generation are not modelled.
- **Floating point.** Amounts are exact reals, so rounding, `NaN` beyond
  "missing or unparseable reads as 0", and locale formatting are not
  modelled.
- **Foreign parsers.** `JSON.parse`, `Number` on strings and `Date`/`dayjs`
  are parameters: an `Option` result, or an epoch or day number. What
  `JSON.stringify` keeps or drops inside a value is not modelled; a JSON
  part is a tagged value.
- **Browser file and preview APIs.** `FileReader` and `URL.createObjectURL`
  are not modelled; the preview they produce is a parameter of the upload.
- **How FormData turns values into strings.** A payload part carries the
  JavaScript value as it was appended.
- **Products that are not an array.** `formData.products` that is not an
  array is read as an empty list.
- **Prototype keys.** A `fieldNameMap` lookup of a key such as `constructor`
  is not modelled, and neither is case folding beyond ASCII.
- **Integer-like object keys.** JavaScript lists keys such as `"5"` before
  the other keys, in ascending order. The model keeps every object's keys in
  insertion order, which matters only for the first tax name and for the order
  of the settings parts.
- Catalog.FindProduct: product ids are modelled as integers. The source's
  `p.id === parseInt(productId)` is strict, so a product id the server sends
  as a string never matches, and a key that `parseInt` reads as `NaN`
  matches nothing. The model does not represent either case.
- ProductSelection.FilterProducts: category ids are modelled as integers. In
  the source, `p.category?.id === Number(selectedCategory)` (line 61 of
  `src/components/admin/ProductSelection.jsx`) never matches a category id
  sent as a string. The model does not represent that case. The id list
  `formData.products` is modelled as arbitrary values, so removal does keep
  a non-string id (`ProductSelection.NonStringIdSurvives`).
- **Object identity.** `===` on objects is reference equality in JavaScript.
  Ids are compared as values here.
- **The refetch after a deletion.** It is modelled as a separate `Fetched`
  step, not as part of `ConfirmDelete`.
- **The picker's product fetch.** The fetch in
  `src/components/admin/ProductSelection.jsx` and its `cancelled` flag are
  concurrency, so they are not modelled. The filter is modelled on the list
  it yields.
- **Other effects not modelled:**
  - the profile page's copy of the signed-in user into local state;
  - the user editor's fetch and preview path;
  - the login page's redirect of a signed-in user;
  - the new-product editor's category fetch.
- **The create wizard's event step crashes.** The create wizard renders the
  event step without `setFormData`, so the day-count effect would call
  `undefined`. This crash is not modelled. The event step's model assumes
  the callback is given, as the edit wizard gives it.
- **The categories fetch payload.** A fulfilled fetch is taken to return an
  array of records.
- **Shared behaviour is cited once.** The upload guard and `removeImage` are
  the same code in all five editors. The required-field loop is also
  shared. Each is modelled once, in `Upload` and `UserFields`, and cited
  from one of the editors.
- **Display-only pages.** The order list, the order view, the product, user
  and category lists, the dashboard, the header, the sidebar, the routes and
  the layout are not modelled.

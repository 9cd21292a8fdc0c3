/** The product picker of the form wizard: it filters the catalog by category
    and search text, shows the inclusive day count of the event, and keeps two
    parent lists in step, the ids in `formData.products` and the product
    records in `selectedProducts`. */
module ProductSelection {
  import opened Js
  import opened Seqs

  /** A catalog entry as the picker holds it: its id already normalised with
      `String(id)`, its title and the id of its category, if any. */
  datatype Item = Item(id: string, title: string, categoryId: Option<int>)

  /** The entry `handleAddProduct` pushes onto `formData.products`: `String(p.id)`. */
  function ItemId(p: Item): Value { Str(p.id) }

  /** The id strings of a product list (`list.map((p) => String(p.id))`). */
  function Ids(list: seq<Item>): seq<Value> {
    Map(list, ItemId)
  }

  // ---------------------------------------------------------------------------
  // Rental days

  /** `calculateRentalDays`: 1 unless both dates are set; otherwise the
      inclusive count of days from start to end, at least 1. `startDay` and
      `endDay` are the two dates as day numbers (what `dayjs` parses the
      `YYYY-MM-DD` strings to); the times are not used. */
  function RentalDays(startDate: string, endDate: string, startDay: int, endDay: int): (d: int)
    ensures d >= 1
    ensures startDate == "" || endDate == "" ==> d == 1
  {
    if startDate != "" && endDate != "" then
      var days := endDay - startDay + 1;
      if days < 1 then 1 else days
    else 1
  }

  /** With both dates set the count is inclusive of both ends, and an end
      before the start counts as a single day. */
  lemma RentalDaysInclusive(startDate: string, endDate: string, startDay: int, endDay: int)
    requires startDate != "" && endDate != ""
    ensures endDay >= startDay ==> RentalDays(startDate, endDate, startDay, endDay) == endDay - startDay + 1
    ensures endDay < startDay ==> RentalDays(startDate, endDate, startDay, endDay) == 1
    ensures RentalDays(startDate, endDate, startDay, startDay) == 1
  {
  }

  /** A later end never counts fewer days. */
  lemma RentalDaysMonotone(startDate: string, endDate: string, startDay: int, e1: int, e2: int)
    requires e1 <= e2
    ensures RentalDays(startDate, endDate, startDay, e1) <= RentalDays(startDate, endDate, startDay, e2)
  {
  }

  // ---------------------------------------------------------------------------
  // Filtering

  /** `p.category?.id === Number(selectedCategory)`. */
  function InCategory(category: int): Item -> bool {
    (p: Item) => p.categoryId == Some(category)
  }

  /** `p.title.toLowerCase().includes(searchTerm.toLowerCase())`. */
  function MatchesSearch(searchTerm: string): Item -> bool {
    (p: Item) => Includes(ToLower(p.title), ToLower(searchTerm))
  }

  /** The filter effect. `selectedCategory` is the dropdown value: None for
      "All Categories" (the empty string), otherwise the category id. The
      search applies only when the trimmed term is non-empty, and then
      matches the untrimmed term. */
  function FilterProducts(all: seq<Item>, selectedCategory: Option<int>, searchTerm: string): seq<Item> {
    var byCategory := if selectedCategory.Some? then Filter(all, InCategory(selectedCategory.value)) else all;
    if !IsBlank(searchTerm) then Filter(byCategory, MatchesSearch(searchTerm)) else byCategory
  }

  /** The shown list keeps the catalog's order. */
  lemma FilteredIsSublist(all: seq<Item>, selectedCategory: Option<int>, searchTerm: string)
    ensures Subsequence(FilterProducts(all, selectedCategory, searchTerm), all)
  {
    if selectedCategory.Some? {
      var byCategory := Filter(all, InCategory(selectedCategory.value));
      FilterIsSubsequence(all, InCategory(selectedCategory.value));
      if !IsBlank(searchTerm) {
        FilterIsSubsequence(byCategory, MatchesSearch(searchTerm));
        SubsequenceTransitive(Filter(byCategory, MatchesSearch(searchTerm)), byCategory, all);
      }
    } else if !IsBlank(searchTerm) {
      FilterIsSubsequence(all, MatchesSearch(searchTerm));
    } else {
      SubsequenceReflexive(all);
    }
  }

  /** A product is shown exactly when it is in the catalog, in the chosen
      category (if one is chosen) and matching the search (if the trimmed
      search is non-empty). */
  lemma FilteredMembership(all: seq<Item>, selectedCategory: Option<int>, searchTerm: string, p: Item)
    ensures p in FilterProducts(all, selectedCategory, searchTerm) <==>
              p in all &&
              (selectedCategory.Some? ==> p.categoryId == selectedCategory) &&
              (!IsBlank(searchTerm) ==> Includes(ToLower(p.title), ToLower(searchTerm)))
  {
    var byCategory := if selectedCategory.Some? then Filter(all, InCategory(selectedCategory.value)) else all;
    if selectedCategory.Some? {
      FilterMembership(all, InCategory(selectedCategory.value), p);
    }
    if !IsBlank(searchTerm) {
      FilterMembership(byCategory, MatchesSearch(searchTerm), p);
    }
  }

  /** With neither filter set every product is shown. */
  lemma NoFilterShowsAll(all: seq<Item>, searchTerm: string)
    requires IsBlank(searchTerm)
    ensures FilterProducts(all, None, searchTerm) == all
  {
  }

  /** A search of only spaces filters nothing, but a search with a leading
      space is matched untrimmed: " tv" does not find "TV". */
  lemma SearchIsUntrimmed()
    ensures FilterProducts([Item("1", "TV", None)], None, "   ") == [Item("1", "TV", None)]
    ensures FilterProducts([Item("1", "TV", None)], None, " tv") == []
  {
    LeadingSpaceMisses();
  }

  /** `trim` also strips the non-ASCII spaces: a search of a no-break space,
      an ideographic space and a byte order mark filters nothing either. */
  lemma UnicodeBlankSearchShowsAll()
    ensures FilterProducts([Item("1", "TV", None)], None, "\U{00A0}\U{3000}\U{FEFF}") == [Item("1", "TV", None)]
  {
    var t := "\U{00A0}\U{3000}\U{FEFF}";
    assert IsSpace(t[0]) && IsSpace(t[1]) && IsSpace(t[2]);
    assert IsBlank(t);
  }

  /** " tv" is not blank and is not part of "tv". */
  lemma LeadingSpaceMisses()
    ensures !IsBlank(" tv") && !MatchesSearch(" tv")(Item("1", "TV", None))
  {
    assert !IsBlank(" tv") by { assert !IsSpace(" tv"[1]); }
    var title := ToLower("TV");
    assert |title| == 2;
    assert !Includes(title[2..], " tv");
    assert !Includes(title[1..], " tv");
    assert !Includes(title, " tv");
  }

  // ---------------------------------------------------------------------------
  // The two selection lists

  /** `formData.products` and `selectedProducts` together. The id list holds
      whatever was loaded into it (`data.product_select || []` in the edit
      wizard), so an entry need not be a string. */
  datatype Lists = Lists(products: seq<Value>, selected: seq<Item>)

  /** The two lists agree: the id strings are those of the selected records. */
  predicate InSync(l: Lists) {
    l.products == Ids(l.selected)
  }

  /** `isProductSelected(id)`: some selected record has that id string. */
  predicate IsSelected(l: Lists, id: string) {
    Any(l.selected, (p: Item) => p.id == id)
  }

  /** `(pid) => pid !== idStr`: a strict comparison with the string. */
  function DropId(id: string): Value -> bool {
    (pid: Value) => pid != Str(id)
  }

  function DropItem(id: string): Item -> bool {
    (p: Item) => p.id != id
  }

  /** `handleAddProduct`: nothing when the product is already selected,
      otherwise its id string and its record are appended. */
  function AddTo(l: Lists, p: Item): Lists {
    if IsSelected(l, p.id) then l else Lists(l.products + [ItemId(p)], l.selected + [p])
  }

  /** `handleRemoveProduct`: every record with that id and every entry equal
      to the id string leave the lists. */
  function RemoveFrom(l: Lists, id: string): Lists {
    Lists(Filter(l.products, DropId(id)), Filter(l.selected, DropItem(id)))
  }

  /** `handleProductClick`. */
  function Toggle(l: Lists, p: Item): Lists {
    if IsSelected(l, p.id) then RemoveFrom(l, p.id) else AddTo(l, p)
  }

  /** Adding a selected product changes nothing, so adding twice is adding once. */
  lemma AddIdempotent(l: Lists, p: Item)
    ensures IsSelected(AddTo(l, p), p.id)
    ensures AddTo(AddTo(l, p), p) == AddTo(l, p)
  {
    if !IsSelected(l, p.id) {
      var s := l.selected + [p];
      assert s[|s| - 1].id == p.id;
    }
  }

  /** After a removal the id is no longer selected, and what stays keeps its order. */
  lemma RemoveUnselects(l: Lists, id: string)
    ensures !IsSelected(RemoveFrom(l, id), id)
    ensures Str(id) !in RemoveFrom(l, id).products
    ensures Subsequence(RemoveFrom(l, id).products, l.products)
    ensures Subsequence(RemoveFrom(l, id).selected, l.selected)
  {
    FilterMembership(l.products, DropId(id), Str(id));
    FilterIsSubsequence(l.products, DropId(id));
    FilterIsSubsequence(l.selected, DropItem(id));
  }

  /** Removal keeps every other entry: one with another id is in a list
      afterwards exactly when it was before. */
  lemma RemoveKeepsOthers(l: Lists, id: string, pid: Value, p: Item)
    ensures pid != Str(id) ==> (pid in RemoveFrom(l, id).products <==> pid in l.products)
    ensures p.id != id ==> (p in RemoveFrom(l, id).selected <==> p in l.selected)
  {
    FilterMembership(l.products, DropId(id), pid);
    FilterMembership(l.selected, DropItem(id), p);
  }

  /** Add and remove keep the two lists in step. */
  lemma SyncPreserved(l: Lists, p: Item, id: string)
    requires InSync(l)
    ensures InSync(AddTo(l, p))
    ensures InSync(RemoveFrom(l, id))
    ensures InSync(Toggle(l, p))
  {
    forall x ensures DropItem(id)(x) == DropId(id)(ItemId(x)) { }
    MapFilter(l.selected, ItemId, DropId(id), DropItem(id));
    forall x ensures DropItem(p.id)(x) == DropId(p.id)(ItemId(x)) { }
    MapFilter(l.selected, ItemId, DropId(p.id), DropItem(p.id));
    if !IsSelected(l, p.id) {
      assert Ids(l.selected + [p]) == Ids(l.selected) + [ItemId(p)] by {
        var s := l.selected + [p];
        assert s[..|s| - 1] == l.selected;
      }
    }
  }

  /** Nothing selected carries the id of an unselected product, and in step
      neither does an id string. */
  lemma UnselectedAbsent(l: Lists, id: string)
    requires InSync(l) && !IsSelected(l, id)
    ensures forall i :: 0 <= i < |l.selected| ==> DropItem(id)(l.selected[i])
    ensures forall i :: 0 <= i < |l.products| ==> DropId(id)(l.products[i])
  {
    forall i | 0 <= i < |l.selected| ensures DropItem(id)(l.selected[i]) {
      assert !((x: Item) => x.id == id)(l.selected[i]);
    }
    forall i | 0 <= i < |l.products| ensures DropId(id)(l.products[i]) {
      assert l.products[i] == ItemId(l.selected[i]);
      assert DropItem(id)(l.selected[i]);
    }
  }

  /** Removing an id that only the last entry carries undoes appending it. */
  lemma RemoveUndoesAppend<T>(s: seq<T>, x: T, keep: T -> bool)
    requires forall i :: 0 <= i < |s| ==> keep(s[i])
    requires !keep(x)
    ensures Filter(s + [x], keep) == s
  {
    FilterAppend(s, keep, x);
    FilterKeepsAll(s, keep);
  }

  /** Toggling an unselected product twice gives back both lists as they were. */
  lemma ToggleTwiceRestores(l: Lists, p: Item)
    requires InSync(l) && !IsSelected(l, p.id)
    ensures Toggle(Toggle(l, p), p) == l
  {
    var l1 := Lists(l.products + [ItemId(p)], l.selected + [p]);
    assert Toggle(l, p) == l1;
    assert IsSelected(l1, p.id) by { assert l1.selected[|l1.selected| - 1].id == p.id; }
    assert Toggle(l1, p) == RemoveFrom(l1, p.id);
    UnselectedAbsent(l, p.id);
    RemoveUndoesAppend(l.selected, p, DropItem(p.id));
    RemoveUndoesAppend(l.products, ItemId(p), DropId(p.id));
  }

  /** The strict comparison keeps a loaded id that is not a string: the record
      of product 5 leaves `selectedProducts`, but the number 5 loaded from
      `product_select` stays in `formData.products`. Lists that were in step
      before the removal are then no longer in step. */
  lemma NonStringIdSurvives(l: Lists, id: string, v: Value)
    requires v in l.products && !v.Str?
    ensures v in RemoveFrom(l, id).products
    ensures var l0 := Lists([Num(5.0)], [Item("5", "TV", None)]);
            RemoveFrom(l0, "5") == Lists([Num(5.0)], []) && !InSync(RemoveFrom(l0, "5"))
  {
    FilterMembership(l.products, DropId(id), v);
    var l0 := Lists([Num(5.0)], [Item("5", "TV", None)]);
    assert Filter(l0.products, DropId("5")) == [Num(5.0)] by {
      FilterKeepsAll(l0.products, DropId("5"));
    }
    assert !DropItem("5")(l0.selected[0]);
    assert Filter(l0.selected, DropItem("5")) == [] by {
      assert l0.selected == [] + [l0.selected[0]];
      FilterAppend([], DropItem("5"), l0.selected[0]);
    }
  }

  /** The picker's state: the two parent lists it edits. */
  class Selection {
    var products: seq<Value>
    var selected: seq<Item>

    function State(): Lists
      reads this
    {
      Lists(products, selected)
    }

    constructor(products0: seq<Value>, selected0: seq<Item>)
      ensures State() == Lists(products0, selected0)
    {
      products := products0;
      selected := selected0;
    }

    /** `isProductSelected`. */
    function IsProductSelected(id: string): bool
      reads this
    {
      IsSelected(State(), id)
    }

    method AddProduct(p: Item)
      modifies this
      ensures State() == AddTo(old(State()), p)
    {
      if IsProductSelected(p.id) {
        return;
      }
      products := products + [ItemId(p)];
      selected := selected + [p];
    }

    method RemoveProduct(id: string)
      modifies this
      ensures State() == RemoveFrom(old(State()), id)
    {
      products := Filter(products, DropId(id));
      selected := Filter(selected, DropItem(id));
    }

    method ProductClick(p: Item)
      modifies this
      ensures State() == Toggle(old(State()), p)
    {
      if IsProductSelected(p.id) {
        RemoveProduct(p.id);
      } else {
        AddProduct(p);
      }
    }
  }
}

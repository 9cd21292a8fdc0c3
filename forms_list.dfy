/** The list of order forms: its pagination (a window of at most five page
    buttons and the "Showing a–b of n forms" line), the status badge, and
    the list updates after a form is deleted or duplicated. */
module FormsList {
  import opened Js
  import opened Seqs
  import opened Records

  // ---------------------------------------------------------------------------
  // Page window

  /** `Array.from({ length: totalPages }).map((_, i) => i + 1)`. */
  function Pages(total: nat): (r: seq<int>)
    ensures |r| == total
    ensures forall i :: 0 <= i < total ==> r[i] == i + 1
  {
    if total == 0 then [] else Pages(total - 1) + [total]
  }

  /** The filter of the page buttons. */
  function InWindow(total: int, page: int): int -> bool {
    (p: int) =>
      if total <= 5 then true
      else if page <= 3 then p <= 5
      else if page >= total - 2 then p >= total - 4
      else p >= page - 2 && p <= page + 2
  }

  /** The page buttons shown. */
  function PageWindow(total: nat, page: int): seq<int> {
    Filter(Pages(total), InWindow(total, page))
  }

  /** The consecutive pages `lo`, …, `hi`. */
  function Range(lo: int, hi: int): (r: seq<int>)
    ensures |r| == if hi < lo then 0 else hi - lo + 1
    ensures forall i :: 0 <= i < |r| ==> r[i] == lo + i
    decreases hi - lo
  {
    if hi < lo then [] else Range(lo, hi - 1) + [hi]
  }

  /** The first and last page of the window. */
  function WindowStart(total: int, page: int): int {
    if total <= 5 || page <= 3 then 1 else if page >= total - 2 then total - 4 else page - 2
  }

  function WindowEnd(total: int, page: int): int {
    if total <= 5 then total else if page <= 3 then 5 else if page >= total - 2 then total else page + 2
  }

  /** On the pages that exist, the filter keeps exactly those from the
      window's start to its end. */
  lemma InWindowIsInterval(total: nat, page: int, p: int)
    requires 1 <= page <= total && 1 <= p <= total
    ensures InWindow(total, page)(p) <==> WindowStart(total, page) <= p <= WindowEnd(total, page)
  {
  }

  function Min(a: int, b: int): int {
    if a < b then a else b
  }

  /** Filtering the first `n` pages leaves the part of the window up to `n`. */
  lemma {:induction false} FilterPrefix(total: nat, page: int, n: nat)
    requires 1 <= page <= total && n <= total
    ensures Filter(Pages(n), InWindow(total, page)) == Range(WindowStart(total, page), Min(n, WindowEnd(total, page)))
  {
    var lo := WindowStart(total, page);
    var hi := WindowEnd(total, page);
    var w := InWindow(total, page);
    if n > 0 {
      FilterPrefix(total, page, n - 1);
      var before := Filter(Pages(n - 1), w);
      assert before == Range(lo, Min(n - 1, hi));
      FilterAppend(Pages(n - 1), w, n);
      assert Filter(Pages(n), w) == before + (if w(n) then [n] else []);
      InWindowIsInterval(total, page, n);
      if n < lo {
        assert Filter(Pages(n), w) == [];
      } else if n <= hi {
        assert Range(lo, n) == Range(lo, n - 1) + [n];
      } else {
        assert Min(n, hi) == Min(n - 1, hi);
      }
    }
  }

  /** The window is the run of pages from its start to its end. */
  lemma WindowIsRange(total: nat, page: int)
    requires 1 <= page <= total
    ensures PageWindow(total, page) == Range(WindowStart(total, page), WindowEnd(total, page))
  {
    FilterPrefix(total, page, total);
  }

  /** For a page that exists, the window is strictly increasing, lies within
      the pages, holds min(5, total) buttons and includes the current page. */
  lemma WindowProperties(total: nat, page: int)
    requires 1 <= page <= total
    ensures var w := PageWindow(total, page);
            (forall i, j :: 0 <= i < j < |w| ==> w[i] < w[j]) &&
            (forall i :: 0 <= i < |w| ==> 1 <= w[i] <= total) &&
            |w| == (if total < 5 then total else 5) &&
            page in w
  {
    WindowIsRange(total, page);
    var w := PageWindow(total, page);
    var lo := WindowStart(total, page);
    assert w[page - lo] == page;
  }

  /** Prev is disabled on the first page and Next on the last, so on a page
      that exists each enabled button leads to a page that exists. */
  lemma StepsStayInRange(total: nat, page: int)
    requires 1 <= page <= total
    ensures !PrevDisabled(page) ==> 1 <= page - 1 <= total
    ensures !NextDisabled(page, total) ==> 1 <= page + 1 <= total
  {
  }

  /** `disabled={page === 1}`. */
  predicate PrevDisabled(page: int) {
    page == 1
  }

  /** `disabled={page === totalPages}`. */
  predicate NextDisabled(page: int, total: int) {
    page == total
  }

  // ---------------------------------------------------------------------------
  // Range line

  /** The first and last position shown, or None for the "0" text. */
  function ShownRange(page: int, perPage: int, totalItems: int, count: nat): Option<(int, int)> {
    if count > 0 then Some(((page - 1) * perPage + 1, if page * perPage < totalItems then page * perPage else totalItems))
    else None
  }

  /** The line under the table. */
  function RangeLabel(page: int, perPage: int, totalItems: int, count: nat): string {
    var shown := ShownRange(page, perPage, totalItems, count);
    "Showing " + (if shown.Some? then IntToString(shown.value.0) + "–" + IntToString(shown.value.1) else "0") +
    " of " + IntToString(totalItems) + " form" + (if totalItems != 1 then "s" else "")
  }

  /** The range starts one past the pages before and never passes the page
      size or the total; the word is plural for every total but one. */
  lemma RangeLabelMeaning(page: int, perPage: int, totalItems: int, count: nat)
    requires count > 0 && page >= 1 && perPage >= 1
    ensures var (first, last) := ShownRange(page, perPage, totalItems, count).value;
            first == (page - 1) * perPage + 1 && last <= page * perPage && last <= totalItems &&
            (last == page * perPage || last == totalItems) &&
            last - first < perPage
    ensures var s := RangeLabel(page, perPage, totalItems, count);
            (s[|s| - 1] == 's') <==> totalItems != 1
  {
  }

  // ---------------------------------------------------------------------------
  // Status badge

  /** `getStatusBadge`: the text and whether the badge is highlighted. */
  function StatusBadge(status: Value): (string, bool) {
    (if status == Str("publish") then "Publish" else "Draft",
     status == Str("active") || status == Str("publish"))
  }

  /** A published form reads "Publish" and is highlighted; an active one is
      highlighted but reads "Draft"; anything else reads "Draft" plain. */
  lemma StatusBadgeCases(status: Value)
    ensures StatusBadge(status).0 == "Publish" <==> status == Str("publish")
    ensures StatusBadge(status).1 <==> status in {Str("active"), Str("publish")}
    ensures StatusBadge(Str("active")) == ("Draft", true)
  {
  }

  // ---------------------------------------------------------------------------
  // Delete and duplicate

  /** `(prevPage) => (forms.length === 1 && prevPage > 1 ? prevPage - 1 : prevPage)`,
      where `forms` is the list from before the delete. */
  function PageAfterDelete(page: int, countBefore: nat): int {
    if countBefore == 1 && page > 1 then page - 1 else page
  }

  /** The page steps back by one exactly when the list held one form and the
      page was past the first; a page of at least 1 stays at least 1. */
  lemma PageAfterDeleteMeaning(page: int, countBefore: nat)
    requires page >= 1
    ensures PageAfterDelete(page, countBefore) >= 1
    ensures PageAfterDelete(page, countBefore) == page - 1 <==> countBefore == 1 && page > 1
    ensures PageAfterDelete(page, countBefore) != page ==> PageAfterDelete(page, countBefore) == page - 1
  {
  }

  /** The title the duplicate dialog proposes. */
  function CopyTitle(title: string): string {
    title + " (Copy)"
  }

  /** `newFormData`: the original's fields, the chosen title and status "draft". */
  function DuplicateRequest(original: Obj, newTitle: string): Obj {
    map[
      "user_id" := Get(original, "user_id"),
      "form_title" := Str(newTitle),
      "contact_name" := Get(original, "contact_name"),
      "contact_email" := Get(original, "contact_email"),
      "contact_phone" := Get(original, "contact_phone"),
      "company_name" := Get(original, "company_name"),
      "event_info" := Get(original, "event_info"),
      "product_select" := Get(original, "product_select"),
      "other_settings" := Get(original, "other_settings"),
      "status" := Str("draft")
    ]
  }

  /** The fields a copy takes over from the original. */
  const COPIED_FIELDS: seq<string> := ["user_id", "contact_name", "contact_email", "contact_phone", "company_name",
                                       "event_info", "product_select", "other_settings"]

  /** A copy is always a draft with the new title, and it carries the
      original's contact, event, product and settings data, but no id and
      no access code. */
  lemma DuplicateRequestMeaning(original: Obj, newTitle: string, i: nat)
    requires i < |COPIED_FIELDS|
    ensures Get(DuplicateRequest(original, newTitle), "status") == Str("draft")
    ensures Get(DuplicateRequest(original, newTitle), "form_title") == Str(newTitle)
    ensures Get(DuplicateRequest(original, newTitle), COPIED_FIELDS[i]) == Get(original, COPIED_FIELDS[i])
    ensures !("id" in DuplicateRequest(original, newTitle)) && !("access_code" in DuplicateRequest(original, newTitle))
  {
    CopiedField(original, newTitle, i);
  }

  /** The `i`-th copied field of the copy is the original's. */
  lemma CopiedField(original: Obj, newTitle: string, i: nat)
    requires i < |COPIED_FIELDS|
    ensures Get(DuplicateRequest(original, newTitle), COPIED_FIELDS[i]) == Get(original, COPIED_FIELDS[i])
  {
    var r := DuplicateRequest(original, newTitle);
    if i == 0 {
      assert r["user_id"] == Get(original, "user_id");
    } else if i == 1 {
      assert r["contact_name"] == Get(original, "contact_name");
    } else if i == 2 {
      assert r["contact_email"] == Get(original, "contact_email");
    } else if i == 3 {
      assert r["contact_phone"] == Get(original, "contact_phone");
    } else if i == 4 {
      assert r["company_name"] == Get(original, "company_name");
    } else if i == 5 {
      assert r["event_info"] == Get(original, "event_info");
    } else if i == 6 {
      assert r["product_select"] == Get(original, "product_select");
    } else {
      assert r["other_settings"] == Get(original, "other_settings");
    }
  }

  /** The proposed title starts with the original one and ends with " (Copy)". */
  lemma CopyTitleMeaning(title: string)
    ensures StartsWith(CopyTitle(title), title)
    ensures |CopyTitle(title)| == |title| + 7 && CopyTitle(title)[|title|..] == " (Copy)"
  {
    assert CopyTitle(title)[..|title|] == title;
  }

  /** The list page's state. */
  class FormsPage {
    var forms: seq<Obj>
    var page: int
    var totalPages: int
    var totalItems: int
    /** `deleteModal.formId` and `duplicateModal.formId`/`newTitle`. */
    var deleteId: Value
    var duplicateId: Value
    var newTitle: string

    constructor()
      ensures forms == [] && page == 1 && totalPages == 1 && totalItems == 0
      ensures deleteId == Null && duplicateId == Null && newTitle == ""
    {
      forms := [];
      page := 1;
      totalPages := 1;
      totalItems := 0;
      deleteId := Null;
      duplicateId := Null;
      newTitle := "";
    }

    /** `fetchForms` after a successful response. */
    method Fetched(data: seq<Obj>, lastPage: int, total: int)
      modifies this
      ensures forms == data && totalPages == lastPage && totalItems == total
      ensures page == old(page) && deleteId == old(deleteId) && duplicateId == old(duplicateId) && newTitle == old(newTitle)
    {
      forms := data;
      totalPages := lastPage;
      totalItems := total;
    }

    /** `handleDelete(id)`: the dialog remembers the form. */
    method OpenDelete(id: Value)
      modifies this
      ensures deleteId == id
      ensures forms == old(forms) && page == old(page) && totalPages == old(totalPages) && totalItems == old(totalItems)
      ensures duplicateId == old(duplicateId) && newTitle == old(newTitle)
    {
      deleteId := id;
    }

    /** `confirmDelete` once the server has answered: on success the form
        leaves the list and the page may step back; either way the dialog
        closes. The reload that follows is `Fetched`. */
    method ConfirmDelete(deleted: bool)
      modifies this
      ensures deleted ==> forms == WithoutId(old(forms), old(deleteId)) && page == PageAfterDelete(old(page), |old(forms)|)
      ensures !deleted ==> forms == old(forms) && page == old(page)
      ensures deleteId == Null
      ensures totalPages == old(totalPages) && totalItems == old(totalItems)
      ensures duplicateId == old(duplicateId) && newTitle == old(newTitle)
    {
      if deleted {
        var before := |forms|;
        forms := WithoutId(forms, deleteId);
        if before == 1 && page > 1 {
          page := page - 1;
        }
      }
      deleteId := Null;
    }

    /** `handleDuplicate(id, title)`: the dialog proposes "title (Copy)". */
    method OpenDuplicate(id: Value, title: string)
      modifies this
      ensures duplicateId == id && newTitle == CopyTitle(title)
      ensures forms == old(forms) && page == old(page) && deleteId == old(deleteId)
      ensures totalPages == old(totalPages) && totalItems == old(totalItems)
    {
      duplicateId := id;
      newTitle := title + " (Copy)";
    }

    /** `confirmDuplicate`: `request` is what is posted (None when the
        original is no longer in the list); `created` is the server's answer
        (None when the post fails). The new form goes to the end of the list
        and the dialog closes. */
    method ConfirmDuplicate(created: Option<Obj>) returns (request: Option<Obj>)
      modifies this
      ensures var original := FindById(old(forms), old(duplicateId));
              request == (if original.Some? then Some(DuplicateRequest(original.value, old(newTitle))) else None)
      ensures forms == (if request.Some? && created.Some? then old(forms) + [created.value] else old(forms))
      ensures duplicateId == Null && newTitle == ""
      ensures page == old(page) && deleteId == old(deleteId) && totalPages == old(totalPages) && totalItems == old(totalItems)
    {
      var original := FindById(forms, duplicateId);
      request := None;
      if original.Some? {
        request := Some(DuplicateRequest(original.value, newTitle));
        if created.Some? {
          forms := forms + [created.value];
        }
      }
      duplicateId := Null;
      newTitle := "";
    }
  }
}

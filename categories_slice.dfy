/** The product-category store: the list of categories, a flag for the
    initial fetch, a flag for add/update/delete requests, and the last error.
    Each reducer is one action; the requests themselves are not modelled,
    only the action their outcome dispatches. */
module CategoriesSlice {
  import opened Js
  import opened Seqs
  import opened Records

  datatype State = State(items: seq<Obj>, loading: bool, error: Value, actionLoading: bool)

  /** The actions the store handles: its own two reducers and the three
      outcomes of each request. */
  datatype Action =
    | ClearError
    | SetCategories(categories: seq<Obj>)
    | FetchPending | FetchFulfilled(fetched: seq<Obj>) | FetchRejected(fetchError: Value)
    | AddPending | AddFulfilled(added: Obj) | AddRejected(addError: Value)
    | UpdatePending | UpdateFulfilled(updated: Obj) | UpdateRejected(updateError: Value)
    | DeletePending | DeleteFulfilled(deletedId: Value) | DeleteRejected(deleteError: Value)

  const INITIAL: State := State([], false, Null, false)

  /** The state after one action. */
  function Next(s: State, a: Action): State {
    match a
    case ClearError => s.(error := Null)
    case SetCategories(c) => s.(items := c)
    case FetchPending => s.(loading := true, error := Null)
    case FetchFulfilled(c) => s.(loading := false, items := c)
    case FetchRejected(e) => s.(loading := false, error := e)
    case AddPending => s.(actionLoading := true, error := Null)
    case AddFulfilled(c) => s.(actionLoading := false, items := s.items + [c])
    case AddRejected(e) => s.(actionLoading := false, error := e)
    case UpdatePending => s.(actionLoading := true, error := Null)
    case UpdateFulfilled(c) => s.(actionLoading := false, items := ReplaceById(s.items, c))
    case UpdateRejected(e) => s.(actionLoading := false, error := e)
    case DeletePending => s.(actionLoading := true, error := Null)
    case DeleteFulfilled(id) => s.(actionLoading := false, items := WithoutId(s.items, id))
    case DeleteRejected(e) => s.(actionLoading := false, error := e)
  }

  predicate IsFetch(a: Action) {
    a.FetchPending? || a.FetchFulfilled? || a.FetchRejected?
  }

  predicate IsRequest(a: Action) {
    a.AddPending? || a.AddFulfilled? || a.AddRejected? ||
    a.UpdatePending? || a.UpdateFulfilled? || a.UpdateRejected? ||
    a.DeletePending? || a.DeleteFulfilled? || a.DeleteRejected?
  }

  /** Setting the categories and a fulfilled fetch replace the list whatever
      it held; the fetch also ends the loading. */
  lemma ReplaceWholesale(s: State, t: State, c: seq<Obj>)
    ensures Next(s, SetCategories(c)).items == c && Next(t, SetCategories(c)).items == c
    ensures Next(s, FetchFulfilled(c)).items == c && !Next(s, FetchFulfilled(c)).loading
  {
  }

  /** A fulfilled add keeps the old list as a prefix and grows it by one, the
      new category last. */
  lemma AddAppends(s: State, c: Obj)
    ensures var items := Next(s, AddFulfilled(c)).items;
            |items| == |s.items| + 1 && items[..|s.items|] == s.items && items[|s.items|] == c
  {
  }

  /** A fulfilled update keeps the length, replaces the first category with
      the same id, and with no such category changes nothing. */
  lemma UpdateReplacesFirst(s: State, c: Obj, i: nat)
    ensures |Next(s, UpdateFulfilled(c)).items| == |s.items|
    ensures (forall j :: 0 <= j < |s.items| ==> Get(s.items[j], "id") != Get(c, "id")) ==>
              Next(s, UpdateFulfilled(c)).items == s.items
    ensures i < |s.items| && Get(s.items[i], "id") == Get(c, "id") &&
            (forall j :: 0 <= j < i ==> Get(s.items[j], "id") != Get(c, "id")) ==>
              Next(s, UpdateFulfilled(c)).items == s.items[i := c]
  {
    ReplaceByIdMeaning(s.items, c);
    var items := Next(s, UpdateFulfilled(c)).items;
    if i < |s.items| && Get(s.items[i], "id") == Get(c, "id") &&
       (forall j :: 0 <= j < i ==> Get(s.items[j], "id") != Get(c, "id")) {
      assert forall j :: 0 <= j < |items| ==> items[j] == s.items[i := c][j];
    }
  }

  /** A fulfilled delete drops every category with the id and keeps the rest
      in order. */
  lemma DeleteRemoves(s: State, id: Value, c: Obj)
    ensures c in Next(s, DeleteFulfilled(id)).items <==> c in s.items && Get(c, "id") != id
    ensures Subsequence(Next(s, DeleteFulfilled(id)).items, s.items)
  {
    WithoutIdMeaning(s.items, id, c);
  }

  /** Each pending raises its own flag and clears the error; each rejection
      lowers its flag and records the error; no outcome of a fetch touches
      the request flag, and no request outcome touches the fetch flag. */
  lemma FlagsAndErrors(s: State, a: Action)
    ensures a.FetchPending? ==> Next(s, a).loading && Next(s, a).error == Null
    ensures a.AddPending? || a.UpdatePending? || a.DeletePending? ==> Next(s, a).actionLoading && Next(s, a).error == Null
    ensures a.FetchRejected? ==> !Next(s, a).loading && Next(s, a).error == a.fetchError && Next(s, a).items == s.items
    ensures a.AddRejected? ==> !Next(s, a).actionLoading && Next(s, a).error == a.addError && Next(s, a).items == s.items
    ensures a.UpdateRejected? ==> !Next(s, a).actionLoading && Next(s, a).error == a.updateError && Next(s, a).items == s.items
    ensures a.DeleteRejected? ==> !Next(s, a).actionLoading && Next(s, a).error == a.deleteError && Next(s, a).items == s.items
    ensures IsFetch(a) ==> Next(s, a).actionLoading == s.actionLoading
    ensures IsRequest(a) ==> Next(s, a).loading == s.loading
    ensures a.AddFulfilled? || a.UpdateFulfilled? || a.DeleteFulfilled? || a.FetchFulfilled? ==> Next(s, a).error == s.error
  {
  }

  /** Clearing the error changes nothing else, and clearing twice is
      clearing once. */
  lemma ClearErrorOnly(s: State)
    ensures Next(s, ClearError) == State(s.items, s.loading, Null, s.actionLoading)
    ensures Next(Next(s, ClearError), ClearError) == Next(s, ClearError)
  {
  }

  /** Deleting a category just added (under an id no other category has)
      gives back the list from before. */
  lemma DeleteUndoesAdd(s: State, c: Obj)
    requires forall j :: 0 <= j < |s.items| ==> Get(s.items[j], "id") != Get(c, "id")
    ensures Next(Next(s, AddFulfilled(c)), DeleteFulfilled(Get(c, "id"))).items == s.items
  {
    var id := Get(c, "id");
    var t := Next(s, AddFulfilled(c));
    assert t.items == s.items + [c];
    assert Next(t, DeleteFulfilled(id)).items == WithoutId(s.items + [c], id);
    WithoutAbsentId(s.items, id);
    FilterAppend(s.items, IdIsNot(id), c);
  }

  /** The store, updated in place by its reducers. */
  class Store {
    var items: seq<Obj>
    var loading: bool
    var error: Value
    var actionLoading: bool

    function Current(): State
      reads this
    {
      State(items, loading, error, actionLoading)
    }

    constructor()
      ensures Current() == INITIAL
    {
      items := [];
      loading := false;
      error := Null;
      actionLoading := false;
    }

    /** The reducer: each case assigns the fields it names and no other. */
    method Dispatch(a: Action)
      modifies this
      ensures Current() == Next(old(Current()), a)
    {
      match a {
        case ClearError =>
          error := Null;
        case SetCategories(c) =>
          items := c;
        case FetchPending =>
          loading := true;
          error := Null;
        case FetchFulfilled(c) =>
          loading := false;
          items := c;
        case FetchRejected(e) =>
          loading := false;
          error := e;
        case AddPending =>
          actionLoading := true;
          error := Null;
        case AddFulfilled(c) =>
          actionLoading := false;
          items := items + [c];
        case AddRejected(e) =>
          actionLoading := false;
          error := e;
        case UpdatePending =>
          actionLoading := true;
          error := Null;
        case UpdateFulfilled(c) =>
          actionLoading := false;
          var index := IndexOfId(items, Get(c, "id"));
          if index.Some? {
            items := items[index.value := c];
          }
        case UpdateRejected(e) =>
          actionLoading := false;
          error := e;
        case DeletePending =>
          actionLoading := true;
          error := Null;
        case DeleteFulfilled(id) =>
          actionLoading := false;
          items := WithoutId(items, id);
        case DeleteRejected(e) =>
          actionLoading := false;
          error := e;
      }
    }
  }
}

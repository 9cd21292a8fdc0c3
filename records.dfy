/** Lists of records identified by their `id` field, as the dashboard keeps
    its forms and its product categories: `findIndex`/`find` by id, the
    replacement of the found record, and `filter` by a different id. */
module Records {
  import opened Js
  import opened Seqs

  /** `items.findIndex((x) => x.id === id)`, None for -1. */
  function IndexOfId(items: seq<Obj>, id: Value): (r: Option<nat>)
    ensures r.Some? ==> r.value < |items| && Get(items[r.value], "id") == id &&
                        forall j :: 0 <= j < r.value ==> Get(items[j], "id") != id
    ensures r.None? <==> forall j :: 0 <= j < |items| ==> Get(items[j], "id") != id
  {
    if items == [] then None
    else if Get(items[0], "id") == id then Some(0)
    else
      var r := IndexOfId(items[1..], id);
      if r.None? then None else Some(r.value + 1)
  }

  /** `items.find((x) => x.id === id)`. */
  function FindById(items: seq<Obj>, id: Value): (r: Option<Obj>)
    ensures r.Some? ==> r.value in items && Get(r.value, "id") == id
    ensures r.None? <==> forall j :: 0 <= j < |items| ==> Get(items[j], "id") != id
  {
    var i := IndexOfId(items, id);
    if i.Some? then Some(items[i.value]) else None
  }

  /** The record whose id `x` carries takes the place of the first record
      with that id; without one the list stays as it is. */
  function ReplaceById(items: seq<Obj>, x: Obj): seq<Obj> {
    var i := IndexOfId(items, Get(x, "id"));
    if i.Some? then items[i.value := x] else items
  }

  /** The length never changes; with no record of that id nothing changes;
      otherwise exactly the first such record is replaced. */
  lemma ReplaceByIdMeaning(items: seq<Obj>, x: Obj)
    ensures |ReplaceById(items, x)| == |items|
    ensures (forall j :: 0 <= j < |items| ==> Get(items[j], "id") != Get(x, "id")) ==> ReplaceById(items, x) == items
    ensures forall i :: 0 <= i < |items| && Get(items[i], "id") == Get(x, "id") &&
                        (forall j :: 0 <= j < i ==> Get(items[j], "id") != Get(x, "id")) ==>
              ReplaceById(items, x)[i] == x &&
              forall j :: 0 <= j < |items| && j != i ==> ReplaceById(items, x)[j] == items[j]
  {
    var r := IndexOfId(items, Get(x, "id"));
    forall i | 0 <= i < |items| && Get(items[i], "id") == Get(x, "id") &&
               (forall j :: 0 <= j < i ==> Get(items[j], "id") != Get(x, "id"))
      ensures r == Some(i)
    {
      assert r.Some?;
    }
  }

  /** `(x) => x.id !== id`. */
  function IdIsNot(id: Value): Obj -> bool {
    (x: Obj) => Get(x, "id") != id
  }

  /** `items.filter((x) => x.id !== id)`. */
  function WithoutId(items: seq<Obj>, id: Value): seq<Obj> {
    Filter(items, IdIsNot(id))
  }

  /** No record with the id survives, every other record does, in order. */
  lemma WithoutIdMeaning(items: seq<Obj>, id: Value, x: Obj)
    ensures x in WithoutId(items, id) <==> x in items && Get(x, "id") != id
    ensures Subsequence(WithoutId(items, id), items)
    ensures forall i :: 0 <= i < |WithoutId(items, id)| ==> Get(WithoutId(items, id)[i], "id") != id
  {
    FilterMembership(items, IdIsNot(id), x);
    FilterIsSubsequence(items, IdIsNot(id));
  }

  /** Removing an id that no record has keeps the list. */
  lemma {:induction false} WithoutAbsentId(items: seq<Obj>, id: Value)
    requires forall j :: 0 <= j < |items| ==> Get(items[j], "id") != id
    ensures WithoutId(items, id) == items
  {
    if items != [] {
      var init := items[..|items| - 1];
      WithoutAbsentId(init, id);
      assert items == init + [items[|items| - 1]];
      FilterAppend(init, IdIsNot(id), items[|items| - 1]);
    }
  }
}

/** The items slice of the Redux store (src/store/slices/itemsSlice.js). Each
    reducer assigns fields of the draft state in place, so the slice is a class
    whose methods are the reducers. The list operations the reducers use
    (`findIndex` on `id`, replacing one element, `filter` on `id`) are
    specified by functions on sequences with their own properties. */
module ItemsSlice {
  import opened Js
  import opened Items

  datatype SliceState = SliceState(items: seq<Item>, currentItem: Option<Item>, loading: bool,
                                   error: Option<string>, createLoading: bool, updateLoading: bool,
                                   deleteLoading: bool)

  const InitialState := SliceState([], None, false, None, false, false, false)

  /** `items.findIndex(item => item.id === id)`: the first index whose `id`
      matches, or -1 when none does. */
  function FirstIndexById(items: seq<Item>, id: Option<string>): (i: int)
    ensures -1 <= i < |items|
    ensures i == -1 <==> forall k :: 0 <= k < |items| ==> items[k].id != id
    ensures 0 <= i ==> items[i].id == id && forall k :: 0 <= k < i ==> items[k].id != id
  {
    if items == [] then -1
    else if items[0].id == id then 0
    else
      var j := FirstIndexById(items[1..], id);
      if j == -1 then -1 else j + 1
  }

  /** The list after `updateItemSuccess`: the first element with the
      payload's `id` is replaced by the payload, everything else stays. */
  function ReplaceFirstById(items: seq<Item>, payload: Item): (r: seq<Item>)
    ensures |r| == |items|
    ensures forall k :: 0 <= k < |items| ==>
              r[k] == (if k == FirstIndexById(items, payload.id) then payload else items[k])
  {
    if items == [] then []
    else if items[0].id == payload.id then [payload] + items[1..]
    else [items[0]] + ReplaceFirstById(items[1..], payload)
  }

  /** `items.filter(item => item.id !== id)`. */
  function RemoveAllById(items: seq<Item>, id: Option<string>): (r: seq<Item>)
    ensures |r| <= |items|
    ensures forall x :: x in r <==> x in items && x.id != id
  {
    if items == [] then []
    else if items[0].id == id then RemoveAllById(items[1..], id)
    else [items[0]] + RemoveAllById(items[1..], id)
  }

  /** The filter keeps order: filtering a concatenation filters each part. */
  lemma {:induction false} RemoveAllByIdAppend(a: seq<Item>, b: seq<Item>, id: Option<string>)
    ensures RemoveAllById(a + b, id) == RemoveAllById(a, id) + RemoveAllById(b, id)
    decreases |a|
  {
    if a == [] {
      assert a + b == b;
    } else {
      assert (a + b)[1..] == a[1..] + b;
      RemoveAllByIdAppend(a[1..], b, id);
    }
  }

  /** A list with no element of that `id` is left exactly as it was. */
  lemma {:induction false} RemoveAllByIdAbsent(items: seq<Item>, id: Option<string>)
    requires forall k :: 0 <= k < |items| ==> items[k].id != id
    ensures RemoveAllById(items, id) == items
    decreases |items|
  {
    if items != [] {
      RemoveAllByIdAbsent(items[1..], id);
      assert [items[0]] + items[1..] == items;
    }
  }

  /** Deleting twice is deleting once. */
  lemma RemoveAllByIdIdempotent(items: seq<Item>, id: Option<string>)
    ensures RemoveAllById(RemoveAllById(items, id), id) == RemoveAllById(items, id)
  {
    var r := RemoveAllById(items, id);
    forall k | 0 <= k < |r| ensures r[k].id != id {
      assert r[k] in r;
    }
    RemoveAllByIdAbsent(r, id);
  }

  /** Creating an item and then deleting its `id` gives the old list without
      that `id`; when the `id` was new, it gives the old list back. */
  lemma CreateThenDelete(items: seq<Item>, created: Item)
    ensures RemoveAllById(items + [created], created.id) == RemoveAllById(items, created.id)
    ensures (forall k :: 0 <= k < |items| ==> items[k].id != created.id) ==>
              RemoveAllById(items + [created], created.id) == items
  {
    RemoveAllByIdAppend(items, [created], created.id);
    assert RemoveAllById([created], created.id) == [];
    if forall k :: 0 <= k < |items| ==> items[k].id != created.id {
      RemoveAllByIdAbsent(items, created.id);
    }
  }

  /** Updating keeps the length, and an update whose `id` is not in the list
      changes nothing. */
  lemma ReplaceFirstByIdAbsent(items: seq<Item>, payload: Item)
    requires forall k :: 0 <= k < |items| ==> items[k].id != payload.id
    ensures ReplaceFirstById(items, payload) == items
  {
    var r := ReplaceFirstById(items, payload);
    assert forall k :: 0 <= k < |items| ==> r[k] == items[k];
  }

  /** Replacing the first match is assigning at its index, if there is one. */
  lemma ReplaceFirstAt(items: seq<Item>, payload: Item)
    ensures var i := FirstIndexById(items, payload.id);
            ReplaceFirstById(items, payload) == if i == -1 then items else items[i := payload]
  {
    var i := FirstIndexById(items, payload.id);
    var r := ReplaceFirstById(items, payload);
    if i == -1 {
      assert forall k :: 0 <= k < |items| ==> r[k] == items[k];
    } else {
      assert forall k :: 0 <= k < |items| ==> r[k] == items[i := payload][k];
    }
  }

  /** The scan `findIndex` performs, as a loop over the list. */
  method FindIndex(items: seq<Item>, id: Option<string>) returns (index: int)
    ensures -1 <= index < |items|
    ensures index == -1 <==> forall k :: 0 <= k < |items| ==> items[k].id != id
    ensures 0 <= index ==> items[index].id == id && forall k :: 0 <= k < index ==> items[k].id != id
    ensures index == FirstIndexById(items, id)
  {
    var i := 0;
    while i < |items|
      invariant 0 <= i <= |items|
      invariant forall k :: 0 <= k < i ==> items[k].id != id
    {
      if items[i].id == id {
        return i;
      }
      i := i + 1;
    }
    return -1;
  }

  /** The update step of `updateItemSuccess`: `findIndex` on the payload's
      `id`, then an assignment at that index when it was found. */
  method AssignAtFoundIndex(items: seq<Item>, payload: Item) returns (r: seq<Item>)
    ensures r == ReplaceFirstById(items, payload)
  {
    var index := FindIndex(items, payload.id);
    ReplaceFirstAt(items, payload);
    r := items;
    if index != -1 {
      r := r[index := payload];
    }
  }

  /** The slice's draft state. */
  class ItemsStore {
    var items: seq<Item>
    var currentItem: Option<Item>
    var loading: bool
    var error: Option<string>
    var createLoading: bool
    var updateLoading: bool
    var deleteLoading: bool

    ghost function State(): SliceState
      reads this
    {
      SliceState(items, currentItem, loading, error, createLoading, updateLoading, deleteLoading)
    }

    constructor ()
      ensures State() == InitialState
    {
      items, currentItem, loading, error := [], None, false, None;
      createLoading, updateLoading, deleteLoading := false, false, false;
    }

    method GetItemsStart()
      modifies this
      ensures State() == old(State()).(loading := true, error := None)
    {
      loading := true;
      error := None;
    }

    method GetItemsSuccess(payload: seq<Item>)
      modifies this
      ensures State() == old(State()).(items := payload, loading := false, error := None)
    {
      items := payload;
      loading := false;
      error := None;
    }

    method GetItemsFailure(payload: Option<string>)
      modifies this
      ensures State() == old(State()).(loading := false, error := payload)
    {
      loading := false;
      error := payload;
    }

    method GetItemStart()
      modifies this
      ensures State() == old(State()).(loading := true, error := None)
    {
      loading := true;
      error := None;
    }

    method GetItemSuccess(payload: Item)
      modifies this
      ensures State() == old(State()).(currentItem := Some(payload), loading := false, error := None)
    {
      currentItem := Some(payload);
      loading := false;
      error := None;
    }

    method GetItemFailure(payload: Option<string>)
      modifies this
      ensures State() == old(State()).(loading := false, error := payload)
    {
      loading := false;
      error := payload;
    }

    method CreateItemStart()
      modifies this
      ensures State() == old(State()).(createLoading := true, error := None)
    {
      createLoading := true;
      error := None;
    }

    /** `createItemSuccess`: `push` onto the list. */
    method CreateItemSuccess(payload: Item)
      modifies this
      ensures State() == old(State()).(items := old(items) + [payload], createLoading := false, error := None)
      ensures |items| == |old(items)| + 1 && items[..|old(items)|] == old(items)
    {
      items := items + [payload];
      createLoading := false;
      error := None;
    }

    method CreateItemFailure(payload: Option<string>)
      modifies this
      ensures State() == old(State()).(createLoading := false, error := payload)
    {
      createLoading := false;
      error := payload;
    }

    method UpdateItemStart()
      modifies this
      ensures State() == old(State()).(updateLoading := true, error := None)
    {
      updateLoading := true;
      error := None;
    }

    /** `updateItemSuccess`: the first element with the payload's `id` is
        assigned by index; `currentItem` becomes the payload in every case. */
    method UpdateItemSuccess(payload: Item)
      modifies this
      ensures State() == old(State()).(items := ReplaceFirstById(old(items), payload),
                                       currentItem := Some(payload), updateLoading := false, error := None)
    {
      items := AssignAtFoundIndex(items, payload);
      currentItem := Some(payload);
      updateLoading := false;
      error := None;
    }

    method UpdateItemFailure(payload: Option<string>)
      modifies this
      ensures State() == old(State()).(updateLoading := false, error := payload)
    {
      updateLoading := false;
      error := payload;
    }

    method DeleteItemStart()
      modifies this
      ensures State() == old(State()).(deleteLoading := true, error := None)
    {
      deleteLoading := true;
      error := None;
    }

    /** `deleteItemSuccess`: the payload is the `id` to remove. */
    method DeleteItemSuccess(payload: Option<string>)
      modifies this
      ensures State() == old(State()).(items := RemoveAllById(old(items), payload), currentItem := None,
                                       deleteLoading := false, error := None)
    {
      items := RemoveAllById(items, payload);
      currentItem := None;
      deleteLoading := false;
      error := None;
    }

    method DeleteItemFailure(payload: Option<string>)
      modifies this
      ensures State() == old(State()).(deleteLoading := false, error := payload)
    {
      deleteLoading := false;
      error := payload;
    }

    method ClearCurrentItem()
      modifies this
      ensures State() == old(State()).(currentItem := None)
    {
      currentItem := None;
    }

    method ClearItemsData()
      modifies this
      ensures State() == InitialState
    {
      items := [];
      currentItem := None;
      loading := false;
      error := None;
      createLoading := false;
      updateLoading := false;
      deleteLoading := false;
    }

    method ClearItemsError()
      modifies this
      ensures State() == old(State()).(error := None)
    {
      error := None;
    }
  }
}

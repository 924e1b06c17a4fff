/** The checkbox list shared, line for line, by components/resources-list.tsx and
    components/recommendation-container/recommendation-list.tsx: a record from item id to
    checked state, seeded from the items, updated by the checkbox and by clicks on its
    wrapper, each change being forwarded to the parent when it passed a callback. */
module CheckboxList {
  import opened Common

  /** `ResourceItem` / `RecommendationItem`; `checked` may be absent. */
  datatype ListItem = ListItem(id: string, labelText: string, href: string, checked: Option<bool>)

  /** `item.checked || false`. */
  function InitialValue(item: ListItem): bool
  {
    item.checked == Some(true)
  }

  /** The `reduce` that spreads the accumulator and sets `[item.id]`, left to right. */
  function CheckedMap(items: seq<ListItem>): (m: map<string, bool>)
    ensures forall i :: 0 <= i < |items| ==> items[i].id in m
  {
    if items == [] then map[]
    else
      var last := items[|items| - 1];
      var m := CheckedMap(items[..|items| - 1])[last.id := InitialValue(last)];
      assert forall i :: 0 <= i < |items| - 1 ==> items[i] == items[..|items| - 1][i];
      m
  }

  /** `items?.reduce(...) || {}`: no items, no keys. */
  function InitialChecked(items: Option<seq<ListItem>>): (m: map<string, bool>)
    ensures items.None? ==> m == map[]
  {
    match items
    case Some(xs) => CheckedMap(xs)
    case None => map[]
  }

  /** The keys are exactly the item ids. */
  lemma {:induction false} CheckedMapKeys(items: seq<ListItem>, k: string)
    ensures k in CheckedMap(items) <==> exists i :: 0 <= i < |items| && items[i].id == k
  {
    if items != [] {
      var init := items[..|items| - 1];
      CheckedMapKeys(init, k);
      if exists i :: 0 <= i < |init| && init[i].id == k {
        var i :| 0 <= i < |init| && init[i].id == k;
        assert items[i].id == k;
      }
    }
  }

  /** The value of an id is the initial value of the last item carrying it. */
  lemma {:induction false} LastDuplicateWins(items: seq<ListItem>, i: int)
    requires 0 <= i < |items|
    requires forall j :: i < j < |items| ==> items[j].id != items[i].id
    ensures CheckedMap(items)[items[i].id] == InitialValue(items[i])
  {
    if i < |items| - 1 {
      var init := items[..|items| - 1];
      assert init[i] == items[i];
      LastDuplicateWins(init, i);
    }
  }

  /** `checkedItems[id]` as the checkbox shows it: a missing key is unchecked. */
  function Shown(m: map<string, bool>, id: string): bool
  {
    id in m && m[id]
  }

  /** The record after a click on the wrapper: `handleCheckboxChange(id, !checkedItems[id])`. */
  function Clicked(m: map<string, bool>, id: string): (r: map<string, bool>)
    ensures r.Keys == m.Keys + {id}
    ensures r[id] == !Shown(m, id)
    ensures id !in m ==> r[id]
    ensures forall k :: k in m && k != id ==> r[k] == m[k]
  {
    m[id := !Shown(m, id)]
  }

  /** Two clicks show the original state again, now with the key present. */
  lemma ClickTwice(m: map<string, bool>, id: string)
    ensures Clicked(Clicked(m, id), id) == m[id := Shown(m, id)]
    ensures Shown(Clicked(Clicked(m, id), id), id) == Shown(m, id)
  {
  }

  /** A change forwarded to `onResourceChange` / `onRecommendationChange`. */
  datatype Forwarded = Forwarded(id: string, checked: bool)

  class CheckboxListState {
    var checkedItems: map<string, bool>

    /** The `useState` initialiser. */
    constructor (items: Option<seq<ListItem>>)
      ensures checkedItems == InitialChecked(items)
    {
      checkedItems := InitialChecked(items);
    }

    /** `handleCheckboxChange(id, checked)`: sets only `id` and forwards the change. */
    method HandleCheckboxChange(id: string, checked: bool, hasCallback: bool) returns (forwarded: Option<Forwarded>)
      modifies this
      ensures checkedItems == old(checkedItems)[id := checked]
      ensures forwarded == if hasCallback then Some(Forwarded(id, checked)) else None
    {
      checkedItems := checkedItems[id := checked];
      forwarded := if hasCallback then Some(Forwarded(id, checked)) else None;
    }

    /** A click on the wrapper: the negation of what the checkbox shows. */
    method HandleWrapperClick(id: string, hasCallback: bool) returns (forwarded: Option<Forwarded>)
      modifies this
      ensures checkedItems == Clicked(old(checkedItems), id)
      ensures forwarded == if hasCallback then Some(Forwarded(id, !Shown(old(checkedItems), id))) else None
    {
      forwarded := HandleCheckboxChange(id, !Shown(checkedItems, id), hasCallback);
    }
  }
}

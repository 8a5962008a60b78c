/**
 * src/context/ShoppingListContext.tsx: shopping lists with priced items, the reducer that
 * edits them, and the provider helpers built on it. Prices and quantities are whole numbers
 * (peso amounts and unit counts).
 */
module ShoppingLists {
  import opened Wrappers
  import opened Seqs

  datatype Item = Item(
    id: int,
    name: string,
    quantity: int,
    price: int,
    category: string,
    checked: bool,
    supermarket: Option<string>,
    notes: Option<string>,
    addedAt: nat)

  /** `Partial<ShoppingListItem>` */
  datatype ItemPatch = ItemPatch(
    name: Option<string>,
    quantity: Option<int>,
    price: Option<int>,
    category: Option<string>,
    checked: Option<bool>,
    supermarket: Option<string>,
    notes: Option<string>)

  datatype Status = Active | Completed | Archived

  datatype ShoppingList = ShoppingList(
    id: string,
    name: string,
    items: seq<Item>,
    status: Status,
    createdAt: nat,
    completedAt: Option<nat>,
    totalEstimated: int,
    totalActual: Option<int>)

  /** `Partial<ShoppingList>` */
  datatype ListPatch = ListPatch(
    name: Option<string>,
    items: Option<seq<Item>>,
    status: Option<Status>,
    completedAt: Option<nat>,
    totalEstimated: Option<int>,
    totalActual: Option<int>)

  datatype State = State(
    shoppingLists: seq<ShoppingList>,
    currentList: Option<ShoppingList>,
    loading: bool,
    error: Option<string>)

  const InitialState := State([], None, false, None)

  datatype Action =
    | SetLoading(loading: bool)
    | SetError(message: Option<string>)
    | SetLists(lists: seq<ShoppingList>)
    | SetCurrentList(list: Option<ShoppingList>)
    | AddList(added: ShoppingList)
    | UpdateList(listId: string, updates: ListPatch)
    | DeleteList(deleted: string)
    | AddItem(item: Item)
    | UpdateItem(itemId: int, changes: ItemPatch)
    | RemoveItem(removed: int)

  /** `items.reduce((sum, item) => sum + item.price * item.quantity, 0)` */
  function Total(items: seq<Item>): int
  {
    if items == [] then 0 else Total(items[..|items| - 1]) + items[|items| - 1].price * items[|items| - 1].quantity
  }

  lemma {:induction false} TotalConcat(a: seq<Item>, b: seq<Item>)
    ensures Total(a + b) == Total(a) + Total(b)
    decreases |b|
  {
    if b == [] {
      assert a + b == a;
    } else {
      assert (a + b)[..|a + b| - 1] == a + b[..|b| - 1];
      TotalConcat(a, b[..|b| - 1]);
    }
  }

  function O<T>(patched: Option<T>, current: T): T
  {
    if patched.Some? then patched.value else current
  }

  /** `{ ...item, ...updates }` */
  function PatchItem(item: Item, p: ItemPatch): Item
  {
    item.(name := O(p.name, item.name), quantity := O(p.quantity, item.quantity), price := O(p.price, item.price),
          category := O(p.category, item.category), checked := O(p.checked, item.checked),
          supermarket := if p.supermarket.Some? then p.supermarket else item.supermarket,
          notes := if p.notes.Some? then p.notes else item.notes)
  }

  /** `{ ...list, ...updates }` */
  function PatchList(list: ShoppingList, p: ListPatch): ShoppingList
  {
    list.(name := O(p.name, list.name), items := O(p.items, list.items), status := O(p.status, list.status),
          completedAt := if p.completedAt.Some? then p.completedAt else list.completedAt,
          totalEstimated := O(p.totalEstimated, list.totalEstimated),
          totalActual := if p.totalActual.Some? then p.totalActual else list.totalActual)
  }

  /** `lists.map(l => l.id === id ? { ...l, ...updates } : l)` */
  function PatchLists(lists: seq<ShoppingList>, id: string, p: ListPatch): seq<ShoppingList>
  {
    SetWhere(lists, (l: ShoppingList) => l.id == id, (l: ShoppingList) => PatchList(l, p))
  }

  /** `lists.map(l => l.id === updated.id ? updated : l)` */
  function ReplaceList(lists: seq<ShoppingList>, updated: ShoppingList): seq<ShoppingList>
  {
    SetWhere(lists, (l: ShoppingList) => l.id == updated.id, (l: ShoppingList) => updated)
  }

  /** `items.map(i => i.id === id ? { ...i, ...updates } : i)` */
  function PatchItems(items: seq<Item>, id: int, p: ItemPatch): seq<Item>
  {
    SetWhere(items, (x: Item) => x.id == id, (x: Item) => PatchItem(x, p))
  }

  /** `lists.filter(l => l.id !== id)` */
  function DropLists(lists: seq<ShoppingList>, id: string): seq<ShoppingList>
  {
    Filter(lists, (l: ShoppingList) => l.id != id)
  }

  /** `items.filter(i => i.id !== id)` */
  function DropItem(items: seq<Item>, id: int): seq<Item>
  {
    Filter(items, (x: Item) => x.id != id)
  }

  /** `items.filter(i => !i.checked)` */
  function Unchecked(items: seq<Item>): seq<Item>
  {
    Filter(items, (x: Item) => !x.checked)
  }

  /** The current list with new items, its estimate recomputed, written back over its id. */
  function WithItems(s: State, items: seq<Item>): State
    requires s.currentList.Some?
  {
    var updated := s.currentList.value.(items := items, totalEstimated := Total(items));
    s.(currentList := Some(updated), shoppingLists := ReplaceList(s.shoppingLists, updated))
  }

  /** `shoppingListReducer` */
  function Reduce(s: State, a: Action): (r: State)
    ensures (a.AddItem? || a.UpdateItem? || a.RemoveItem?) && s.currentList.None? ==> r == s
    ensures (a.AddItem? || a.UpdateItem? || a.RemoveItem?) && s.currentList.Some? ==>
              && r.currentList.Some?
              && r.currentList.value.totalEstimated == Total(r.currentList.value.items)
              && r.currentList.value.id == s.currentList.value.id
              && r.shoppingLists == ReplaceList(s.shoppingLists, r.currentList.value)
    ensures a.AddItem? && s.currentList.Some? ==> r.currentList.value.items == s.currentList.value.items + [a.item]
    ensures a.RemoveItem? && s.currentList.Some? ==>
              forall x :: x in r.currentList.value.items <==> x in s.currentList.value.items && x.id != a.removed
    ensures a.AddList? ==> r.shoppingLists == s.shoppingLists + [a.added] && r.currentList == Some(a.added)
    ensures a.DeleteList? ==> forall l :: l in r.shoppingLists <==> l in s.shoppingLists && l.id != a.deleted
    ensures a.DeleteList? ==> (r.currentList.None? <==> s.currentList.None? || s.currentList.value.id == a.deleted)
  {
    match a
    case SetLoading(loading) => s.(loading := loading)
    case SetError(message) => s.(error := message)
    case SetLists(lists) => s.(shoppingLists := lists)
    case SetCurrentList(list) => s.(currentList := list)
    case AddList(list) => s.(shoppingLists := s.shoppingLists + [list], currentList := Some(list))
    case UpdateList(id, p) =>
      s.(shoppingLists := PatchLists(s.shoppingLists, id, p),
         currentList := if s.currentList.Some? && s.currentList.value.id == id
                        then Some(PatchList(s.currentList.value, p)) else s.currentList)
    case DeleteList(id) =>
      s.(shoppingLists := DropLists(s.shoppingLists, id),
         currentList := if s.currentList.Some? && s.currentList.value.id == id then None else s.currentList)
    case AddItem(item) =>
      if s.currentList.None? then s else WithItems(s, s.currentList.value.items + [item])
    case UpdateItem(id, p) =>
      if s.currentList.None? then s else WithItems(s, PatchItems(s.currentList.value.items, id, p))
    case RemoveItem(id) =>
      if s.currentList.None? then s else WithItems(s, DropItem(s.currentList.value.items, id))
  }

  /** Adding an item raises the estimate by exactly its price times its quantity. */
  lemma AddItemRaisesTotal(s: State, item: Item)
    requires s.currentList.Some? && s.currentList.value.totalEstimated == Total(s.currentList.value.items)
    ensures Reduce(s, AddItem(item)).currentList.value.totalEstimated
            == s.currentList.value.totalEstimated + item.price * item.quantity
  {
    var items := s.currentList.value.items;
    assert (items + [item])[..|items + [item]| - 1] == items;
  }

  /** After an item action the other lists are untouched and the current one is stored under its id. */
  lemma ItemActionScope(s: State, a: Action, l: ShoppingList)
    requires a.AddItem? || a.UpdateItem? || a.RemoveItem?
    requires s.currentList.Some? && l in s.shoppingLists && l.id != s.currentList.value.id
    ensures l in Reduce(s, a).shoppingLists
  {
    var i :| 0 <= i < |s.shoppingLists| && s.shoppingLists[i] == l;
    assert Reduce(s, a).shoppingLists[i] == l;
  }

  /** UPDATE_LIST merges into every list with the id and into the current one when it has it. */
  lemma UpdateListMerges(s: State, id: string, p: ListPatch)
    ensures var r := Reduce(s, UpdateList(id, p));
            && |r.shoppingLists| == |s.shoppingLists|
            && (forall i :: 0 <= i < |s.shoppingLists| && s.shoppingLists[i].id == id ==>
                  r.shoppingLists[i] == PatchList(s.shoppingLists[i], p))
            && (forall i :: 0 <= i < |s.shoppingLists| && s.shoppingLists[i].id != id ==>
                  r.shoppingLists[i] == s.shoppingLists[i])
            && (s.currentList.Some? && s.currentList.value.id == id ==> r.currentList == Some(PatchList(s.currentList.value, p)))
            && (s.currentList.None? || s.currentList.value.id != id ==> r.currentList == s.currentList)
  {
  }

  /** Removing an item takes its price times quantity off the estimate when its id is unique. */
  lemma {:induction false} RemoveUniqueItem(items: seq<Item>, k: nat)
    requires k < |items|
    requires forall j :: 0 <= j < |items| && j != k ==> items[j].id != items[k].id
    ensures DropItem(items, items[k].id) == items[..k] + items[k + 1..]
    ensures Total(DropItem(items, items[k].id)) == Total(items) - items[k].price * items[k].quantity
  {
    var id := items[k].id;
    KeepAllBut(items, id, k);
    TotalConcat(items[..k], items[k + 1..]);
    assert items == items[..k] + [items[k]] + items[k + 1..];
    TotalConcat(items[..k] + [items[k]], items[k + 1..]);
    TotalConcat(items[..k], [items[k]]);
    assert [items[k]][..0] == [];
  }

  lemma {:induction false} KeepAllBut(items: seq<Item>, id: int, k: nat)
    requires k < |items| && items[k].id == id
    requires forall j :: 0 <= j < |items| && j != k ==> items[j].id != id
    ensures DropItem(items, id) == items[..k] + items[k + 1..]
  {
    if k == 0 {
      FilterAll(items[1..], (x: Item) => x.id != id);
      assert items[1..] == items[k + 1..];
    } else {
      KeepAllBut(items[1..], id, k - 1);
      assert items[1..][..k - 1] == items[1..k];
      assert items[1..][k..] == items[k + 1..];
      assert [items[0]] + items[1..k] == items[..k];
    }
  }

  /** The first list with the id, as `find` returns it. */
  function FindList(lists: seq<ShoppingList>, id: string): (r: Option<ShoppingList>)
    ensures r.Some? ==> r.value in lists && r.value.id == id
    ensures r.None? ==> forall l :: l in lists ==> l.id != id
  {
    if lists == [] then None else if lists[0].id == id then Some(lists[0]) else FindList(lists[1..], id)
  }

  function FindItem(items: seq<Item>, id: int): (r: Option<Item>)
    ensures r.Some? ==> r.value in items && r.value.id == id
    ensures r.None? ==> forall x :: x in items ==> x.id != id
  {
    if items == [] then None else if items[0].id == id then Some(items[0]) else FindItem(items[1..], id)
  }

  /** The patch `updateItemQuantity` and `toggleItemCheck` dispatch. */
  function OnlyQuantity(q: int): ItemPatch
  {
    ItemPatch(None, Some(q), None, None, None, None, None)
  }

  function OnlyChecked(c: bool): ItemPatch
  {
    ItemPatch(None, None, None, None, Some(c), None, None)
  }

  /** The provider: the reducer's state, changed only through `dispatch`. */
  class ShoppingListProvider {
    var state: State

    constructor()
      ensures state == InitialState
    {
      state := InitialState;
    }

    method Dispatch(a: Action)
      modifies this
      ensures state == Reduce(old(state), a)
    {
      state := Reduce(state, a);
    }

    /** `setCurrentList`: only a list that exists becomes current. */
    method SelectList(id: string)
      modifies this
      ensures FindList(old(state.shoppingLists), id).None? ==> state == old(state)
      ensures FindList(old(state.shoppingLists), id).Some? ==>
                state == old(state).(currentList := FindList(old(state.shoppingLists), id))
    {
      var list := FindList(state.shoppingLists, id);
      if list.Some? {
        Dispatch(SetCurrentList(list));
      }
    }

    /** `updateItemQuantity`: a quantity below one is ignored. */
    method UpdateItemQuantity(id: int, quantity: int)
      modifies this
      ensures quantity < 1 ==> state == old(state)
      ensures quantity >= 1 ==> state == Reduce(old(state), UpdateItem(id, OnlyQuantity(quantity)))
    {
      if quantity < 1 {
        return;
      }
      Dispatch(UpdateItem(id, OnlyQuantity(quantity)));
    }

    /** `toggleItemCheck`: flips `checked` of an item of the current list, if it is there. */
    method ToggleItemCheck(id: int)
      modifies this
      ensures old(state.currentList).None? || FindItem(old(state.currentList).value.items, id).None? ==> state == old(state)
      ensures old(state.currentList).Some? && FindItem(old(state.currentList).value.items, id).Some? ==>
                state == Reduce(old(state), UpdateItem(id, OnlyChecked(!FindItem(old(state.currentList).value.items, id).value.checked)))
    {
      if state.currentList.None? {
        return;
      }
      var item := FindItem(state.currentList.value.items, id);
      if item.Some? {
        Dispatch(UpdateItem(id, OnlyChecked(!item.value.checked)));
      }
    }

    /** `completeList`: the current list is marked completed, with its estimate as the actual total. */
    method CompleteList(now: nat)
      modifies this
      ensures old(state.currentList).None? ==> state == old(state)
      ensures old(state.currentList).Some? ==>
                var cur := old(state.currentList).value;
                state == Reduce(old(state), UpdateList(cur.id, ListPatch(None, None, Some(Completed), Some(now), None, Some(cur.totalEstimated))))
    {
      if state.currentList.None? {
        return;
      }
      var cur := state.currentList.value;
      Dispatch(UpdateList(cur.id, ListPatch(None, None, Some(Completed), Some(now), None, Some(cur.totalEstimated))));
    }

    /** `clearCompletedItems`: the current list keeps exactly its unchecked items, re-totalled. */
    method ClearCompletedItems()
      modifies this
      ensures old(state.currentList).None? ==> state == old(state)
      ensures old(state.currentList).Some? ==>
                var cur := old(state.currentList).value;
                var kept := Unchecked(cur.items);
                && (forall x :: x in kept <==> x in cur.items && !x.checked)
                && state.currentList == Some(cur.(items := kept, totalEstimated := Total(kept)))
                && |state.shoppingLists| == |old(state.shoppingLists)|
                && (forall i :: 0 <= i < |state.shoppingLists| ==>
                      state.shoppingLists[i] == if old(state.shoppingLists)[i].id == cur.id
                                                then old(state.shoppingLists)[i].(items := kept, totalEstimated := Total(kept))
                                                else old(state.shoppingLists)[i])
                && state.loading == old(state.loading) && state.error == old(state.error)
    {
      if state.currentList.None? {
        return;
      }
      var cur := state.currentList.value;
      var unchecked := Unchecked(cur.items);
      var total := Total(unchecked);
      Dispatch(UpdateList(cur.id, ListPatch(None, Some(unchecked), None, None, Some(total), None)));
    }
  }

  /** Toggling twice restores the item. */
  lemma ToggleTwice(item: Item)
    ensures PatchItem(PatchItem(item, OnlyChecked(!item.checked)), OnlyChecked(item.checked)) == item
  {
  }

  /** A quantity update changes only that item's quantity and the estimate follows. */
  lemma QuantityUpdateScope(items: seq<Item>, id: int, q: int)
    ensures var r := PatchItems(items, id, OnlyQuantity(q));
            forall i :: 0 <= i < |items| ==>
              (items[i].id == id ==> r[i] == items[i].(quantity := q))
              && (items[i].id != id ==> r[i] == items[i])
  {
  }
}

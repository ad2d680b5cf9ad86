/** The in-memory todo store: a list of items in insertion order and the
    counter that numbers the next item. */
module TodoModel {
  import opened TodoTypes
  import opened Decimal

  /** The index of the first item whose id is `id`, or -1 when there is
      none (`Array.prototype.findIndex`). */
  function FirstIndex(s: seq<Item>, id: string): (r: int)
    ensures -1 <= r < |s|
    ensures r == -1 <==> forall i :: 0 <= i < |s| ==> s[i].id != id
    ensures r >= 0 ==> s[r].id == id && forall i :: 0 <= i < r ==> s[i].id != id
  {
    if s == [] then -1
    else if s[0].id == id then 0
    else
      var k := FirstIndex(s[1..], id);
      if k == -1 then -1 else k + 1
  }

  /** The first item whose id is `id`, if any (`Array.prototype.find`). */
  function Lookup(s: seq<Item>, id: string): (r: Option<Item>)
    ensures r.None? <==> forall i :: 0 <= i < |s| ==> s[i].id != id
    ensures r.Some? ==> r.value.id == id && r.value in s
    ensures r.Some? ==> exists k :: 0 <= k < |s| && r.value == s[k] && forall i :: 0 <= i < k ==> s[i].id != id
  {
    var k := FirstIndex(s, id);
    if k == -1 then None else Some(s[k])
  }

  /** The shallow merge `{ ...item, ...u }`: a field present in `u`
      overwrites, an absent one keeps the stored value; the id is never
      touched. */
  function Merge(item: Item, u: Updates): (r: Item)
    ensures r.id == item.id
    ensures u.title.Some? ==> r.title == u.title.value
    ensures u.title.None? ==> r.title == item.title
    ensures u.description.Some? ==> r.description == u.description.value
    ensures u.description.None? ==> r.description == item.description
    ensures u.isImportant.Some? ==> r.isImportant == u.isImportant.value
    ensures u.isImportant.None? ==> r.isImportant == item.isImportant
  {
    item.(title := u.title.GetOr(item.title),
          description := u.description.GetOr(item.description),
          isImportant := u.isImportant.GetOr(item.isImportant))
  }

  /** Every id handed out by a store whose counter has reached `n`. */
  ghost function Issued(n: nat): set<string> {
    set k: nat | 1 <= k < n :: ToDecimal(k)
  }

  predicate IdsDistinct(s: seq<Item>) {
    forall i, j :: 0 <= i < j < |s| ==> s[i].id != s[j].id
  }

  /** The store's invariant. `serials[i]` is the counter value item `i`
      was created with: the counter starts at 1, every live item was
      numbered below it, and the numbers grow along the list. */
  ghost predicate StoreInv(todos: seq<Item>, serials: seq<nat>, nextId: nat) {
    1 <= nextId &&
    |serials| == |todos| &&
    (forall i :: 0 <= i < |todos| ==> todos[i].id == ToDecimal(serials[i]) && 1 <= serials[i] < nextId) &&
    (forall i, j :: 0 <= i < j < |serials| ==> serials[i] < serials[j])
  }

  /** Ids in the store are pairwise distinct and each one was issued
      before the current counter value. */
  lemma InvDistinct(todos: seq<Item>, serials: seq<nat>, nextId: nat)
    requires StoreInv(todos, serials, nextId)
    ensures IdsDistinct(todos)
    ensures forall i :: 0 <= i < |todos| ==> todos[i].id in Issued(nextId)
  {
    forall i, j | 0 <= i < j < |todos|
      ensures todos[i].id != todos[j].id
    {
      ToDecimalInjective(serials[i], serials[j]);
    }
    forall i | 0 <= i < |todos|
      ensures todos[i].id in Issued(nextId)
    {
      var k := serials[i];
      assert 1 <= k < nextId;
    }
  }

  /** The id made from the current counter was never issued before, so no
      id is reused, whatever was deleted in between. */
  lemma FreshId(n: nat)
    ensures ToDecimal(n) !in Issued(n)
  {
    forall k: nat | 1 <= k < n
      ensures ToDecimal(k) != ToDecimal(n)
    {
      ToDecimalInjective(k, n);
    }
  }

  /** An id the list does not contain is found at the end once an item
      carrying it is appended. */
  lemma FirstIndexAppendAbsent(s: seq<Item>, item: Item)
    requires forall i :: 0 <= i < |s| ==> s[i].id != item.id
    ensures FirstIndex(s + [item], item.id) == |s|
  {
    var t := s + [item];
    assert t[|s|] == item;
    assert forall i :: 0 <= i < |s| ==> t[i] == s[i];
  }

  /** No live item carries the id made from the current counter. */
  lemma CounterIdAbsent(todos: seq<Item>, serials: seq<nat>, nextId: nat)
    requires StoreInv(todos, serials, nextId)
    ensures forall i :: 0 <= i < |todos| ==> todos[i].id != ToDecimal(nextId)
  {
    forall i | 0 <= i < |todos|
      ensures todos[i].id != ToDecimal(nextId)
    {
      ToDecimalInjective(serials[i], nextId);
    }
  }

  /** Appending an item numbered with the counter keeps the invariant, and
      the new item is the one that lookups of its id find. */
  lemma InvAppend(todos: seq<Item>, serials: seq<nat>, nextId: nat, item: Item)
    requires StoreInv(todos, serials, nextId)
    requires item.id == ToDecimal(nextId)
    ensures StoreInv(todos + [item], serials + [nextId], nextId + 1)
    ensures item.id !in Issued(nextId)
    ensures FirstIndex(todos + [item], item.id) == |todos|
    ensures Lookup(todos + [item], item.id) == Some(item)
  {
    FreshId(nextId);
    CounterIdAbsent(todos, serials, nextId);
    FirstIndexAppendAbsent(todos, item);
    var t, s := todos + [item], serials + [nextId];
    assert forall i :: 0 <= i < |todos| ==> t[i] == todos[i] && s[i] == serials[i];
  }

  /** Replacing an item by one with the same id keeps the invariant. */
  lemma InvReplace(todos: seq<Item>, serials: seq<nat>, nextId: nat, k: nat, item: Item)
    requires StoreInv(todos, serials, nextId)
    requires k < |todos| && item.id == todos[k].id
    ensures StoreInv(todos[k := item], serials, nextId)
  {
  }

  /** Removing one item keeps the invariant, and afterwards no item has
      the removed id. */
  lemma InvRemove(todos: seq<Item>, serials: seq<nat>, nextId: nat, k: nat)
    requires StoreInv(todos, serials, nextId)
    requires k < |todos|
    ensures StoreInv(todos[..k] + todos[k + 1..], serials[..k] + serials[k + 1..], nextId)
    ensures FirstIndex(todos[..k] + todos[k + 1..], todos[k].id) == -1
  {
    InvDistinct(todos, serials, nextId);
    var t := todos[..k] + todos[k + 1..];
    var s := serials[..k] + serials[k + 1..];
    assert forall i :: 0 <= i < |t| ==> t[i] == todos[if i < k then i else i + 1];
    assert forall i :: 0 <= i < |s| ==> s[i] == serials[if i < k then i else i + 1];
  }

  /** The empty update changes nothing. */
  lemma MergeNoUpdates(item: Item)
    ensures Merge(item, NoUpdates) == item
  {
  }

  /** Applying the same update twice is applying it once. */
  lemma MergeIdempotent(item: Item, u: Updates)
    ensures Merge(Merge(item, u), u) == Merge(item, u)
  {
  }

  /** The store. The module-level `todos` and `nextId` of the source are
      the fields of one object. */
  class TodoStore {
    var todos: seq<Item>
    var nextId: nat
    ghost var serials: seq<nat>

    ghost predicate Valid()
      reads this
    {
      StoreInv(todos, serials, nextId)
    }

    constructor ()
      ensures Valid()
      ensures todos == [] && nextId == 1
    {
      todos := [];
      nextId := 1;
      serials := [];
    }

    /** All items, in insertion order. */
    method GetAll() returns (r: seq<Item>)
      ensures r == todos
    {
      r := todos;
    }

    /** Linear search for the first item with id `id`. */
    method FindIndex(id: string) returns (index: int)
      ensures index == FirstIndex(todos, id)
    {
      var i := 0;
      while i < |todos|
        invariant 0 <= i <= |todos|
        invariant forall j :: 0 <= j < i ==> todos[j].id != id
      {
        if todos[i].id == id {
          return i;
        }
        i := i + 1;
      }
      return -1;
    }

    method GetById(id: string) returns (r: Option<Item>)
      ensures r == Lookup(todos, id)
    {
      var i := FindIndex(id);
      if i == -1 {
        r := None;
      } else {
        r := Some(todos[i]);
      }
    }

    method Create(data: NewTodo) returns (item: Item)
      requires Valid()
      modifies this
      ensures Valid()
      ensures item == Item(ToDecimal(old(nextId)), data.title, data.description, data.isImportant)
      ensures item.id !in Issued(old(nextId))
      ensures todos == old(todos) + [item]
      ensures nextId == old(nextId) + 1
      ensures Lookup(todos, item.id) == Some(item)
    {
      item := Item(ToDecimal(nextId), data.title, data.description, data.isImportant);
      InvAppend(todos, serials, nextId, item);
      todos := todos + [item];
      serials := serials + [nextId];
      nextId := nextId + 1;
    }

    method Update(id: string, updates: Updates) returns (r: Option<Item>)
      requires Valid()
      modifies this
      ensures Valid()
      ensures nextId == old(nextId)
      ensures var k := FirstIndex(old(todos), id);
        if k == -1 then r == None && unchanged(this)
        else r == Some(Merge(old(todos)[k], updates)) && todos == old(todos)[k := r.value]
    {
      var index := FindIndex(id);
      if index == -1 {
        return None;
      }
      var merged := Merge(todos[index], updates);
      InvReplace(todos, serials, nextId, index, merged);
      todos := todos[index := merged];
      r := Some(merged);
    }

    method Delete(id: string) returns (found: bool)
      requires Valid()
      modifies this
      ensures Valid()
      ensures nextId == old(nextId)
      ensures var k := FirstIndex(old(todos), id);
        found == (k != -1) &&
        (if k == -1 then unchanged(this) else todos == old(todos)[..k] + old(todos)[k + 1..])
      ensures FirstIndex(todos, id) == -1
    {
      var index := FindIndex(id);
      if index == -1 {
        return false;
      }
      InvRemove(todos, serials, nextId, index);
      todos := todos[..index] + todos[index + 1..];
      serials := serials[..index] + serials[index + 1..];
      found := true;
    }
  }
}

/**
 * The cart slice (src/store/slices/cartSlice.ts): a list of items keyed by
 * `menuId`. The reducers update the list in place; `Cart` holds it and each
 * reducer is a method proved against a function on the list.
 */
module CartSlice {
  import opened Wrappers
  import opened JsonValue

  datatype CartItem = CartItem(
    id: string,
    menuId: int,
    name: string,
    price: int,
    quantity: int,
    restaurantId: int,
    restaurantName: string,
    image: Option<string>)

  /** The `addItem` payload: a cart item without its `id`. */
  datatype ItemPayload = ItemPayload(
    menuId: int,
    name: string,
    price: int,
    quantity: int,
    restaurantId: int,
    restaurantName: string,
    image: Option<string>)

  /** The entry `addItem` pushes: the payload plus the id `${menuId}-${now}`, where `now` is `Date.now()`. */
  function NewEntry(p: ItemPayload, now: int): (item: CartItem)
    ensures item.menuId == p.menuId && item.quantity == p.quantity && item.restaurantId == p.restaurantId
  {
    CartItem(IntToDecimal(p.menuId) + "-" + IntToDecimal(now),
             p.menuId, p.name, p.price, p.quantity, p.restaurantId, p.restaurantName, p.image)
  }

  /** `items.find(item => item.menuId === menuId)`, as the index of the first match. */
  function Find(items: seq<CartItem>, menuId: int): (r: Option<nat>)
    ensures r.Some? ==> r.value < |items| && items[r.value].menuId == menuId
    ensures r.Some? ==> forall j :: 0 <= j < r.value ==> items[j].menuId != menuId
    ensures r.None? ==> forall j :: 0 <= j < |items| ==> items[j].menuId != menuId
  {
    if |items| == 0 then None
    else if items[0].menuId == menuId then Some(0)
    else
      match Find(items[1..], menuId)
      case Some(i) => Some(i + 1)
      case None => None
  }

  /** No two entries share a `menuId`. */
  ghost predicate DistinctMenuIds(items: seq<CartItem>) {
    forall i, j :: 0 <= i < j < |items| ==> items[i].menuId != items[j].menuId
  }

  function Max(a: int, b: int): int {
    if a >= b then a else b
  }

  /** The list after `addItem`. */
  function Added(items: seq<CartItem>, p: ItemPayload, now: int): seq<CartItem> {
    match Find(items, p.menuId)
    case Some(i) => items[i := items[i].(quantity := items[i].quantity + p.quantity)]
    case None => items + [NewEntry(p, now)]
  }

  /** The list after `updateQuantity`. */
  function QuantityUpdated(items: seq<CartItem>, menuId: int, quantity: int): seq<CartItem> {
    match Find(items, menuId)
    case Some(i) => items[i := items[i].(quantity := Max(1, quantity))]
    case None => items
  }

  /** The list after `removeItem`: `items.filter(item => item.menuId !== menuId)`. */
  function Removed(items: seq<CartItem>, menuId: int): seq<CartItem> {
    if |items| == 0 then []
    else (if items[0].menuId != menuId then [items[0]] else []) + Removed(items[1..], menuId)
  }

  class Cart {
    var items: seq<CartItem>

    /** The cart's invariant: at most one entry per menu item. */
    ghost predicate Valid()
      reads this
    {
      DistinctMenuIds(items)
    }

    /** `initialState`: an empty cart. */
    constructor ()
      ensures items == [] && Valid()
    {
      items := [];
    }

    /** `addItem`: merge into the entry with the same `menuId`, or append a new one. */
    method AddItem(payload: ItemPayload, now: int)
      modifies this
      ensures items == Added(old(items), payload, now)
      ensures old(Valid()) ==> Valid()
    {
      var existing := Find(items, payload.menuId);
      if existing.Some? {
        var i := existing.value;
        items := items[i := items[i].(quantity := items[i].quantity + payload.quantity)];
      } else {
        items := items + [NewEntry(payload, now)];
      }
      if old(Valid()) {
        AddedPreservesDistinct(old(items), payload, now);
      }
    }

    /** `updateQuantity`: set the matching entry's quantity, never below 1. */
    method UpdateQuantity(menuId: int, quantity: int)
      modifies this
      ensures items == QuantityUpdated(old(items), menuId, quantity)
      ensures old(Valid()) ==> Valid()
    {
      var item := Find(items, menuId);
      if item.Some? {
        var i := item.value;
        items := items[i := items[i].(quantity := Max(1, quantity))];
      }
    }

    /** `removeItem`: keep every entry with another `menuId`. */
    method RemoveItem(menuId: int)
      modifies this
      ensures items == Removed(old(items), menuId)
      ensures old(Valid()) ==> Valid()
    {
      if Valid() {
        RemovedPreservesDistinct(items, menuId);
      }
      items := Removed(items, menuId);
    }

    /** `clearCart`. */
    method ClearCart()
      modifies this
      ensures items == [] && Valid()
    {
      items := [];
    }
  }

  // ---------------------------------------------------------------- addItem

  /**
   * When `menuId` is present (`i` is its first entry, the only one in a valid
   * cart), that entry's quantity grows; the length, its other fields and every
   * other entry stay as they were.
   */
  lemma AddedMerges(items: seq<CartItem>, p: ItemPayload, now: int, i: nat)
    requires i < |items| && items[i].menuId == p.menuId
    requires forall j :: 0 <= j < i ==> items[j].menuId != p.menuId
    ensures |Added(items, p, now)| == |items|
    ensures Added(items, p, now)[i] == items[i].(quantity := items[i].quantity + p.quantity)
    ensures forall j :: 0 <= j < |items| && j != i ==> Added(items, p, now)[j] == items[j]
  {
    assert Find(items, p.menuId) == Some(i);
  }

  /** A new `menuId` appends exactly one entry, the payload with its fresh id, after the unchanged old entries. */
  lemma AddedAppends(items: seq<CartItem>, p: ItemPayload, now: int)
    requires forall j :: 0 <= j < |items| ==> items[j].menuId != p.menuId
    ensures Added(items, p, now) == items + [NewEntry(p, now)]
    ensures NewEntry(p, now).id == IntToDecimal(p.menuId) + "-" + IntToDecimal(now)
  {
  }

  /**
   * Merging looks at `menuId` only: a payload from another restaurant with a
   * `menuId` already in the cart adds to that entry, which keeps its restaurant.
   */
  lemma MergeIgnoresRestaurant(items: seq<CartItem>, p: ItemPayload, now: int, i: nat)
    requires i < |items| && items[i].menuId == p.menuId && items[i].restaurantId != p.restaurantId
    requires forall j :: 0 <= j < i ==> items[j].menuId != p.menuId
    ensures |Added(items, p, now)| == |items|
    ensures Added(items, p, now)[i].restaurantId == items[i].restaurantId != p.restaurantId
    ensures Added(items, p, now)[i].quantity == items[i].quantity + p.quantity
  {
    AddedMerges(items, p, now, i);
  }

  /** `addItem` keeps `menuId`s distinct. */
  lemma AddedPreservesDistinct(items: seq<CartItem>, p: ItemPayload, now: int)
    requires DistinctMenuIds(items)
    ensures DistinctMenuIds(Added(items, p, now))
  {
  }

  // ---------------------------------------------------------------- updateQuantity

  /** The first matching entry's quantity becomes `max(1, quantity)`; the order and every other entry are untouched. */
  lemma QuantityClamped(items: seq<CartItem>, menuId: int, quantity: int, i: nat)
    requires i < |items| && items[i].menuId == menuId
    requires forall j :: 0 <= j < i ==> items[j].menuId != menuId
    ensures |QuantityUpdated(items, menuId, quantity)| == |items|
    ensures QuantityUpdated(items, menuId, quantity)[i] == items[i].(quantity := if quantity >= 1 then quantity else 1)
    ensures QuantityUpdated(items, menuId, quantity)[i].quantity >= 1
    ensures forall j :: 0 <= j < |items| && j != i ==> QuantityUpdated(items, menuId, quantity)[j] == items[j]
  {
    assert Find(items, menuId) == Some(i);
  }

  /** An unknown `menuId` leaves the cart as it was. */
  lemma QuantityUnknownUnchanged(items: seq<CartItem>, menuId: int, quantity: int)
    requires forall j :: 0 <= j < |items| ==> items[j].menuId != menuId
    ensures QuantityUpdated(items, menuId, quantity) == items
  {
  }

  // ---------------------------------------------------------------- removeItem

  /** An entry survives `removeItem` exactly when it was in the cart with another `menuId`. */
  lemma {:induction false} RemovedMembers(items: seq<CartItem>, menuId: int, x: CartItem)
    ensures x in Removed(items, menuId) <==> x in items && x.menuId != menuId
    decreases |items|
  {
    if |items| > 0 {
      RemovedMembers(items[1..], menuId, x);
      assert items == [items[0]] + items[1..];
    }
  }

  /** Removing from a concatenation removes from each part: the relative order of what remains is kept. */
  lemma {:induction false} RemovedDistributes(a: seq<CartItem>, b: seq<CartItem>, menuId: int)
    ensures Removed(a + b, menuId) == Removed(a, menuId) + Removed(b, menuId)
    decreases |a|
  {
    if |a| > 0 {
      assert (a + b)[1..] == a[1..] + b;
      RemovedDistributes(a[1..], b, menuId);
    } else {
      assert a + b == b;
    }
  }

  /** `removeItem` keeps `menuId`s distinct. */
  lemma {:induction false} RemovedPreservesDistinct(items: seq<CartItem>, menuId: int)
    requires DistinctMenuIds(items)
    ensures DistinctMenuIds(Removed(items, menuId))
    decreases |items|
  {
    if |items| > 0 {
      var rest := Removed(items[1..], menuId);
      RemovedPreservesDistinct(items[1..], menuId);
      forall x | x in rest
        ensures x.menuId != items[0].menuId
      {
        RemovedMembers(items[1..], menuId, x);
        var k :| 0 <= k < |items[1..]| && items[1..][k] == x;
        assert items[k + 1] == x;
      }
      var head: seq<CartItem> := if items[0].menuId != menuId then [items[0]] else [];
      assert Removed(items, menuId) == head + rest;
      forall i, j | 0 <= i < j < |head + rest|
        ensures (head + rest)[i].menuId != (head + rest)[j].menuId
      {
        if |head| == 1 && i == 0 {
          assert (head + rest)[j] in rest;
        }
      }
    }
  }
}

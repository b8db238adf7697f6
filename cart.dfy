/**
 * The cart store of store/cart.tsx: a list of lines, at most one per
 * (restaurant, item) pair, replaced wholesale by each action. Every action's
 * new list is a pure function of the old one (findIndex / spread / map /
 * filter); `CartStore` holds the `lines` field the actions reassign.
 */
module Cart {
  import opened JsValues

  datatype CartItem = CartItem(id: string, name: string, price: int, photoId: Option<string>)

  datatype CartLine = CartLine(restaurantId: string, restaurantName: string, item: CartItem, qty: int)

  function Max(a: int, b: int): int { if a < b then b else a }

  /** The line belongs to this (restaurant, item) pair. */
  predicate Matches(l: CartLine, restaurantId: string, itemId: string) {
    l.restaurantId == restaurantId && l.item.id == itemId
  }

  predicate SamePair(a: CartLine, b: CartLine) {
    a.restaurantId == b.restaurantId && a.item.id == b.item.id
  }

  /** No two lines share a (restaurant, item) pair. */
  ghost predicate PairsUnique(lines: seq<CartLine>) {
    forall i, j :: 0 <= i < j < |lines| ==> !SamePair(lines[i], lines[j])
  }

  /** Every line holds at least one unit. */
  ghost predicate QtyFloor(lines: seq<CartLine>) {
    forall i :: 0 <= i < |lines| ==> lines[i].qty >= 1
  }

  /** `lines.findIndex(...)`: the first matching position, or -1 when there is none. */
  function FindIndex(lines: seq<CartLine>, restaurantId: string, itemId: string): (r: int)
    ensures -1 <= r < |lines|
    ensures r >= 0 ==> Matches(lines[r], restaurantId, itemId)
    ensures r >= 0 ==> forall k :: 0 <= k < r ==> !Matches(lines[k], restaurantId, itemId)
    ensures r == -1 <==> forall k :: 0 <= k < |lines| ==> !Matches(lines[k], restaurantId, itemId)
  {
    if lines == [] then -1
    else if Matches(lines[0], restaurantId, itemId) then 0
    else
      var j := FindIndex(lines[1..], restaurantId, itemId);
      if j < 0 then -1 else j + 1
  }

  /**
   * The new list after `addItem`: an existing line for the pair has `qty`
   * added (no clamping); otherwise one line is appended with `max(1, qty)`.
   */
  function AddItem(lines: seq<CartLine>, restaurantId: string, restaurantName: string, item: CartItem, qty: int): (r: seq<CartLine>)
    ensures FindIndex(lines, restaurantId, item.id) < 0 ==>
      |r| == |lines| + 1 && r[..|lines|] == lines &&
      r[|lines|] == CartLine(restaurantId, restaurantName, item, Max(1, qty))
    ensures FindIndex(lines, restaurantId, item.id) >= 0 ==>
      |r| == |lines| &&
      forall k :: 0 <= k < |lines| ==>
        r[k] == if Matches(lines[k], restaurantId, item.id) && k == FindIndex(lines, restaurantId, item.id)
                then lines[k].(qty := lines[k].qty + qty) else lines[k]
  {
    var idx := FindIndex(lines, restaurantId, item.id);
    if idx >= 0 then lines[idx := lines[idx].(qty := lines[idx].qty + qty)]
    else lines + [CartLine(restaurantId, restaurantName, item, Max(1, qty))]
  }

  /** The new list after `updateQty`: every matching line gets `max(1, qty)`; nothing is removed. */
  function UpdateQty(lines: seq<CartLine>, restaurantId: string, itemId: string, qty: int): (r: seq<CartLine>)
    ensures |r| == |lines|
    ensures forall k :: 0 <= k < |r| ==>
      if Matches(lines[k], restaurantId, itemId) then r[k] == lines[k].(qty := Max(1, qty)) && r[k].qty >= 1
      else r[k] == lines[k]
  {
    seq(|lines|, k requires 0 <= k < |lines| =>
      if Matches(lines[k], restaurantId, itemId) then lines[k].(qty := Max(1, qty)) else lines[k])
  }

  /** The new list after `removeItem`: the lines that do not match, in their order. */
  function RemoveItem(lines: seq<CartLine>, restaurantId: string, itemId: string): (r: seq<CartLine>)
    ensures forall l :: l in r <==> l in lines && !Matches(l, restaurantId, itemId)
  {
    if lines == [] then []
    else if Matches(lines[0], restaurantId, itemId) then RemoveItem(lines[1..], restaurantId, itemId)
    else [lines[0]] + RemoveItem(lines[1..], restaurantId, itemId)
  }

  /** The new list after `clearRestaurant`: the lines of other restaurants, in their order. */
  function ClearRestaurant(lines: seq<CartLine>, restaurantId: string): (r: seq<CartLine>)
    ensures forall l :: l in r <==> l in lines && l.restaurantId != restaurantId
  {
    if lines == [] then []
    else if lines[0].restaurantId == restaurantId then ClearRestaurant(lines[1..], restaurantId)
    else [lines[0]] + ClearRestaurant(lines[1..], restaurantId)
  }

  /** `getItemQty`: `lines.find(...)?.qty || 0`. */
  function ItemQty(lines: seq<CartLine>, restaurantId: string, itemId: string): (r: int)
    ensures var i := FindIndex(lines, restaurantId, itemId); r == if i < 0 then 0 else lines[i].qty
  {
    if lines == [] then 0
    else if Matches(lines[0], restaurantId, itemId) then lines[0].qty
    else ItemQty(lines[1..], restaurantId, itemId)
  }

  /** Sum of `qty` over a list of lines. */
  function SumQty(lines: seq<CartLine>): (n: int)
    ensures (forall i :: 0 <= i < |lines| ==> lines[i].qty >= 1) ==> n >= |lines|
  {
    if lines == [] then 0 else SumQty(lines[..|lines| - 1]) + lines[|lines| - 1].qty
  }

  /** `getRestaurantCount`: the lines of one restaurant, reduced by summing `qty`. */
  function RestaurantCount(lines: seq<CartLine>, restaurantId: string): (n: int)
    ensures (forall i :: 0 <= i < |lines| ==> lines[i].qty >= 1) ==>
              (n == 0 <==> forall i :: 0 <= i < |lines| ==> lines[i].restaurantId != restaurantId)
  {
    var r := OfRestaurant(lines, restaurantId);
    assert forall i :: 0 <= i < |r| ==> r[i] in lines && r[i].restaurantId == restaurantId;
    assert (exists i :: 0 <= i < |lines| && lines[i].restaurantId == restaurantId) ==> r != [] by {
      if exists i :: 0 <= i < |lines| && lines[i].restaurantId == restaurantId {
        var i :| 0 <= i < |lines| && lines[i].restaurantId == restaurantId;
        assert lines[i] in r;
      }
    }
    SumQty(r)
  }

  /** `lines.filter(l => l.restaurantId === restaurantId)`. */
  function OfRestaurant(lines: seq<CartLine>, restaurantId: string): (r: seq<CartLine>)
    ensures forall l :: l in r <==> l in lines && l.restaurantId == restaurantId
  {
    if lines == [] then []
    else if lines[0].restaurantId == restaurantId then [lines[0]] + OfRestaurant(lines[1..], restaurantId)
    else OfRestaurant(lines[1..], restaurantId)
  }

  // ---------------------------------------------------------------------------
  // Properties of the actions
  // ---------------------------------------------------------------------------

  /** `addItem` keeps at most one line per (restaurant, item) pair. */
  lemma AddItemKeepsPairsUnique(lines: seq<CartLine>, restaurantId: string, restaurantName: string, item: CartItem, qty: int)
    requires PairsUnique(lines)
    ensures PairsUnique(AddItem(lines, restaurantId, restaurantName, item, qty))
  {
    var r := AddItem(lines, restaurantId, restaurantName, item, qty);
    var idx := FindIndex(lines, restaurantId, item.id);
    forall i, j | 0 <= i < j < |r| ensures !SamePair(r[i], r[j]) {
      if idx < 0 {
        if j == |lines| {
          assert r[i] == lines[i];
          assert !Matches(lines[i], restaurantId, item.id);
        } else {
          assert r[i] == lines[i] && r[j] == lines[j];
        }
      } else {
        assert SamePair(r[i], r[j]) == SamePair(lines[i], lines[j]);
      }
    }
  }

  /** With a positive amount, `addItem` keeps every line at one unit or more. */
  lemma AddItemKeepsQtyFloor(lines: seq<CartLine>, restaurantId: string, restaurantName: string, item: CartItem, qty: int)
    requires QtyFloor(lines) && qty >= 1
    ensures QtyFloor(AddItem(lines, restaurantId, restaurantName, item, qty))
  {
    var r := AddItem(lines, restaurantId, restaurantName, item, qty);
    forall k | 0 <= k < |r| ensures r[k].qty >= 1 {
      if k < |lines| { assert r[k].qty >= lines[k].qty; }
    }
  }

  /** The amount is added unclamped to an existing line: a negative amount can take it below one unit. */
  lemma AddItemExistingIsUnclamped()
    ensures var item := CartItem("i", "Idli", 40, None);
            var lines := [CartLine("r", "Cafe", item, 1)];
            AddItem(lines, "r", "Cafe", item, -3) == [CartLine("r", "Cafe", item, -2)]
  {
  }

  /** `updateQty` with any quantity, even 0 or negative, leaves the line in place with qty 1. */
  lemma UpdateQtyNeverRemoves(lines: seq<CartLine>, restaurantId: string, itemId: string, qty: int)
    requires qty <= 1
    requires FindIndex(lines, restaurantId, itemId) >= 0
    ensures ItemQty(UpdateQty(lines, restaurantId, itemId, qty), restaurantId, itemId) == 1
  {
    var r := UpdateQty(lines, restaurantId, itemId, qty);
    var i := FindIndex(lines, restaurantId, itemId);
    forall k | 0 <= k < |r| ensures Matches(r[k], restaurantId, itemId) == Matches(lines[k], restaurantId, itemId) { }
    assert FindIndex(r, restaurantId, itemId) == i;
  }

  /** `updateQty` keeps pair uniqueness and the one-unit floor. */
  lemma UpdateQtyKeepsInvariants(lines: seq<CartLine>, restaurantId: string, itemId: string, qty: int)
    requires PairsUnique(lines) && QtyFloor(lines)
    ensures PairsUnique(UpdateQty(lines, restaurantId, itemId, qty))
    ensures QtyFloor(UpdateQty(lines, restaurantId, itemId, qty))
  {
    var r := UpdateQty(lines, restaurantId, itemId, qty);
    forall i, j | 0 <= i < j < |r| ensures !SamePair(r[i], r[j]) {
      assert SamePair(r[i], r[j]) == SamePair(lines[i], lines[j]);
    }
  }

  /** Removal distributes over concatenation, so it keeps the survivors in their order. */
  lemma {:induction false} RemoveItemConcat(a: seq<CartLine>, b: seq<CartLine>, restaurantId: string, itemId: string)
    ensures RemoveItem(a + b, restaurantId, itemId) == RemoveItem(a, restaurantId, itemId) + RemoveItem(b, restaurantId, itemId)
  {
    if a != [] {
      assert (a + b)[1..] == a[1..] + b;
      RemoveItemConcat(a[1..], b, restaurantId, itemId);
    } else {
      assert a + b == b;
    }
  }

  /**
   * Removal seen one line at a time: appending a line appends it to the result
   * exactly when it does not match. With `RemoveItem([]) == []` this fixes the
   * result outright, multiplicity and order included.
   */
  lemma RemoveItemSnoc(lines: seq<CartLine>, l: CartLine, restaurantId: string, itemId: string)
    ensures RemoveItem(lines + [l], restaurantId, itemId) ==
            RemoveItem(lines, restaurantId, itemId) + (if Matches(l, restaurantId, itemId) then [] else [l])
  {
    RemoveItemConcat(lines, [l], restaurantId, itemId);
    assert [l][1..] == [];
  }

  /** After `removeItem` nothing matches the pair, so its quantity reads as 0. */
  lemma RemoveItemClearsQty(lines: seq<CartLine>, restaurantId: string, itemId: string)
    ensures ItemQty(RemoveItem(lines, restaurantId, itemId), restaurantId, itemId) == 0
  {
    var r := RemoveItem(lines, restaurantId, itemId);
    forall k | 0 <= k < |r| ensures !Matches(r[k], restaurantId, itemId) {
      assert r[k] in r;
    }
  }

  /** Clearing distributes over concatenation, so it keeps other restaurants' lines in their order. */
  lemma {:induction false} ClearRestaurantConcat(a: seq<CartLine>, b: seq<CartLine>, restaurantId: string)
    ensures ClearRestaurant(a + b, restaurantId) == ClearRestaurant(a, restaurantId) + ClearRestaurant(b, restaurantId)
  {
    if a != [] {
      assert (a + b)[1..] == a[1..] + b;
      ClearRestaurantConcat(a[1..], b, restaurantId);
    } else {
      assert a + b == b;
    }
  }

  /** Clearing seen one line at a time: a line survives exactly when it belongs to another restaurant. */
  lemma ClearRestaurantSnoc(lines: seq<CartLine>, l: CartLine, restaurantId: string)
    ensures ClearRestaurant(lines + [l], restaurantId) ==
            ClearRestaurant(lines, restaurantId) + (if l.restaurantId == restaurantId then [] else [l])
  {
    ClearRestaurantConcat(lines, [l], restaurantId);
    assert [l][1..] == [];
  }

  lemma {:induction false} SumQtyConcat(a: seq<CartLine>, b: seq<CartLine>)
    ensures SumQty(a + b) == SumQty(a) + SumQty(b)
    decreases |b|
  {
    if b == [] {
      assert a + b == a;
    } else {
      assert (a + b)[..|a + b| - 1] == a + b[..|b| - 1];
      SumQtyConcat(a, b[..|b| - 1]);
    }
  }

  lemma {:induction false} SumQtyOfNone(lines: seq<CartLine>, restaurantId: string)
    requires forall k :: 0 <= k < |lines| ==> lines[k].restaurantId != restaurantId
    ensures OfRestaurant(lines, restaurantId) == []
  {
    if lines != [] {
      SumQtyOfNone(lines[1..], restaurantId);
    }
  }

  /** Right after `clearRestaurant` the restaurant's item count is 0. */
  lemma ClearRestaurantZeroesCount(lines: seq<CartLine>, restaurantId: string)
    ensures RestaurantCount(ClearRestaurant(lines, restaurantId), restaurantId) == 0
  {
    var r := ClearRestaurant(lines, restaurantId);
    forall k | 0 <= k < |r| ensures r[k].restaurantId != restaurantId {
      assert r[k] in r;
    }
    SumQtyOfNone(r, restaurantId);
  }

  /** The restaurant's count split around one position. */
  lemma CountAround(lines: seq<CartLine>, i: nat, restaurantId: string)
    requires i < |lines|
    ensures RestaurantCount(lines, restaurantId) ==
            RestaurantCount(lines[..i], restaurantId)
            + (if lines[i].restaurantId == restaurantId then lines[i].qty else 0)
            + RestaurantCount(lines[i + 1..], restaurantId)
  {
    assert lines == lines[..i] + ([lines[i]] + lines[i + 1..]);
    OfRestaurantConcat(lines[..i], [lines[i]] + lines[i + 1..], restaurantId);
    OfRestaurantConcat([lines[i]], lines[i + 1..], restaurantId);
    assert OfRestaurant([lines[i]], restaurantId) == if lines[i].restaurantId == restaurantId then [lines[i]] else [];
    SumQtyConcat(OfRestaurant(lines[..i], restaurantId), OfRestaurant([lines[i]] + lines[i + 1..], restaurantId));
    SumQtyConcat(OfRestaurant([lines[i]], restaurantId), OfRestaurant(lines[i + 1..], restaurantId));
  }

  /** `getRestaurantCount` after `addItem` grows by exactly the quantity the line gained. */
  lemma AddItemRaisesCount(lines: seq<CartLine>, restaurantId: string, restaurantName: string, item: CartItem, qty: int)
    ensures RestaurantCount(AddItem(lines, restaurantId, restaurantName, item, qty), restaurantId) ==
            RestaurantCount(lines, restaurantId) + (if FindIndex(lines, restaurantId, item.id) >= 0 then qty else Max(1, qty))
  {
    var idx := FindIndex(lines, restaurantId, item.id);
    var r := AddItem(lines, restaurantId, restaurantName, item, qty);
    if idx < 0 {
      var added := CartLine(restaurantId, restaurantName, item, Max(1, qty));
      assert r == lines + [added];
      OfRestaurantConcat(lines, [added], restaurantId);
      assert OfRestaurant([added], restaurantId) == [added];
      SumQtyConcat(OfRestaurant(lines, restaurantId), [added]);
    } else {
      CountAround(lines, idx, restaurantId);
      CountAround(r, idx, restaurantId);
      assert r[..idx] == lines[..idx];
      assert r[idx + 1..] == lines[idx + 1..];
    }
  }

  lemma {:induction false} OfRestaurantConcat(a: seq<CartLine>, b: seq<CartLine>, restaurantId: string)
    ensures OfRestaurant(a + b, restaurantId) == OfRestaurant(a, restaurantId) + OfRestaurant(b, restaurantId)
  {
    if a != [] {
      assert (a + b)[1..] == a[1..] + b;
      OfRestaurantConcat(a[1..], b, restaurantId);
    } else {
      assert a + b == b;
    }
  }

  /** The filter seen one line at a time: a line is kept exactly when it belongs to the restaurant. */
  lemma OfRestaurantSnoc(lines: seq<CartLine>, l: CartLine, restaurantId: string)
    ensures OfRestaurant(lines + [l], restaurantId) ==
            OfRestaurant(lines, restaurantId) + (if l.restaurantId == restaurantId then [l] else [])
  {
    OfRestaurantConcat(lines, [l], restaurantId);
    assert [l][1..] == [];
  }

  /** The store: its `lines` field is replaced by each action. */
  class CartStore {
    var lines: seq<CartLine>

    constructor ()
      ensures lines == []
    {
      lines := [];
    }

    method AddLine(restaurantId: string, restaurantName: string, item: CartItem, qty: int := 1)
      modifies this
      ensures lines == AddItem(old(lines), restaurantId, restaurantName, item, qty)
      ensures old(PairsUnique(lines)) ==> PairsUnique(lines)
    {
      if PairsUnique(lines) {
        AddItemKeepsPairsUnique(lines, restaurantId, restaurantName, item, qty);
      }
      lines := AddItem(lines, restaurantId, restaurantName, item, qty);
    }

    method SetQty(restaurantId: string, itemId: string, qty: int)
      modifies this
      ensures lines == UpdateQty(old(lines), restaurantId, itemId, qty)
    {
      lines := UpdateQty(lines, restaurantId, itemId, qty);
    }

    method Remove(restaurantId: string, itemId: string)
      modifies this
      ensures lines == RemoveItem(old(lines), restaurantId, itemId)
    {
      lines := RemoveItem(lines, restaurantId, itemId);
    }

    method ClearFor(restaurantId: string)
      modifies this
      ensures lines == ClearRestaurant(old(lines), restaurantId)
      ensures RestaurantCount(lines, restaurantId) == 0
    {
      ClearRestaurantZeroesCount(lines, restaurantId);
      lines := ClearRestaurant(lines, restaurantId);
    }

    /** `getItemQty`: the quantity of the pair's first line, 0 when the cart has none. */
    function GetItemQty(restaurantId: string, itemId: string): (q: int)
      reads this
      ensures var i := FindIndex(lines, restaurantId, itemId); q == if i < 0 then 0 else lines[i].qty
    {
      ItemQty(lines, restaurantId, itemId)
    }

    /** `getRestaurantCount`: with every line at one unit or more, 0 exactly when the restaurant has no line. */
    function GetRestaurantCount(restaurantId: string): (n: int)
      reads this
      ensures (forall i :: 0 <= i < |lines| ==> lines[i].qty >= 1) ==>
                (n == 0 <==> forall i :: 0 <= i < |lines| ==> lines[i].restaurantId != restaurantId)
    {
      RestaurantCount(lines, restaurantId)
    }
  }
}

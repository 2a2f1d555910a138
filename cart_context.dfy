/** The live cart store of context/CartContext.tsx: lines keyed by id, merged by a signed
    delta, dropped once their quantity reaches zero or below. */
module CartContext {
  import opened Options
  import opened CartLines

  /** The line list `addToCart(item)` computes from the previous one. */
  function Added(lines: seq<Line>, item: ItemInput): seq<Line>
  {
    match Find(lines, item.id)
    case Some(existing) =>
      var newQuantity := existing.quantity + OrOne(item.quantity);
      if newQuantity <= 0 then RemoveId(lines, item.id)
      else SetQuantity(lines, item.id, newQuantity)
    case None =>
      // `item.quantity && item.quantity <= 0`: a non-zero, non-positive quantity
      if item.quantity.Some? && item.quantity.value < 0 then lines
      else lines + [NewLine(item, OrOne(item.quantity))]
  }

  /** Zero for anything that is not positive: a line whose quantity would drop to zero or
      below is not in the cart. */
  function Clip(q: int): (r: nat)
    ensures r == 0 || r == q
    ensures r > 0 <==> q > 0
  {
    if q > 0 then q else 0
  }

  /** Adding an id that is not in the cart with a positive or missing delta appends exactly one
      line at the end, with quantity `item.quantity || 1` and the item's own fields. */
  lemma AddNewAppends(lines: seq<Line>, item: ItemInput)
    requires item.id !in Ids(lines)
    requires !(item.quantity.Some? && item.quantity.value < 0)
    ensures Added(lines, item) == lines + [NewLine(item, OrOne(item.quantity))]
    ensures OrOne(item.quantity) >= 1
    ensures item.quantity.None? || item.quantity == Some(0) ==> Added(lines, item)[|lines|].quantity == 1
  {
  }

  /** Adding an id that is not in the cart with a negative delta leaves the cart as it was. */
  lemma AddNewNegativeIgnored(lines: seq<Line>, item: ItemInput)
    requires item.id !in Ids(lines)
    requires item.quantity.Some? && item.quantity.value < 0
    ensures Added(lines, item) == lines
  {
  }

  /** Adding an id that is in the cart, when the merged quantity stays positive, changes that
      line's quantity to old + delta, keeps its other fields, and keeps every other line in place. */
  lemma AddExistingMerges(lines: seq<Line>, item: ItemInput, l: Line)
    requires UniqueIds(lines) && l in lines && l.id == item.id
    requires l.quantity + OrOne(item.quantity) > 0
    ensures |Added(lines, item)| == |lines|
    ensures forall k :: 0 <= k < |lines| ==>
              Added(lines, item)[k] == if lines[k] == l then l.(quantity := l.quantity + OrOne(item.quantity)) else lines[k]
  {
    FindUnique(lines, l);
    SetQuantityAt(lines, item.id, l.quantity + OrOne(item.quantity));
    forall k | 0 <= k < |lines| && lines[k].id == l.id ensures lines[k] == l {
      var j :| 0 <= j < |lines| && lines[j] == l;
      assert j == k;
    }
  }

  /** Adding an id that is in the cart, when the merged quantity is zero or below, removes
      that line and nothing else. */
  lemma AddExistingDrops(lines: seq<Line>, item: ItemInput, l: Line)
    requires UniqueIds(lines) && l in lines && l.id == item.id
    requires l.quantity + OrOne(item.quantity) <= 0
    ensures Added(lines, item) == RemoveId(lines, item.id)
    ensures |Added(lines, item)| == |lines| - 1
  {
    FindUnique(lines, l);
    RemoveIdLength(lines, l);
  }

  /** The quantity of the added id afterwards is the old quantity plus the delta, clipped at
      zero: the line is absent exactly when that running sum is zero or below. */
  lemma AddQuantity(lines: seq<Line>, item: ItemInput)
    ensures QuantityOf(Added(lines, item), item.id) == Clip(QuantityOf(lines, item.id) + OrOne(item.quantity))
  {
    match Find(lines, item.id)
    case Some(existing) =>
      var q := existing.quantity + OrOne(item.quantity);
      if q > 0 {
        FindAfterSetQuantity(lines, item.id, q);
      }
    case None =>
      if !(item.quantity.Some? && item.quantity.value < 0) {
        FindAppend(lines, [NewLine(item, OrOne(item.quantity))], item.id);
      }
  }

  /** Adding one id leaves every other line, and the order of the other lines, unchanged. */
  lemma AddLeavesOthers(lines: seq<Line>, item: ItemInput)
    ensures RemoveId(Added(lines, item), item.id) == RemoveId(lines, item.id)
  {
    match Find(lines, item.id)
    case Some(existing) =>
      var q := existing.quantity + OrOne(item.quantity);
      if q <= 0 {
        assert Added(lines, item) == RemoveId(lines, item.id);
        RemoveAbsent(RemoveId(lines, item.id), item.id);
      } else {
        assert Added(lines, item) == SetQuantity(lines, item.id, q);
        RemoveAfterSetQuantity(lines, item.id, q);
      }
    case None =>
      if !(item.quantity.Some? && item.quantity.value < 0) {
        var nl := NewLine(item, OrOne(item.quantity));
        assert Added(lines, item) == lines + [nl];
        RemoveIdAppend(lines, [nl], item.id);
        assert RemoveId([nl], item.id) == [];
      }
  }

  /** Adding one id leaves the quantity of every other id unchanged. */
  lemma AddOtherQuantity(lines: seq<Line>, item: ItemInput, other: string)
    requires other != item.id
    ensures QuantityOf(Added(lines, item), other) == QuantityOf(lines, other)
  {
    AddLeavesOthers(lines, item);
    FindAfterRemove(Added(lines, item), item.id, other);
    FindAfterRemove(lines, item.id, other);
  }

  /** `addToCart` keeps ids unique and quantities at least one: a line is appended only when no
      line has its id and only with a positive quantity, and a merge to zero or below drops it. */
  lemma AddKeepsWellFormed(lines: seq<Line>, item: ItemInput)
    requires WellFormed(lines)
    ensures WellFormed(Added(lines, item))
  {
    AddKeepsUnique(lines, item);
    match Find(lines, item.id)
    case Some(existing) =>
      var q := existing.quantity + OrOne(item.quantity);
      if q > 0 {
        var r := SetQuantity(lines, item.id, q);
        SetQuantityAt(lines, item.id, q);
        forall l | l in r ensures l.quantity >= 1 {
          var k :| 0 <= k < |r| && r[k] == l;
          assert lines[k] in lines;
        }
      }
    case None =>
  }

  /** `removeFromCart` keeps ids unique and quantities at least one. */
  lemma RemoveKeepsWellFormed(lines: seq<Line>, id: string)
    requires WellFormed(lines)
    ensures WellFormed(RemoveId(lines, id))
  {
    RemoveIdUnique(lines, id);
  }

  /** `removeFromCart(id)` leaves no line with that id, keeps every other line in its order, and
      is a no-op when the id is absent. */
  lemma RemoveFromCartEffect(lines: seq<Line>, id: string, other: string)
    requires other != id
    ensures QuantityOf(RemoveId(lines, id), id) == 0
    ensures QuantityOf(RemoveId(lines, id), other) == QuantityOf(lines, other)
    ensures id !in Ids(lines) ==> RemoveId(lines, id) == lines
  {
    FindAfterRemove(lines, id, other);
    if id !in Ids(lines) {
      RemoveAbsent(lines, id);
    }
  }

  /** `addToCart` keeps ids unique whatever the quantities are. */
  lemma AddKeepsUnique(lines: seq<Line>, item: ItemInput)
    requires UniqueIds(lines)
    ensures UniqueIds(Added(lines, item))
  {
    match Find(lines, item.id)
    case Some(existing) =>
      var q := existing.quantity + OrOne(item.quantity);
      if q <= 0 {
        RemoveIdUnique(lines, item.id);
      } else {
        SetQuantityIds(lines, item.id, q);
      }
    case None =>
      if !(item.quantity.Some? && item.quantity.value < 0) {
        var r := lines + [NewLine(item, OrOne(item.quantity))];
        forall i, j | 0 <= i < j < |r| ensures r[i].id != r[j].id {
          if j == |lines| {
            assert r[i] in lines;
          }
        }
      }
  }

  /** `addToCart` changes the total only by the added id's share: the part of the total that
      belongs to other lines is the same before and after. */
  lemma AddTotal(lines: seq<Line>, item: ItemInput)
    requires UniqueIds(lines)
    ensures Total(Added(lines, item)) - LineShare(Added(lines, item), item.id)
         == Total(lines) - LineShare(lines, item.id)
  {
    AddKeepsUnique(lines, item);
    AddLeavesOthers(lines, item);
    TotalById(lines, item.id);
    TotalById(Added(lines, item), item.id);
  }

  /** The merge branch of `addToCart`, when the merged quantity stays positive. */
  lemma AddedMerge(lines: seq<Line>, item: ItemInput, l: Line)
    requires Find(lines, item.id) == Some(l)
    requires l.quantity + OrOne(item.quantity) > 0
    ensures Added(lines, item) == SetQuantity(lines, item.id, l.quantity + OrOne(item.quantity))
  {
  }

  /** "+" on a line already in the cart maps its quantity one up, and `find` then sees that. */
  lemma {:induction false} PlusOnExisting(lines: seq<Line>, plus: ItemInput, l: Line)
    requires UniqueIds(lines) && l in lines && l.id == plus.id && l.quantity >= 1
    requires plus.quantity == Some(1)
    ensures Added(lines, plus) == SetQuantity(lines, plus.id, l.quantity + 1)
  {
    FindUnique(lines, l);
    AddedMerge(lines, plus, l);
  }

  /** After the "+", the line carries the raised quantity and nothing else changed in it. */
  lemma {:induction false} PlusOnExistingFind(lines: seq<Line>, id: string, l: Line)
    requires UniqueIds(lines) && l in lines && l.id == id
    ensures Find(SetQuantity(lines, id, l.quantity + 1), id) == Some(l.(quantity := l.quantity + 1))
  {
    FindUnique(lines, l);
    FindAfterSetQuantity(lines, id, l.quantity + 1);
  }

  /** "-" on a line whose quantity was just raised by one lowers it back: the cart is as before. */
  lemma {:induction false} MinusOnRaised(lines: seq<Line>, minus: ItemInput, l: Line)
    requires UniqueIds(lines) && l in lines && l.id == minus.id && l.quantity >= 1
    requires minus.quantity == Some(-1)
    ensures Added(SetQuantity(lines, minus.id, l.quantity + 1), minus) == lines
  {
    MinusOnRaisedSets(lines, minus, l);
    SetQuantityRestore(lines, minus.id, l);
  }

  /** The "-" after the "+" is a second `SetQuantity` back to the old quantity. */
  lemma {:induction false} MinusOnRaisedSets(lines: seq<Line>, minus: ItemInput, l: Line)
    requires UniqueIds(lines) && l in lines && l.id == minus.id && l.quantity >= 1
    requires minus.quantity == Some(-1)
    ensures Added(SetQuantity(lines, minus.id, l.quantity + 1), minus)
         == SetQuantity(SetQuantity(lines, minus.id, l.quantity + 1), minus.id, l.quantity)
  {
    PlusOnExistingFind(lines, minus.id, l);
    MinusStep(SetQuantity(lines, minus.id, l.quantity + 1), minus, l.(quantity := l.quantity + 1), l.quantity);
  }

  /** A "-" on a line of quantity `q + 1`, with `q` at least one, sets that quantity to `q`. */
  lemma {:induction false} MinusStep(r: seq<Line>, minus: ItemInput, m: Line, q: int)
    requires Find(r, minus.id) == Some(m) && m.quantity == q + 1 && q >= 1
    requires minus.quantity == Some(-1)
    ensures Added(r, minus) == SetQuantity(r, minus.id, q)
  {
    AddedMerge(r, minus, m);
  }

  /** "+" then "-" on a line already in the cart. */
  lemma {:induction false} AddThenSubtractExisting(lines: seq<Line>, plus: ItemInput, minus: ItemInput, l: Line)
    requires UniqueIds(lines) && l in lines && l.id == plus.id && l.quantity >= 1
    requires plus.quantity == Some(1) && minus.id == plus.id && minus.quantity == Some(-1)
    ensures Added(Added(lines, plus), minus) == lines
  {
    PlusOnExisting(lines, plus, l);
    MinusOnRaised(lines, minus, l);
  }

  /** "+" then "-" on an item not yet in the cart. */
  lemma AddThenSubtractNew(lines: seq<Line>, plus: ItemInput, minus: ItemInput)
    requires plus.id !in Ids(lines)
    requires plus.quantity == Some(1) && minus.id == plus.id && minus.quantity == Some(-1)
    ensures Added(Added(lines, plus), minus) == lines
  {
    var nl := NewLine(plus, 1);
    var r := lines + [nl];
    assert Added(lines, plus) == r;
    FindAppend(lines, [nl], plus.id);
    assert Find(r, plus.id) == Some(nl);
    assert Added(r, minus) == RemoveId(r, plus.id);
    RemoveIdAppend(lines, [nl], plus.id);
    assert RemoveId([nl], plus.id) == [];
    RemoveAbsent(lines, plus.id);
  }

  /** Pressing "+" then "-" on the same item (delta +1, then delta -1) restores the cart exactly,
      whether or not the item was in it. */
  lemma AddThenSubtractRestores(lines: seq<Line>, plus: ItemInput, minus: ItemInput)
    requires WellFormed(lines)
    requires plus.quantity == Some(1) && minus.id == plus.id && minus.quantity == Some(-1)
    ensures Added(Added(lines, plus), minus) == lines
  {
    match Find(lines, plus.id)
    case Some(l) => AddThenSubtractExisting(lines, plus, minus, l);
    case None => AddThenSubtractNew(lines, plus, minus);
  }

  /** Applying `addToCart` for each item in order. */
  function AddAll(lines: seq<Line>, items: seq<ItemInput>): seq<Line>
    decreases |items|
  {
    if items == [] then lines else AddAll(Added(lines, items[0]), items[1..])
  }

  /** The quantity a run of deltas leaves, starting from `q`: each step adds the delta
      and clips at zero. */
  function ClippedRun(q: int, items: seq<ItemInput>): int
    decreases |items|
  {
    if items == [] then q else ClippedRun(Clip(q + OrOne(items[0].quantity)), items[1..])
  }

  /** For any run of `addToCart` calls on one id, the resulting quantity is the running sum of
      the deltas (default one), clipped so the line is absent whenever that sum is zero or below. */
  lemma {:induction false} AddAllQuantity(lines: seq<Line>, items: seq<ItemInput>, id: string)
    requires forall k :: 0 <= k < |items| ==> items[k].id == id
    ensures QuantityOf(AddAll(lines, items), id) == ClippedRun(QuantityOf(lines, id), items)
    decreases |items|
  {
    if items != [] {
      AddQuantity(lines, items[0]);
      AddAllQuantity(Added(lines, items[0]), items[1..], id);
    }
  }

  /** The live cart store. */
  class CartProvider {
    var cartItems: seq<Line>

    ghost predicate Valid()
      reads this
    {
      WellFormed(cartItems)
    }

    constructor ()
      ensures Valid() && cartItems == []
    {
      cartItems := [];
    }

    method AddToCart(item: ItemInput)
      requires Valid()
      modifies this
      ensures Valid()
      ensures cartItems == Added(old(cartItems), item)
    {
      AddKeepsWellFormed(cartItems, item);
      cartItems := Added(cartItems, item);
    }

    method RemoveFromCart(itemId: string)
      requires Valid()
      modifies this
      ensures Valid()
      ensures cartItems == RemoveId(old(cartItems), itemId)
    {
      RemoveKeepsWellFormed(cartItems, itemId);
      cartItems := RemoveId(cartItems, itemId);
    }

    method ClearCart()
      modifies this
      ensures Valid() && cartItems == []
      ensures Total(cartItems) == 0.0
      ensures forall id :: QuantityOf(cartItems, id) == 0
    {
      cartItems := [];
    }

    /** `getItemQuantity`: the matching line's quantity, or 0 when the id is not in the cart. */
    method GetItemQuantity(itemId: string) returns (q: int)
      requires Valid()
      ensures q == QuantityOf(cartItems, itemId)
      ensures q == 0 <==> itemId !in Ids(cartItems)
      ensures forall l :: l in cartItems && l.id == itemId ==> q == l.quantity
    {
      var found := Find(cartItems, itemId);
      q := if found.Some? then found.value.quantity else 0;
      forall l | l in cartItems && l.id == itemId ensures q == l.quantity {
        QuantityOfLine(cartItems, l);
      }
    }

    /** `getCartTotal`: the sum of price times quantity over the lines, 0 for an empty cart. */
    method GetCartTotal() returns (t: real)
      ensures t == Total(cartItems)
      ensures cartItems == [] ==> t == 0.0
    {
      t := Total(cartItems);
    }
  }
}

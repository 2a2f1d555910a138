/** The alternate cart and the two-screen navigator of components/MainApp.tsx. Its cart adds
    exactly one per call, whatever quantity the item carries, and its remove takes one away. */
module MainApp {
  import opened Options
  import opened Catalog
  import opened CartLines

  /** `addToCart(item)`: an existing id gains exactly one; a new id is appended with quantity one. */
  function Incremented(lines: seq<Line>, item: Line): seq<Line>
  {
    match Find(lines, item.id)
    case Some(_) => ShiftQuantity(lines, item.id, 1)
    case None => lines + [item.(quantity := 1)]
  }

  /** `removeFromCart(itemId)`: a line of quantity one is dropped, otherwise the id's quantity goes
      down by one (`map` over an absent id changes nothing). */
  function Decremented(lines: seq<Line>, itemId: string): seq<Line>
  {
    match Find(lines, itemId)
    case Some(existing) =>
      if existing.quantity == 1 then RemoveId(lines, itemId) else ShiftQuantity(lines, itemId, -1)
    case None => ShiftQuantity(lines, itemId, -1)
  }

  /** Adding raises the id's quantity by exactly one, ignoring `item.quantity`, and keeps the line. */
  lemma IncrementQuantity(lines: seq<Line>, item: Line)
    ensures QuantityOf(Incremented(lines, item), item.id) == QuantityOf(lines, item.id) + 1
    ensures item.id in Ids(Incremented(lines, item))
    ensures item.id !in Ids(lines) ==> Incremented(lines, item) == lines + [item.(quantity := 1)]
  {
    match Find(lines, item.id)
    case Some(f) => FindAfterShiftQuantity(lines, f, 1);
    case None => FindAppended(lines, item.(quantity := 1));
  }

  /** Removing lowers the id's quantity by one, down to absence; an absent id is a no-op. */
  lemma DecrementQuantity(lines: seq<Line>, itemId: string)
    requires WellFormed(lines)
    ensures QuantityOf(Decremented(lines, itemId), itemId) == if QuantityOf(lines, itemId) > 1 then QuantityOf(lines, itemId) - 1 else 0
    ensures itemId !in Ids(lines) ==> Decremented(lines, itemId) == lines
    ensures QuantityOf(lines, itemId) == 1 ==> itemId !in Ids(Decremented(lines, itemId))
  {
    match Find(lines, itemId)
    case Some(f) =>
      if f.quantity != 1 {
        FindAfterShiftQuantity(lines, f, -1);
      }
    case None =>
      ShiftQuantityAbsent(lines, itemId, -1);
  }

  /** Adding touches no other line and keeps the order of the other lines. */
  lemma IncrementLeavesOthers(lines: seq<Line>, item: Line)
    ensures RemoveId(Incremented(lines, item), item.id) == RemoveId(lines, item.id)
  {
    match Find(lines, item.id)
    case Some(_) =>
      RemoveAfterShiftQuantity(lines, item.id, 1);
    case None =>
      RemoveAppended(lines, item.(quantity := 1));
      RemoveAbsent(lines, item.id);
  }

  /** Removing touches no other line and keeps the order of the other lines. */
  lemma DecrementLeavesOthers(lines: seq<Line>, itemId: string)
    ensures RemoveId(Decremented(lines, itemId), itemId) == RemoveId(lines, itemId)
  {
    match Find(lines, itemId)
    case Some(existing) =>
      if existing.quantity == 1 {
        RemoveAbsent(RemoveId(lines, itemId), itemId);
      } else {
        RemoveAfterShiftQuantity(lines, itemId, -1);
      }
    case None =>
      RemoveAfterShiftQuantity(lines, itemId, -1);
  }

  /** Adding keeps ids unique and quantities at least one. */
  lemma IncrementWellFormed(lines: seq<Line>, item: Line)
    requires WellFormed(lines)
    ensures WellFormed(Incremented(lines, item))
  {
    match Find(lines, item.id)
    case Some(_) =>
      ShiftKeepsWellFormed(lines, item.id, 1);
    case None =>
      AppendNewUnique(lines, item.(quantity := 1));
  }

  /** Removing keeps ids unique and quantities at least one: a line is lowered only from two or more. */
  lemma DecrementWellFormed(lines: seq<Line>, itemId: string)
    requires WellFormed(lines)
    ensures WellFormed(Decremented(lines, itemId))
  {
    match Find(lines, itemId)
    case Some(existing) =>
      if existing.quantity == 1 {
        RemoveIdUnique(lines, itemId);
      } else {
        forall l | l in lines && l.id == itemId ensures l.quantity - 1 >= 1 {
          FindUnique(lines, l);
        }
        ShiftKeepsWellFormed(lines, itemId, -1);
      }
    case None =>
      ShiftQuantityAbsent(lines, itemId, -1);
  }

  /** Shifting an id's quantity by d keeps the invariant when its lines stay at one or more. */
  lemma ShiftKeepsWellFormed(lines: seq<Line>, id: string, d: int)
    requires WellFormed(lines)
    requires forall l :: l in lines && l.id == id ==> l.quantity + d >= 1
    ensures WellFormed(ShiftQuantity(lines, id, d))
  {
    var r := ShiftQuantity(lines, id, d);
    ShiftQuantityIds(lines, id, d);
    ShiftQuantityAt(lines, id, d);
    forall l | l in r ensures l.quantity >= 1 {
      var k :| 0 <= k < |r| && r[k] == l;
      assert lines[k] in lines;
    }
  }

  /** Adding one item and then removing it gives back the cart exactly, whether or not the
      item was in it. */
  lemma {:induction false} DecrementUndoesIncrement(lines: seq<Line>, item: Line)
    requires WellFormed(lines)
    ensures Decremented(Incremented(lines, item), item.id) == lines
  {
    match Find(lines, item.id)
    case Some(f) =>
      FindUnique(lines, f);
      FindAfterShiftQuantity(lines, f, 1);
      ShiftQuantityInverse(lines, item.id, 1);
    case None =>
      var nl := item.(quantity := 1);
      FindAppended(lines, nl);
      RemoveAppended(lines, nl);
  }

  /** `CartProvider` of components/MainApp.tsx. */
  class CartProvider {
    var cartItems: seq<Line>

    ghost predicate Valid()
      reads this
    {
      WellFormed(cartItems)
    }

    constructor ()
      ensures Valid() && cartItems == []
    {
      cartItems := [];
    }

    method AddToCart(item: Line)
      requires Valid()
      modifies this
      ensures Valid()
      ensures cartItems == Incremented(old(cartItems), item)
    {
      IncrementWellFormed(cartItems, item);
      cartItems := Incremented(cartItems, item);
    }

    method RemoveFromCart(itemId: string)
      requires Valid()
      modifies this
      ensures Valid()
      ensures cartItems == Decremented(old(cartItems), itemId)
    {
      DecrementWellFormed(cartItems, itemId);
      cartItems := Decremented(cartItems, itemId);
    }

    method ClearCart()
      modifies this
      ensures Valid() && cartItems == []
    {
      cartItems := [];
    }

    /** `getItemQuantity`: the matching line's quantity, or 0. */
    method GetItemQuantity(itemId: string) returns (q: int)
      requires Valid()
      ensures q == QuantityOf(cartItems, itemId)
      ensures q == 0 <==> itemId !in Ids(cartItems)
    {
      var found := Find(cartItems, itemId);
      q := if found.Some? then found.value.quantity else 0;
    }

    /** `getCartTotal`: the sum of price times quantity. */
    method GetCartTotal() returns (t: real)
      ensures t == Total(cartItems)
      ensures cartItems == [] ==> t == 0.0
    {
      t := Total(cartItems);
    }
  }

  /** The two screens of `AppContent`. */
  datatype AppScreen = AppHome | AppRestaurant

  /** `AppContent`: no history; going back always lands on home. */
  class AppContent {
    var currentScreen: AppScreen
    var selectedRestaurant: Option<Restaurant>

    constructor ()
      ensures currentScreen == AppHome && selectedRestaurant == None
    {
      currentScreen := AppHome;
      selectedRestaurant := None;
    }

    method Navigate(screen: AppScreen)
      modifies this
      ensures currentScreen == screen && selectedRestaurant == old(selectedRestaurant)
    {
      currentScreen := screen;
    }

    /** `goBack()`: home, whatever the screen was. */
    method GoBack()
      modifies this
      ensures currentScreen == AppHome && selectedRestaurant == old(selectedRestaurant)
    {
      currentScreen := AppHome;
    }

    /** The home screen's `onNavigateToRestaurant`: store the restaurant, then open its screen. */
    method OnNavigateToRestaurant(restaurant: Restaurant)
      modifies this
      ensures selectedRestaurant == Some(restaurant) && currentScreen == AppRestaurant
    {
      selectedRestaurant := Some(restaurant);
      Navigate(AppRestaurant);
    }
  }
}

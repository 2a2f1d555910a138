/** The live navigation store of context/NavigationContext.tsx: a fourteen-screen back stack,
    the selected restaurant, and an older cart ledger that never drops lines on add. */
module NavigationContext {
  import opened Options
  import opened Screens
  import opened Catalog
  import opened CartLines
  import ScreenHistory

  /** The older `addToCart`: an existing line's quantity is shifted by `item.quantity || 1`
      whatever the sign; a new id is appended with that quantity, even a negative one. */
  function LegacyAdded(lines: seq<Line>, item: ItemInput): seq<Line>
  {
    match Find(lines, item.id)
    case Some(_) => ShiftQuantity(lines, item.id, OrOne(item.quantity))
    case None => lines + [NewLine(item, OrOne(item.quantity))]
  }

  /** `updateCartItem(id, q)`: drop the id when q is zero or below, otherwise set its quantity to q. */
  function CartItemUpdated(lines: seq<Line>, id: string, q: int): seq<Line>
  {
    if q <= 0 then RemoveId(lines, id) else SetQuantity(lines, id, q)
  }

  /** The older `addToCart` always adds `item.quantity || 1` to the id's quantity, and never
      removes the line, so a quantity of zero or below stays in the cart. */
  lemma LegacyAddQuantity(lines: seq<Line>, item: ItemInput)
    ensures QuantityOf(LegacyAdded(lines, item), item.id) == QuantityOf(lines, item.id) + OrOne(item.quantity)
    ensures item.id in Ids(LegacyAdded(lines, item))
  {
    match Find(lines, item.id)
    case Some(f) =>
      FindAfterShiftQuantity(lines, f, OrOne(item.quantity));
    case None =>
      FindAppended(lines, NewLine(item, OrOne(item.quantity)));
  }

  /** A new id is appended at the end with quantity `item.quantity || 1`, whatever its sign. */
  lemma LegacyAddNewAppends(lines: seq<Line>, item: ItemInput)
    requires item.id !in Ids(lines)
    ensures LegacyAdded(lines, item) == lines + [NewLine(item, OrOne(item.quantity))]
    ensures item.quantity == Some(-2) ==> LegacyAdded(lines, item)[|lines|].quantity == -2
  {
  }

  /** The older `addToCart` leaves every other line, in order, unchanged. */
  lemma LegacyAddLeavesOthers(lines: seq<Line>, item: ItemInput)
    ensures RemoveId(LegacyAdded(lines, item), item.id) == RemoveId(lines, item.id)
  {
    match Find(lines, item.id)
    case Some(_) =>
      RemoveAfterShiftQuantity(lines, item.id, OrOne(item.quantity));
    case None =>
      var nl := NewLine(item, OrOne(item.quantity));
      RemoveAppended(lines, nl);
      RemoveAbsent(lines, item.id);
  }

  /** The older `addToCart` keeps ids unique: it appends only when no line has the id. */
  lemma LegacyAddKeepsUnique(lines: seq<Line>, item: ItemInput)
    requires UniqueIds(lines)
    ensures UniqueIds(LegacyAdded(lines, item))
  {
    match Find(lines, item.id)
    case Some(_) =>
      ShiftQuantityIds(lines, item.id, OrOne(item.quantity));
    case None =>
      AppendNewUnique(lines, NewLine(item, OrOne(item.quantity)));
  }

  /** Unlike the live cart, the older one keeps a line whose quantity a "-1" brings to zero. */
  lemma LegacyKeepsEmptiedLine(l: Line)
    requires l.quantity == 1
    ensures LegacyAdded([l], AsInput(l, Some(-1))) == [l.(quantity := 0)]
    ensures QuantityOf(LegacyAdded([l], AsInput(l, Some(-1))), l.id) == 0
    ensures l.id in Ids(LegacyAdded([l], AsInput(l, Some(-1))))
  {
    var r := LegacyAdded([l], AsInput(l, Some(-1)));
    assert r[0] in r;
  }

  /** `updateCartItem(id, q)` with q at most zero removes the id; with q positive it sets an
      existing line's quantity to exactly q and does not create a line for an absent id; every
      other line is left as it was, and unique ids and positive quantities are kept. */
  lemma UpdateCartItemEffect(lines: seq<Line>, id: string, q: int)
    ensures q <= 0 ==> id !in Ids(CartItemUpdated(lines, id, q))
    ensures q > 0 && id in Ids(lines) ==> QuantityOf(CartItemUpdated(lines, id, q), id) == q
    ensures q > 0 && id !in Ids(lines) ==> CartItemUpdated(lines, id, q) == lines
    ensures RemoveId(CartItemUpdated(lines, id, q), id) == RemoveId(lines, id)
    ensures UniqueIds(lines) ==> UniqueIds(CartItemUpdated(lines, id, q))
  {
    if q <= 0 {
      RemoveAbsent(RemoveId(lines, id), id);
      if UniqueIds(lines) {
        RemoveIdUnique(lines, id);
      }
    } else {
      if id in Ids(lines) {
        FindAfterSetQuantity(lines, id, q);
      } else {
        SetQuantityAbsent(lines, id, q);
      }
      RemoveAfterSetQuantity(lines, id, q);
      SetQuantityIds(lines, id, q);
    }
  }

  /** `updateCartItem` keeps the live cart's invariant: unique ids and quantities of at least one. */
  lemma UpdateCartItemWellFormed(lines: seq<Line>, id: string, q: int)
    requires WellFormed(lines)
    ensures WellFormed(CartItemUpdated(lines, id, q))
  {
    if q <= 0 {
      RemoveIdUnique(lines, id);
    } else {
      var r := SetQuantity(lines, id, q);
      SetQuantityIds(lines, id, q);
      SetQuantityAt(lines, id, q);
      forall l | l in r ensures l.quantity >= 1 {
        var k :| 0 <= k < |r| && r[k] == l;
        assert lines[k] in lines;
      }
    }
  }

  /** `NavigationProvider`: the four state cells of the store. */
  class NavigationProvider {
    var currentScreen: Screen
    var screenHistory: seq<Screen>
    var selectedRestaurant: Option<Restaurant>
    var cartItems: seq<Line>

    /** The older cart only keeps ids unique; quantities may reach zero or below. */
    ghost predicate Valid()
      reads this
    {
      UniqueIds(cartItems)
    }

    /** The back stack as a navigator value. */
    function Nav(): ScreenHistory.Navigator<Screen>
      reads this
    {
      ScreenHistory.Navigator(currentScreen, screenHistory)
    }

    /** Starts on the splash screen with empty history, no restaurant and an empty cart. */
    constructor ()
      ensures Valid()
      ensures currentScreen == Splash && screenHistory == []
      ensures selectedRestaurant == None && cartItems == []
    {
      currentScreen := Splash;
      screenHistory := [];
      selectedRestaurant := None;
      cartItems := [];
    }

    /** `navigate(screen)`: push the current screen, even when it equals `screen`. */
    method Navigate(screen: Screen)
      modifies this
      ensures Nav() == ScreenHistory.Navigate(old(Nav()), screen)
      ensures |screenHistory| == |old(screenHistory)| + 1
      ensures selectedRestaurant == old(selectedRestaurant) && cartItems == old(cartItems)
    {
      screenHistory := screenHistory + [currentScreen];
      currentScreen := screen;
    }

    /** `goBack()`: pop the last screen into current; nothing happens on empty history. */
    method GoBack()
      modifies this
      ensures Nav() == ScreenHistory.GoBack(old(Nav()))
      ensures old(screenHistory) == [] ==> currentScreen == old(currentScreen) && screenHistory == []
      ensures old(screenHistory) != [] ==> screenHistory + [currentScreen] == old(screenHistory)
      ensures selectedRestaurant == old(selectedRestaurant) && cartItems == old(cartItems)
    {
      if |screenHistory| > 0 {
        var previous := screenHistory[|screenHistory| - 1];
        screenHistory := screenHistory[..|screenHistory| - 1];
        currentScreen := previous;
      }
    }

    method SetSelectedRestaurant(restaurant: Option<Restaurant>)
      modifies this
      ensures selectedRestaurant == restaurant
      ensures Nav() == old(Nav()) && cartItems == old(cartItems)
    {
      selectedRestaurant := restaurant;
    }

    /** The older `addToCart`. */
    method AddToCart(item: ItemInput)
      requires Valid()
      modifies this
      ensures Valid()
      ensures cartItems == LegacyAdded(old(cartItems), item)
      ensures QuantityOf(cartItems, item.id) == QuantityOf(old(cartItems), item.id) + OrOne(item.quantity)
      ensures Nav() == old(Nav()) && selectedRestaurant == old(selectedRestaurant)
    {
      LegacyAddKeepsUnique(cartItems, item);
      LegacyAddQuantity(cartItems, item);
      cartItems := LegacyAdded(cartItems, item);
    }

    /** `updateCartItem(itemId, quantity)`. */
    method UpdateCartItem(itemId: string, quantity: int)
      requires Valid()
      modifies this
      ensures Valid()
      ensures cartItems == CartItemUpdated(old(cartItems), itemId, quantity)
      ensures Nav() == old(Nav()) && selectedRestaurant == old(selectedRestaurant)
    {
      UpdateCartItemEffect(cartItems, itemId, quantity);
      if quantity <= 0 {
        cartItems := RemoveId(cartItems, itemId);
      } else {
        cartItems := SetQuantity(cartItems, itemId, quantity);
      }
    }

    method ClearCart()
      modifies this
      ensures Valid() && cartItems == []
      ensures Nav() == old(Nav()) && selectedRestaurant == old(selectedRestaurant)
    {
      cartItems := [];
    }
  }
}

/** The cart screen of components/CartScreen.tsx: its "+" and "-" handlers on the live cart, the
    Clear button, the order summary, and the gate that shows only an empty state for an empty cart. */
module CartScreen {
  import opened Options
  import opened Screens
  import opened CartLines
  import opened CartContext
  import opened Pricing
  import ScreenHistory
  import NavigationContext

  /** What the screen renders: the empty state alone, or the lines with their summary. */
  datatype CartView = EmptyCart | FullCart(summary: Summary)

  /** `if (cartItems.length === 0) return <empty state/>`, otherwise the summary of `getCartTotal()`. */
  function View(lines: seq<Line>): (v: CartView)
    ensures v.EmptyCart? <==> lines == []
    ensures v.FullCart? ==> v.summary.subtotal == Total(lines) && v.summary.deliveryFee == DeliveryFee
  {
    if |lines| == 0 then EmptyCart else FullCart(Summarize(Total(lines)))
  }

  /** `handleIncreaseQuantity(item)`: `addToCart({ ...item, quantity: 1 })`. */
  function Increased(lines: seq<Line>, l: Line): seq<Line>
  {
    Added(lines, AsInput(l, Some(1)))
  }

  /** `handleDecreaseQuantity(item)`: remove the line at quantity one, otherwise add -1. */
  function Decreased(lines: seq<Line>, l: Line): seq<Line>
  {
    if l.quantity == 1 then RemoveId(lines, l.id) else Added(lines, AsInput(l, Some(-1)))
  }

  /** "+" on a line of the cart raises exactly that line's quantity by one and keeps the rest. */
  lemma IncreaseEffect(lines: seq<Line>, l: Line)
    requires WellFormed(lines) && l in lines
    ensures QuantityOf(Increased(lines, l), l.id) == l.quantity + 1
    ensures RemoveId(Increased(lines, l), l.id) == RemoveId(lines, l.id)
    ensures WellFormed(Increased(lines, l))
  {
    QuantityOfLine(lines, l);
    AddQuantity(lines, AsInput(l, Some(1)));
    AddLeavesOthers(lines, AsInput(l, Some(1)));
    AddKeepsWellFormed(lines, AsInput(l, Some(1)));
  }

  /** "-" on a line of the cart lowers that line's quantity by one, so the line either disappears
      (from one) or keeps a quantity of at least one; the rest is kept. The special case for one
      gives the same cart as adding -1 would. */
  lemma DecreaseEffect(lines: seq<Line>, l: Line)
    requires WellFormed(lines) && l in lines
    ensures QuantityOf(Decreased(lines, l), l.id) == l.quantity - 1
    ensures l.quantity == 1 <==> l.id !in Ids(Decreased(lines, l))
    ensures RemoveId(Decreased(lines, l), l.id) == RemoveId(lines, l.id)
    ensures WellFormed(Decreased(lines, l))
    ensures Decreased(lines, l) == Added(lines, AsInput(l, Some(-1)))
  {
    var minus := AsInput(l, Some(-1));
    QuantityOfLine(lines, l);
    AddQuantity(lines, minus);
    AddLeavesOthers(lines, minus);
    AddKeepsWellFormed(lines, minus);
    if l.quantity == 1 {
      AddExistingDrops(lines, minus, l);
    }
  }

  /** "+" and then "-" on the line as it is rendered afterwards gives back the cart. */
  lemma DecreaseUndoesIncrease(lines: seq<Line>, l: Line, shown: Line)
    requires WellFormed(lines) && l in lines
    requires shown.id == l.id && shown.quantity == l.quantity + 1
    ensures Decreased(Increased(lines, l), shown) == lines
  {
    AddThenSubtractRestores(lines, AsInput(l, Some(1)), AsInput(shown, Some(-1)));
  }

  /** The screen's handlers, acting on the live cart store and the navigation store. */
  method HandleIncreaseQuantity(cart: CartProvider, l: Line)
    requires cart.Valid()
    modifies cart
    ensures cart.Valid() && cart.cartItems == Increased(old(cart.cartItems), l)
  {
    cart.AddToCart(AsInput(l, Some(1)));
  }

  method HandleDecreaseQuantity(cart: CartProvider, l: Line)
    requires cart.Valid()
    modifies cart
    ensures cart.Valid() && cart.cartItems == Decreased(old(cart.cartItems), l)
  {
    if l.quantity == 1 {
      cart.RemoveFromCart(l.id);
    } else {
      cart.AddToCart(AsInput(l, Some(-1)));
    }
  }

  /** The Clear button. */
  method HandleClear(cart: CartProvider)
    modifies cart
    ensures cart.Valid() && cart.cartItems == [] && View(cart.cartItems) == EmptyCart
  {
    cart.ClearCart();
  }

  /** "Proceed to Checkout" is rendered only below a non-empty cart. */
  method ProceedToCheckout(cart: CartProvider, nav: NavigationContext.NavigationProvider)
    requires View(cart.cartItems).FullCart?
    modifies nav
    ensures nav.Nav() == ScreenHistory.Navigate(old(nav.Nav()), Checkout)
    ensures nav.cartItems == old(nav.cartItems)
  {
    nav.Navigate(Checkout);
  }

  /** "Browse Menu" in the empty state. */
  method BrowseMenu(nav: NavigationContext.NavigationProvider)
    modifies nav
    ensures nav.Nav() == ScreenHistory.Navigate(old(nav.Nav()), Home)
  {
    nav.Navigate(Home);
  }
}

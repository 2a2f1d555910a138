/** The restaurant screen of components/RestaurantDetail.tsx: its view of the live cart scoped to
    one restaurant, its add and remove handlers, the cart footer and the tab state. */
module RestaurantDetail {
  import opened Options
  import opened Screens
  import opened Catalog
  import opened CartLines
  import opened CartContext
  import ScreenHistory
  import NavigationContext

  /** A line belongs to the screen's restaurant when it carries that restaurant's id or no id at all. */
  predicate InScope(l: Line, restaurantId: string)
  {
    l.restaurantId == Some(restaurantId) || l.restaurantId.None?
  }

  /** `restaurantCartItems`: the lines in scope, in cart order. */
  function ScopedLines(lines: seq<Line>, restaurantId: string): (r: seq<Line>)
    ensures forall l :: l in r <==> l in lines && InScope(l, restaurantId)
    ensures |r| <= |lines|
  {
    if lines == [] then []
    else if InScope(lines[0], restaurantId) then [lines[0]] + ScopedLines(lines[1..], restaurantId)
    else ScopedLines(lines[1..], restaurantId)
  }

  /** `totalItems`: the sum of the quantities of the scoped lines. */
  function TotalItems(lines: seq<Line>, restaurantId: string): int
  {
    ItemCount(ScopedLines(lines, restaurantId))
  }

  /** `cartTotal`: price times quantity summed over the scoped lines. */
  function ScopedTotal(lines: seq<Line>, restaurantId: string): real
  {
    Total(ScopedLines(lines, restaurantId))
  }

  /** The cart footer (`totalItems > 0 && ...`). */
  predicate FooterShown(lines: seq<Line>, restaurantId: string)
  {
    TotalItems(lines, restaurantId) > 0
  }

  /** A sum of positive quantities is positive exactly when there is something to sum. */
  lemma {:induction false} ItemCountPositive(lines: seq<Line>)
    requires PositiveQuantities(lines)
    ensures ItemCount(lines) > 0 <==> lines != []
    ensures ItemCount(lines) >= |lines|
  {
  }

  /** With the live cart's invariant, the footer is shown exactly when some line of the cart is in
      this restaurant's scope, and the count it shows is at least the number of such lines. */
  lemma FooterIffScopedLine(lines: seq<Line>, restaurantId: string)
    requires WellFormed(lines)
    ensures FooterShown(lines, restaurantId) <==> exists l :: l in lines && InScope(l, restaurantId)
    ensures TotalItems(lines, restaurantId) >= |ScopedLines(lines, restaurantId)|
  {
    var r := ScopedLines(lines, restaurantId);
    ItemCountPositive(r);
    if r != [] {
      assert r[0] in r;
    }
  }

  /** `{ ...item, restaurantId: restaurant.id, restaurantName: restaurant.name }`; a menu item
      carries no quantity, so the ledger adds one. */
  function Tagged(item: MenuItem, restaurant: Restaurant): (input: ItemInput)
    ensures input.id == item.id && input.quantity.None?
  {
    ItemInput(item.id, item.name, item.description, item.price, item.image, None,
              Some(restaurant.id), Some(restaurant.name))
  }

  /** `{ id: itemId, quantity: -1 }`. The other fields are absent in the source; the ledger never
      reads them on this input, since a -1 on an absent id appends nothing. */
  function MinusOne(itemId: string): ItemInput
  {
    ItemInput(itemId, "", "", 0.0, "", Some(-1), None, None)
  }

  /** `handleRemoveFromCart(itemId)`: remove the line at quantity one, otherwise add -1. */
  function RemovedOne(lines: seq<Line>, itemId: string): seq<Line>
  {
    match Find(lines, itemId)
    case Some(l) => if l.quantity == 1 then RemoveId(lines, itemId) else Added(lines, MinusOne(itemId))
    case None => Added(lines, MinusOne(itemId))
  }

  /** Adding from this screen an item that is not in the cart creates its line tagged with the
      restaurant, with quantity one. */
  lemma TagsOnCreate(lines: seq<Line>, item: MenuItem, restaurant: Restaurant)
    requires item.id !in Ids(lines)
    ensures Find(Added(lines, Tagged(item, restaurant)), item.id)
              == Some(Line(item.id, item.name, item.description, item.price, item.image, 1,
                           Some(restaurant.id), Some(restaurant.name)))
  {
    FindAppended(lines, NewLine(Tagged(item, restaurant), 1));
  }

  /** Adding an item that is already in the cart keeps the tags the line was created with,
      whichever restaurant's screen the add comes from, and raises its quantity by one. */
  lemma {:induction false} TagsKeptOnMerge(lines: seq<Line>, item: MenuItem, restaurant: Restaurant, l: Line)
    requires WellFormed(lines) && l in lines && l.id == item.id
    ensures Find(Added(lines, Tagged(item, restaurant)), item.id) == Some(l.(quantity := l.quantity + 1))
  {
    var input := Tagged(item, restaurant);
    assert Added(lines, input) == SetQuantity(lines, item.id, l.quantity + 1) by {
      FindUnique(lines, l);
      AddedMerge(lines, input, l);
    }
    PlusOnExistingFind(lines, item.id, l);
  }

  /** "-" on a menu item lowers its cart quantity by one down to absence; for an id not in the
      cart it changes nothing; other lines and the live cart's invariant are kept. */
  lemma RemoveOneEffect(lines: seq<Line>, itemId: string)
    requires WellFormed(lines)
    ensures QuantityOf(RemovedOne(lines, itemId), itemId) == Clip(QuantityOf(lines, itemId) - 1)
    ensures itemId !in Ids(lines) ==> RemovedOne(lines, itemId) == lines
    ensures RemoveId(RemovedOne(lines, itemId), itemId) == RemoveId(lines, itemId)
    ensures WellFormed(RemovedOne(lines, itemId))
  {
    AddQuantity(lines, MinusOne(itemId));
    AddLeavesOthers(lines, MinusOne(itemId));
    AddKeepsWellFormed(lines, MinusOne(itemId));
    match Find(lines, itemId)
    case Some(l) =>
      if l.quantity == 1 {
        RemoveAbsent(RemoveId(lines, itemId), itemId);
        RemoveKeepsWellFormed(lines, itemId);
      }
    case None =>
  }

  /** The screen's three tabs. */
  datatype Tab = MenuTab | ReviewsTab | InfoTab

  /** What the screen renders. */
  datatype DetailView =
    | NoRestaurantView
    | RestaurantView(restaurant: Restaurant, totalItems: int, cartTotal: real, footer: bool)

  /** `if (!restaurant)`: only the error view, whose one action goes back; otherwise the
      scoped figures and the footer. */
  function Render(selected: Option<Restaurant>, lines: seq<Line>): (v: DetailView)
    ensures v.NoRestaurantView? <==> selected.None?
    ensures v.RestaurantView? ==>
              && v.totalItems == TotalItems(lines, selected.value.id)
              && v.cartTotal == ScopedTotal(lines, selected.value.id)
              && (v.footer <==> FooterShown(lines, selected.value.id))
  {
    match selected
    case None => NoRestaurantView
    case Some(r) => RestaurantView(r, TotalItems(lines, r.id), ScopedTotal(lines, r.id), FooterShown(lines, r.id))
  }

  /** The screen's own state: the restaurant it was given and the active tab. */
  class RestaurantDetailScreen {
    const restaurant: Option<Restaurant>
    var activeTab: Tab

    constructor (restaurant: Option<Restaurant>)
      ensures this.restaurant == restaurant && activeTab == MenuTab
    {
      this.restaurant := restaurant;
      activeTab := MenuTab;
    }

    method SetActiveTab(tab: Tab)
      modifies this
      ensures activeTab == tab
    {
      activeTab := tab;
    }

    /** `getItemQuantity(itemId)`: the quantity shown beside a menu item. */
    method GetItemQuantity(cart: CartProvider, itemId: string) returns (q: int)
      requires cart.Valid()
      ensures q == QuantityOf(cart.cartItems, itemId)
      ensures q == 0 <==> itemId !in Ids(cart.cartItems)
    {
      q := cart.GetItemQuantity(itemId);
    }

    /** `handleAddToCart(item)`: offered only when a restaurant is shown. */
    method HandleAddToCart(cart: CartProvider, item: MenuItem)
      requires restaurant.Some? && cart.Valid()
      modifies cart
      ensures cart.Valid()
      ensures cart.cartItems == Added(old(cart.cartItems), Tagged(item, restaurant.value))
    {
      cart.AddToCart(Tagged(item, restaurant.value));
    }

    /** `handleRemoveFromCart(itemId)`. */
    method HandleRemoveFromCart(cart: CartProvider, itemId: string)
      requires restaurant.Some? && cart.Valid()
      modifies cart
      ensures cart.Valid()
      ensures cart.cartItems == RemovedOne(old(cart.cartItems), itemId)
    {
      var found := Find(cart.cartItems, itemId);
      if found.Some? && found.value.quantity == 1 {
        cart.RemoveFromCart(itemId);
      } else {
        cart.AddToCart(MinusOne(itemId));
      }
    }

    /** The footer's button, rendered only while the footer is shown. */
    method GoToCart(cart: CartProvider, nav: NavigationContext.NavigationProvider)
      requires restaurant.Some? && FooterShown(cart.cartItems, restaurant.value.id)
      modifies nav
      ensures nav.Nav() == ScreenHistory.Navigate(old(nav.Nav()), Screens.Cart)
      ensures nav.cartItems == old(nav.cartItems)
    {
      nav.Navigate(Screens.Cart);
    }
  }
}

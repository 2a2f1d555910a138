/** The main layout of app/_layout.tsx: a local mirror of the current tab, kept in step with the
    navigation store for the six main screens, and the restaurant it is showing. */
module Layout {
  import opened Options
  import opened Screens
  import opened Catalog
  import ScreenHistory
  import NavigationContext

  /** The sync effect: the local screen adopts the store's current screen when that is one of the
      six main screens, and otherwise keeps its value. */
  function Synced(local: MainScreen, current: Screen): (r: MainScreen)
    ensures AsMainScreen(current).Some? ==> ToScreen(r) == current
    ensures AsMainScreen(current).None? ==> r == local
  {
    match AsMainScreen(current)
    case Some(m) => m
    case None => local
  }

  /** Once the store shows the screen a handler has just set locally, the effect leaves it. */
  lemma SyncAfterHandler(local: MainScreen)
    ensures Synced(local, ToScreen(local)) == local
  {
    MainScreenRoundTrip(local, ToScreen(local));
  }

  /** `showBackButton`. */
  predicate ShowBackButton(local: MainScreen)
  {
    local == MainRestaurant
  }

  /** `showBottomNav`: `!['restaurant'].includes(localScreen)`. */
  predicate ShowBottomNav(local: MainScreen)
  {
    local !in [MainRestaurant]
  }

  /** Exactly one of the back button and the bottom bar is shown. */
  lemma BackButtonXorBottomNav(local: MainScreen)
    ensures ShowBackButton(local) <==> !ShowBottomNav(local)
  {
  }

  /** Leaving a restaurant with the layout's back button navigates forward to Home: the store's
      history grows by two entries over the visit, and a later `goBack` shows the restaurant again
      instead of what was shown before it. */
  lemma BackFromRestaurantPushes(n: ScreenHistory.Navigator<Screen>)
    ensures ScreenHistory.Navigate(ScreenHistory.Navigate(n, Screen.Restaurant), Home).history
              == n.history + [n.current, Screen.Restaurant]
    ensures ScreenHistory.GoBack(ScreenHistory.Navigate(ScreenHistory.Navigate(n, Screen.Restaurant), Home)).current
              == Screen.Restaurant
  {
    var m := ScreenHistory.Navigate(ScreenHistory.Navigate(n, Screen.Restaurant), Home);
    assert m.history == n.history + [n.current] + [Screen.Restaurant];
  }

  /** The layout's own state. */
  class MainLayout {
    var localScreen: MainScreen
    var selectedRestaurant: Option<Restaurant>

    /** `useState<MainScreen>('home')` and `useState<any>(null)`. */
    constructor ()
      ensures localScreen == MainHome && selectedRestaurant == None
    {
      localScreen := MainHome;
      selectedRestaurant := None;
    }

    /** The effect on `[currentScreen]`. */
    method SyncWith(current: Screen)
      modifies this
      ensures localScreen == Synced(old(localScreen), current)
      ensures selectedRestaurant == old(selectedRestaurant)
    {
      var m := AsMainScreen(current);
      if m.Some? {
        localScreen := m.value;
      }
    }

    /** `handleNavigate(screen)`: set the local screen, then navigate the store. */
    method HandleNavigate(nav: NavigationContext.NavigationProvider, screen: MainScreen)
      modifies this, nav
      ensures localScreen == screen && selectedRestaurant == old(selectedRestaurant)
      ensures nav.Nav() == ScreenHistory.Navigate(old(nav.Nav()), ToScreen(screen))
      ensures nav.cartItems == old(nav.cartItems) && nav.selectedRestaurant == old(nav.selectedRestaurant)
    {
      localScreen := screen;
      nav.Navigate(ToScreen(screen));
    }

    /** `handleNavigateToRestaurant(restaurant)`: keep the record, show the restaurant screen and
        navigate the store to it. */
    method HandleNavigateToRestaurant(nav: NavigationContext.NavigationProvider, restaurant: Catalog.Restaurant)
      modifies this, nav
      ensures selectedRestaurant == Some(restaurant) && localScreen == MainRestaurant
      ensures ShowBackButton(localScreen) && !ShowBottomNav(localScreen)
      ensures nav.Nav() == ScreenHistory.Navigate(old(nav.Nav()), Screen.Restaurant)
      ensures nav.cartItems == old(nav.cartItems) && nav.selectedRestaurant == old(nav.selectedRestaurant)
    {
      selectedRestaurant := Some(restaurant);
      localScreen := MainRestaurant;
      nav.Navigate(Screen.Restaurant);
    }

    /** `handleGoBackFromRestaurant`: show Home, drop the record, and navigate the store to Home,
        which pushes the restaurant screen onto its history. */
    method HandleGoBackFromRestaurant(nav: NavigationContext.NavigationProvider)
      modifies this, nav
      ensures localScreen == MainHome && selectedRestaurant == None
      ensures !ShowBackButton(localScreen) && ShowBottomNav(localScreen)
      ensures nav.Nav() == ScreenHistory.Navigate(old(nav.Nav()), Home)
      ensures |nav.screenHistory| == |old(nav.screenHistory)| + 1
      ensures nav.cartItems == old(nav.cartItems) && nav.selectedRestaurant == old(nav.selectedRestaurant)
    {
      localScreen := MainHome;
      selectedRestaurant := None;
      nav.Navigate(Home);
    }
  }
}

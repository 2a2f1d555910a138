/** Screen identifiers of the navigators. */
module Screens {
  import opened Options

  /** The fourteen screens of the full navigator (`Screen` in context/NavigationContext.tsx). */
  datatype Screen =
    | Splash | Onboarding | Login | Home | Search | Restaurant | Cart | Checkout
    | Confirmation | Orders | Favorites | Profile | Privacy | Terms

  /** The six main screens shared by the simple navigator and the main layout. */
  datatype MainScreen = MainHome | MainSearch | MainOrders | MainFavorites | MainProfile | MainRestaurant

  /** A main screen as a screen of the full navigator. */
  function ToScreen(m: MainScreen): Screen
  {
    match m
    case MainHome => Home
    case MainSearch => Search
    case MainOrders => Orders
    case MainFavorites => Favorites
    case MainProfile => Profile
    case MainRestaurant => Restaurant
  }

  /** The main screen a screen stands for, if it is one of the six
      (`['home', 'search', 'orders', 'favorites', 'profile', 'restaurant'].includes(s)`). */
  function AsMainScreen(s: Screen): (r: Option<MainScreen>)
    ensures r.Some? ==> ToScreen(r.value) == s
  {
    match s
    case Home => Some(MainHome)
    case Search => Some(MainSearch)
    case Orders => Some(MainOrders)
    case Favorites => Some(MainFavorites)
    case Profile => Some(MainProfile)
    case Restaurant => Some(MainRestaurant)
    case _ => None
  }

  /** The two conversions are inverse on the six main screens, and nothing else converts. */
  lemma MainScreenRoundTrip(m: MainScreen, s: Screen)
    ensures AsMainScreen(ToScreen(m)) == Some(m)
    ensures AsMainScreen(s).None? <==> s in {Splash, Onboarding, Login, Cart, Checkout, Confirmation, Privacy, Terms}
  {
  }
}

/** The six-screen navigation store of context/SimpleNavigationProvider.tsx. */
module SimpleNavigation {
  import opened Options
  import opened Screens
  import opened Catalog
  import ScreenHistory

  /** `SimpleNavigationProvider`: screens are restricted to the six main identifiers by type. */
  class SimpleNavigationProvider {
    var currentScreen: MainScreen
    var screenHistory: seq<MainScreen>
    var selectedRestaurant: Option<Restaurant>

    function Nav(): ScreenHistory.Navigator<MainScreen>
      reads this
    {
      ScreenHistory.Navigator(currentScreen, screenHistory)
    }

    /** Starts on the home screen with empty history and no restaurant. */
    constructor ()
      ensures currentScreen == MainHome && screenHistory == [] && selectedRestaurant == None
    {
      currentScreen := MainHome;
      screenHistory := [];
      selectedRestaurant := None;
    }

    /** `navigate(screen)`: push the current screen, then make `screen` current. */
    method Navigate(screen: MainScreen)
      modifies this
      ensures Nav() == ScreenHistory.Navigate(old(Nav()), screen)
      ensures selectedRestaurant == old(selectedRestaurant)
    {
      screenHistory := screenHistory + [currentScreen];
      currentScreen := screen;
    }

    /** `goBack()`: pop the last history entry into current; a no-op on empty history. */
    method GoBack()
      modifies this
      ensures Nav() == ScreenHistory.GoBack(old(Nav()))
      ensures old(screenHistory) == [] ==> Nav() == old(Nav())
      ensures selectedRestaurant == old(selectedRestaurant)
    {
      if |screenHistory| > 0 {
        var previous := screenHistory[|screenHistory| - 1];
        screenHistory := screenHistory[..|screenHistory| - 1];
        currentScreen := previous;
      }
    }

    method SetSelectedRestaurant(restaurant: Option<Restaurant>)
      modifies this
      ensures selectedRestaurant == restaurant && Nav() == old(Nav())
    {
      selectedRestaurant := restaurant;
    }
  }
}

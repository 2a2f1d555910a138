# Food-ordering app core, modelled in Dafny

This project models the in-memory state machines of a React Native food-ordering front end and
proves properties about them:

- **Three cart ledgers**, each modelled separately.
  - The live one in `context/CartContext.tsx`: lines keyed by id, merged by a signed delta, dropped at zero or below.
  - The older one in `context/NavigationContext.tsx`: never drops a line on add, and has a "set quantity" operation.
  - The one in `components/MainApp.tsx`: +1 per add, −1 per remove.
- **Navigators.**
  - The fourteen-screen back stack of `context/NavigationContext.tsx`.
  - The six-screen back stack of `context/SimpleNavigationProvider.tsx`.
  - The two-screen navigator of `components/MainApp.tsx`, which keeps no history.
  - The local tab mirror of `app/_layout.tsx`.
- **Screen rules.**
  - The cart screen's "+"/"−" handlers, empty-cart gate and order summary.
  - The restaurant screen's scoped lines, counts, footer and add/remove handlers.
  - The three-step checkout stepper and order placement.
- **Small UI state machines.**
  - The search predicate and filter toggle.
  - The onboarding slide counter.
  - Translation lookup with key fallback.
  - The prioritised menu selection of the home screen.

Each React store is a Dafny `class` whose fields are the component's state cells. Its methods
reassign those fields, as `setState` does, and each method is proved against a pure function of
the old state. The properties are lemmas about those functions.

Modules, one per source file, plus shared ones:

| module | source |
|---|---|
| `Options`, `Strings`, `Screens`, `Catalog` | shared value types; ASCII `toLowerCase` and `includes` |
| `CartLines` | the cart line record and the find/filter/map/reduce helpers the ledgers share |
| `ScreenHistory` | the `navigate`/`goBack` back stack shared by both history navigators |
| `Pricing` | subtotal + 2.99 fee + 10% tax, shared by the cart and checkout screens |
| `CartContext` | context/CartContext.tsx |
| `NavigationContext` | context/NavigationContext.tsx (lines 122 on) |
| `SimpleNavigation` | context/SimpleNavigationProvider.tsx |
| `MainApp` | components/MainApp.tsx |
| `CartScreen` | components/CartScreen.tsx |
| `RestaurantDetail` | components/RestaurantDetail.tsx |
| `CheckoutScreen` | components/CheckoutScreen.tsx |
| `SearchScreen` | components/SearchScreen.tsx |
| `Onboarding` | components/Onboarding.tsx |
| `LanguageContext` | context/LanguageContext.tsx |
| `HomeScreen` | components/HomeScreen.tsx (lines 747 on) |
| `Layout` | app/_layout.tsx |

Modelling choices:

- Money is `real`, so the order in which `reduce` adds does not matter.
- `item.quantity || 1` is `CartLines.OrOne`: a missing or zero delta counts as one.
- `undefined`/`null` is `Options.Option`.
- Strings are `seq<char>`. Lower-casing is ASCII-only.
- Navigating to the current screen pushes it, so that screen can be both current and on top of
  the history (`ScreenHistory.NavigateToCurrentDuplicates`).
- The search screen's store lists what the code lists, with the category filter as written
  (`SearchScreen.ResultsAsWritten`). The filter as intended (`SearchScreen.Results`) is the
  corrected half of the finding below.

## Model

| member | source | states |
|---|---|---|
| CartLines.OrOne | context/CartContext.tsx:34 | `item.quantity \|\| 1` is never zero, and it is negative exactly when a negative quantity is given |
| CartLines.Find | context/CartContext.tsx:31 | `find` by id: `None` exactly when no line has the id; otherwise a line of the cart with that id |
| CartLines.QuantityOf | context/CartContext.tsx:66-69 | `getItemQuantity`: 0 for an absent id; with positive quantities, at least 1 exactly when the id is present |
| CartLines.RemoveId | context/CartContext.tsx:58-60 | `filter(i => i.id !== id)`: keeps exactly the lines with other ids; the id set loses exactly that id |
| CartLines.Total | context/CartContext.tsx:71-73 | `getCartTotal`: 0 on an empty cart, and non-negative when prices and quantities are |
| CartLines.ItemCount | components/RestaurantDetail.tsx:73 | the sum of positive quantities is at least the number of lines |
| CartLines.FindUnique | context/CartContext.tsx:31 | with unique ids, `find` returns the line that carries the id |
| CartLines.RemoveAbsent | context/CartContext.tsx:58-60 | removing an absent id is a no-op |
| CartLines.RemoveIdUnique | context/CartContext.tsx:58-60 | removing keeps ids unique |
| CartLines.SetQuantityIds | context/NavigationContext.tsx:189-191 | mapping a quantity keeps the id set and unique ids |
| CartLines.ShiftQuantityIds | context/NavigationContext.tsx:177-179 | shifting a quantity keeps the id set and unique ids |
| CartLines.FindAfterSetQuantity | context/NavigationContext.tsx:189-191 | after the map, `find` sees the old line with the new quantity and its other fields kept |
| CartLines.FindAfterShiftQuantity | components/MainApp.tsx:51-55 | after the shift, `find` sees the old line with quantity moved by the delta |
| CartLines.RemoveAfterSetQuantity | context/CartContext.tsx:40-44 | the map changes only the mapped id's line: every other line, in order, is kept |
| CartLines.RemoveAfterShiftQuantity | components/MainApp.tsx:71-75 | the shift changes only that id's line: every other line, in order, is kept |
| CartLines.SetQuantityRestore | context/CartContext.tsx:40-44 | setting a line one up and then back to its own quantity restores the cart |
| CartLines.ShiftQuantityInverse | components/MainApp.tsx:51-75 | shifting by d and then by −d restores the cart |
| CartLines.TotalSplit | context/CartContext.tsx:71-73 | the total is the rest's total plus that line's price × quantity |
| CartLines.AppendNewUnique | context/CartContext.tsx:51-54 | appending a line with a new id keeps ids unique and adds exactly that id |
| CartContext.Clip | context/CartContext.tsx:36-38 | a quantity that reaches zero or below means the line is absent (0); otherwise the quantity itself |
| CartContext.AddNewAppends | context/CartContext.tsx:51-54 | a new id with a positive or missing delta appends one line at the end, with quantity `item.quantity \|\| 1`; a missing or zero delta gives 1 |
| CartContext.AddNewNegativeIgnored | context/CartContext.tsx:47-49 | a new id with a negative delta leaves the cart unchanged |
| CartContext.AddExistingMerges | context/CartContext.tsx:33-44 | an existing id whose merged quantity stays positive: same length; that line gets old + (`item.quantity \|\| 1`) with other fields kept; every other line is kept in place |
| CartContext.AddExistingDrops | context/CartContext.tsx:34-38 | an existing id whose merged quantity is ≤ 0: the cart is the old one without that id, one line shorter |
| CartContext.AddQuantity | context/CartContext.tsx:29-55 | the id's quantity after `addToCart` is the old one plus the delta, clipped at 0 |
| CartContext.AddLeavesOthers | context/CartContext.tsx:37-51 | `addToCart` leaves all other lines, and their order, unchanged |
| CartContext.AddOtherQuantity | context/CartContext.tsx:40-44 | other ids' quantities are unchanged |
| CartContext.AddKeepsUnique | context/CartContext.tsx:31-51 | ids stay unique, because a line is appended only when no line has the id |
| CartContext.AddKeepsWellFormed | context/CartContext.tsx:29-55 | unique ids and quantities ≥ 1 are preserved by every `addToCart` |
| CartContext.RemoveKeepsWellFormed | context/CartContext.tsx:58-60 | `removeFromCart` preserves the invariant |
| CartContext.RemoveFromCartEffect | context/CartContext.tsx:58-60 | afterwards the id has quantity 0 and other ids keep theirs; a no-op for an absent id |
| CartContext.AddTotal | context/CartContext.tsx:29-73 | `addToCart` changes the total only by the added id's share |
| CartContext.AddThenSubtractRestores | context/CartContext.tsx:29-55 | a +1 followed by a −1 on the same id restores any well-formed cart |
| CartContext.AddThenSubtractExisting | context/CartContext.tsx:33-44 | the same, for an id already in the cart |
| CartContext.AddThenSubtractNew | context/CartContext.tsx:47-54 | the same, for a new id: appended, then dropped |
| CartContext.AddAllQuantity | context/CartContext.tsx:29-55 | for any run of adds on one id, the quantity is the running sum of the deltas, clipped at 0 after each step |
| CartContext.CartProvider.constructor | context/CartContext.tsx:27 | the cart starts empty |
| CartContext.CartProvider.AddToCart | context/CartContext.tsx:29-56 | the cart becomes `Added(old, item)` and stays well-formed |
| CartContext.CartProvider.RemoveFromCart | context/CartContext.tsx:58-60 | the cart becomes the old one without the id, and stays well-formed |
| CartContext.CartProvider.ClearCart | context/CartContext.tsx:62-64 | the cart is empty, its total is 0 and every id's quantity is 0 |
| CartContext.CartProvider.GetItemQuantity | context/CartContext.tsx:66-69 | the matching line's quantity, or 0 exactly when the id is absent |
| CartContext.CartProvider.GetCartTotal | context/CartContext.tsx:71-73 | Σ price·quantity, which is 0 on an empty cart |
| NavigationContext.LegacyAddQuantity | context/NavigationContext.tsx:174-183 | the older `addToCart` adds `item.quantity \|\| 1` to the id's quantity and never removes the line |
| NavigationContext.LegacyAddNewAppends | context/NavigationContext.tsx:180-182 | a new id is appended with quantity `item.quantity \|\| 1`, even a negative one |
| NavigationContext.LegacyAddLeavesOthers | context/NavigationContext.tsx:177-179 | other lines and their order are unchanged |
| NavigationContext.LegacyAddKeepsUnique | context/NavigationContext.tsx:175-182 | ids stay unique |
| NavigationContext.LegacyKeepsEmptiedLine | context/NavigationContext.tsx:177-179 | a −1 on a line of quantity 1 leaves that line in the cart with quantity 0 |
| NavigationContext.UpdateCartItemEffect | context/NavigationContext.tsx:185-193 | q ≤ 0 removes the id; q > 0 sets its quantity to exactly q, and is a no-op for an absent id; other lines are unchanged; ids stay unique |
| NavigationContext.UpdateCartItemWellFormed | context/NavigationContext.tsx:185-193 | `updateCartItem` keeps unique ids and quantities ≥ 1 |
| NavigationContext.NavigationProvider.constructor | context/NavigationContext.tsx:156-159 | starts at `splash` with empty history, no restaurant and an empty cart |
| NavigationContext.NavigationProvider.Navigate | context/NavigationContext.tsx:161-164 | pushes the current screen and makes the target current; history grows by exactly one; the cart and restaurant are untouched |
| NavigationContext.NavigationProvider.GoBack | context/NavigationContext.tsx:166-172 | pops the last entry into current; a no-op on empty history |
| NavigationContext.NavigationProvider.SetSelectedRestaurant | context/NavigationContext.tsx:158 | sets the restaurant only |
| NavigationContext.NavigationProvider.AddToCart | context/NavigationContext.tsx:174-183 | the cart becomes `LegacyAdded(old, item)`, the id's quantity grows by `item.quantity \|\| 1`, and ids stay unique |
| NavigationContext.NavigationProvider.UpdateCartItem | context/NavigationContext.tsx:185-193 | the cart becomes `CartItemUpdated(old, id, q)` |
| NavigationContext.NavigationProvider.ClearCart | context/NavigationContext.tsx:195-197 | the cart is empty and nothing else changes |
| ScreenHistory.NavigatePushesCurrent | context/NavigationContext.tsx:161-164 | the target becomes current; the history is the old history plus the old current screen |
| ScreenHistory.GoBackPops | context/NavigationContext.tsx:166-172 | empty history: no change; otherwise the last entry becomes current and the history shrinks by one |
| ScreenHistory.GoBackUndoesNavigate | context/NavigationContext.tsx:161-172 | `navigate` then `goBack` restores the current screen and the history |
| ScreenHistory.NavigateToCurrentDuplicates | context/NavigationContext.tsx:161-164 | navigating to the current screen pushes it, so it is both current and on top of the history |
| ScreenHistory.BackTracksNavigations | context/SimpleNavigationProvider.tsx:21-33 | last in, first out: after n navigations, n `goBack`s return to the start |
| ScreenHistory.HistoryLength | context/SimpleNavigationProvider.tsx:23-30 | the history length is the number of navigations minus the number of effective `goBack`s |
| SimpleNavigation.SimpleNavigationProvider.constructor | context/SimpleNavigationProvider.tsx:4-19 | starts at `home` with empty history, over the six main screens |
| SimpleNavigation.SimpleNavigationProvider.Navigate | context/SimpleNavigationProvider.tsx:21-25 | pushes the current screen and makes the target current |
| SimpleNavigation.SimpleNavigationProvider.GoBack | context/SimpleNavigationProvider.tsx:27-33 | pops into current; a no-op on empty history |
| SimpleNavigation.SimpleNavigationProvider.SetSelectedRestaurant | context/SimpleNavigationProvider.tsx:19 | sets the restaurant only |
| Screens.AsMainScreen | app/_layout.tsx:28 | the six main identifiers convert to and from the navigator's screens |
| Screens.MainScreenRoundTrip | app/_layout.tsx:28 | the two conversions are inverse, and exactly the eight other screens do not convert |
| MainApp.IncrementQuantity | components/MainApp.tsx:45-60 | its `addToCart` raises the id's quantity by exactly 1, ignoring `item.quantity`; a new id is appended with quantity 1 |
| MainApp.DecrementQuantity | components/MainApp.tsx:62-77 | its `removeFromCart` drops a line of quantity 1, otherwise lowers it by 1; a no-op for an absent id |
| MainApp.IncrementLeavesOthers | components/MainApp.tsx:51-58 | other lines are unchanged |
| MainApp.DecrementLeavesOthers | components/MainApp.tsx:65-75 | other lines are unchanged |
| MainApp.IncrementWellFormed | components/MainApp.tsx:45-60 | unique ids and quantities ≥ 1 are preserved |
| MainApp.DecrementWellFormed | components/MainApp.tsx:62-77 | the same for remove |
| MainApp.DecrementUndoesIncrement | components/MainApp.tsx:45-77 | an add followed by a remove of the same id restores any well-formed cart |
| MainApp.CartProvider.constructor | components/MainApp.tsx:43 | the cart starts empty |
| MainApp.CartProvider.AddToCart | components/MainApp.tsx:45-60 | the cart becomes `Incremented(old, item)` and stays well-formed |
| MainApp.CartProvider.RemoveFromCart | components/MainApp.tsx:62-77 | the cart becomes `Decremented(old, id)` and stays well-formed |
| MainApp.CartProvider.ClearCart | components/MainApp.tsx:79-82 | the cart is empty |
| MainApp.CartProvider.GetItemQuantity | components/MainApp.tsx:84-87 | the matching quantity, or 0 exactly when the id is absent |
| MainApp.CartProvider.GetCartTotal | components/MainApp.tsx:89-93 | Σ price·quantity, 0 on an empty cart |
| MainApp.AppContent.constructor | components/MainApp.tsx:111-112 | starts on `home` with no restaurant |
| MainApp.AppContent.Navigate | components/MainApp.tsx:116-119 | sets the screen and nothing else |
| MainApp.AppContent.GoBack | components/MainApp.tsx:121-123 | always returns to `home`, whatever the state; there is no history |
| MainApp.AppContent.OnNavigateToRestaurant | components/MainApp.tsx:129-133 | stores the restaurant and shows the restaurant screen |
| Pricing.Summarize | components/CartScreen.tsx:31-34 | the fee is 2.99, the tax is a tenth of the subtotal, and the total is subtotal + fee + tax |
| Pricing.SummaryFacts | components/CheckoutScreen.tsx:30-33 | total = 1.1 × subtotal + 2.99; the tax is a tenth of the subtotal; an empty cart costs the fee; the total is monotone in the subtotal |
| CartScreen.View | components/CartScreen.tsx:54-76 | the empty state is shown exactly for an empty cart; otherwise the summary of `getCartTotal()` |
| CartScreen.IncreaseEffect | components/CartScreen.tsx:36-41 | "+" raises exactly that line's quantity by 1, keeps the others, and keeps the cart well-formed |
| CartScreen.DecreaseEffect | components/CartScreen.tsx:43-52 | "−" lowers the quantity by 1; the line disappears exactly when it was 1 and otherwise keeps quantity ≥ 1; the special case equals adding −1 |
| CartScreen.DecreaseUndoesIncrease | components/CartScreen.tsx:36-52 | "+" then "−" on the re-rendered line restores the cart |
| CartScreen.HandleIncreaseQuantity | components/CartScreen.tsx:36-41 | the live cart becomes `Increased(old, line)` |
| CartScreen.HandleDecreaseQuantity | components/CartScreen.tsx:43-52 | the live cart becomes `Decreased(old, line)` |
| CartScreen.HandleClear | components/CartScreen.tsx:86 | the cart is empty and the view is the empty state |
| CartScreen.ProceedToCheckout | components/CartScreen.tsx:54-187 | offered only below a non-empty cart; navigates to `checkout` and leaves the store's cart alone |
| CartScreen.BrowseMenu | components/CartScreen.tsx:68 | the empty state's button navigates to `home` |
| RestaurantDetail.ScopedLines | components/RestaurantDetail.tsx:49-51 | keeps exactly the lines whose restaurant id is this restaurant's or undefined |
| RestaurantDetail.ItemCountPositive | components/RestaurantDetail.tsx:73 | a sum of positive quantities is positive exactly when there is a line |
| RestaurantDetail.FooterIffScopedLine | components/RestaurantDetail.tsx:73-312 | the footer is shown iff some cart line is in scope; the count is at least the number of scoped lines |
| RestaurantDetail.Tagged | components/RestaurantDetail.tsx:53-59 | the item is tagged with the restaurant, with no quantity of its own |
| RestaurantDetail.TagsOnCreate | components/RestaurantDetail.tsx:53-59 | an item not in the cart is created with quantity 1 and this restaurant's id and name |
| RestaurantDetail.TagsKeptOnMerge | components/RestaurantDetail.tsx:53-59 | an item already in the cart keeps the tags it was created with, and its quantity rises by 1 |
| RestaurantDetail.RemoveOneEffect | components/RestaurantDetail.tsx:61-71 | "−" lowers the quantity by 1, down to absence; a no-op for an absent id; others and the invariant are kept |
| RestaurantDetail.Render | components/RestaurantDetail.tsx:31-74 | no restaurant: only the error view; otherwise the scoped count, total and footer flag |
| RestaurantDetail.RestaurantDetailScreen.constructor | components/RestaurantDetail.tsx:22-25 | starts on the menu tab |
| RestaurantDetail.RestaurantDetailScreen.SetActiveTab | components/RestaurantDetail.tsx:25 | sets the tab |
| RestaurantDetail.RestaurantDetailScreen.GetItemQuantity | components/RestaurantDetail.tsx:43-46 | the matching quantity, or 0 exactly when absent |
| RestaurantDetail.RestaurantDetailScreen.HandleAddToCart | components/RestaurantDetail.tsx:53-59 | the live cart becomes `Added(old, Tagged(item, restaurant))` |
| RestaurantDetail.RestaurantDetailScreen.HandleRemoveFromCart | components/RestaurantDetail.tsx:61-71 | the live cart becomes `RemovedOne(old, id)` |
| RestaurantDetail.RestaurantDetailScreen.GoToCart | components/RestaurantDetail.tsx:308-312 | offered only while the footer is shown; navigates to `cart` |
| CheckoutScreen.Press | components/CheckoutScreen.tsx:269-294 | a press keeps the step in 1..3 and changes it exactly when the button is rendered |
| CheckoutScreen.PressesStayInRange | components/CheckoutScreen.tsx:269-294 | any sequence of presses stays in 1..3 and rises at most by the number of Continues |
| CheckoutScreen.Checkout.constructor | components/CheckoutScreen.tsx:19-20 | starts at step 1 with card payment |
| CheckoutScreen.Checkout.PressButton | components/CheckoutScreen.tsx:269-294 | Continue adds 1 below step 3, Back subtracts 1 above step 1 |
| CheckoutScreen.Checkout.SetPaymentMethod | components/CheckoutScreen.tsx:16-124 | sets one of card, apple or cash; the step is unchanged |
| CheckoutScreen.Checkout.PlaceOrder | components/CheckoutScreen.tsx:25-285 | offered only at step 3; empties the cart, then navigates to `confirmation` |
| CheckoutScreen.Checkout.Totals | components/CheckoutScreen.tsx:30-33 | the summary of `getCartTotal()`, with a tax of a tenth of it |
| SearchScreen.Translate | components/SearchScreen.tsx:83-88 | only the cuisine is translated; every other field is kept |
| SearchScreen.Translated | components/SearchScreen.tsx:83-88 | one record per base restaurant, in order: entry i is restaurant i with its cuisine translated |
| SearchScreen.ResultsAsWrittenMembership | components/SearchScreen.tsx:91-104 | the screen lists a restaurant, translated, iff it matches the query and its translated cuisine matches the filter key |
| SearchScreen.ResultsAsWrittenAppend | components/SearchScreen.tsx:91-104 | the screen's list keeps the restaurants' order: the filter distributes over concatenation |
| SearchScreen.ResultsAsWrittenAllWhenBlank | components/SearchScreen.tsx:94-100 | an empty query and no filter list every restaurant, in order |
| SearchScreen.ResultsMembership | components/SearchScreen.tsx:99-100 | with the filter as intended, a restaurant is listed iff it matches the query and its untranslated cuisine matches the key |
| SearchScreen.ResultsAppend | components/SearchScreen.tsx:91-104 | the filter as intended also keeps the list's order |
| SearchScreen.ResultsAllWhenBlank | components/SearchScreen.tsx:94-100 | with the filter as intended, an empty query and no filter list every restaurant |
| SearchScreen.AsWrittenAgreesWhenUntranslated | components/SearchScreen.tsx:99-100 | the code's filter equals the intended one whenever translation does not change the lower-cased cuisine |
| SearchScreen.EnglishCategoriesMatchKeys | components/SearchScreen.tsx:99-100 | in English, each category label lower-cases to its key |
| SearchScreen.FilterMissesTranslatedCuisine | components/SearchScreen.tsx:99-100 | in Uzbek, the pizza filter drops a pizza restaurant that the intended filter keeps |
| SearchScreen.ToggledFilter | components/SearchScreen.tsx:119-125 | pressing the active filter clears it; pressing any other activates it |
| SearchScreen.ToggleFacts | components/SearchScreen.tsx:119-125 | pressing a filter twice clears it, and a cleared filter lists as if no filter had been set, both as written and as intended |
| SearchScreen.StatusLine | components/SearchScreen.tsx:249-252 | "All restaurants" iff neither a query nor a filter is set; otherwise the count, plural iff it is not 1 |
| SearchScreen.AllRestaurantsMeansUnfiltered | components/SearchScreen.tsx:249-252 | when "All restaurants" shows, the screen lists every restaurant |
| SearchScreen.ClickSelectsBase | components/SearchScreen.tsx:106-111 | the click finds the untranslated base restaurant with the clicked id |
| SearchScreen.Search.constructor | components/SearchScreen.tsx:13-14 | an empty query and no filter |
| SearchScreen.Search.SetSearchQuery | components/SearchScreen.tsx:159 | sets the query only |
| SearchScreen.Search.HandleFilterPress | components/SearchScreen.tsx:119-125 | the filter becomes `ToggledFilter(old, key)` |
| SearchScreen.Search.HandleClearSearch | components/SearchScreen.tsx:127-130 | resets query and filter, so every restaurant is listed |
| SearchScreen.Search.HandleRestaurantClick | components/SearchScreen.tsx:106-111 | selects the base restaurant with the clicked id, then navigates to `restaurant` |
| Strings.Lower | components/SearchScreen.tsx:95-96 | lower-casing keeps the length and maps each character |
| Catalog.FindById | components/SearchScreen.tsx:108 | `find` by id: a listed restaurant with that id, or `None` exactly when there is none |
| Onboarding.Next | components/Onboarding.tsx:72-78 | a press keeps the slide in 0..2; `onComplete` is called exactly when the slide does not move |
| Onboarding.PressesFromStart | components/Onboarding.tsx:11-78 | n presses move n slides on but never past the last; `onComplete` has been called iff there were more presses than slides left |
| Onboarding.LabelAnnouncesCompletion | components/Onboarding.tsx:216-218 | the label is `getStarted` exactly when the next press completes |
| Onboarding.Dots | components/Onboarding.tsx:168-177 | one dot per slide |
| Onboarding.ExactlyOneActiveDot | components/Onboarding.tsx:168-177 | exactly one dot is active: the current slide's |
| Onboarding.OnboardingScreen.constructor | components/Onboarding.tsx:11 | starts at slide 0 |
| Onboarding.OnboardingScreen.HandleNext | components/Onboarding.tsx:72-78 | moves as `Next` says and reports whether `onComplete` was called |
| LanguageContext.Lookup | context/LanguageContext.tsx:291-293 | the table's entry when it is defined and non-empty, otherwise the key |
| LanguageContext.LookupNeverBlank | context/LanguageContext.tsx:291-293 | a non-empty key never translates to an empty text; the result is the key or a stored text |
| LanguageContext.LanguageProvider.constructor | context/LanguageContext.tsx:5-289 | the language starts as English |
| LanguageContext.LanguageProvider.SetLanguage | context/LanguageContext.tsx:289-296 | after it, every `t(key)` reads the chosen language's table |
| LanguageContext.FallbackAgreesWithDefault | context/LanguageContext.tsx:307-313 | a provider in English answers as the fallback outside a provider |
| HomeScreen.SelectionKey | components/HomeScreen.tsx:895 | the cuisine if non-empty, otherwise the lower-cased name |
| HomeScreen.MenuChoice | components/HomeScreen.tsx:897-1080 | each menu is chosen exactly when its rule holds and no earlier rule does |
| HomeScreen.MenuIgnoresOtherFields | components/HomeScreen.tsx:894-897 | the menu depends on the cuisine and the name only |
| HomeScreen.PizzaNameWins | components/HomeScreen.tsx:897 | a "Pizza" in the name gives the pizza menu, whatever the cuisine |
| HomeScreen.MissingCuisineUsesLowerName | components/HomeScreen.tsx:895-897 | without a cuisine, the name is matched lower-cased |
| HomeScreen.Clicked | components/HomeScreen.tsx:1116-1127 | every field is kept; the cuisine becomes `t(cuisine)`; the menu is the one for the untranslated restaurant |
| HomeScreen.ClickedMenuIgnoresLanguage | components/HomeScreen.tsx:1116-1127 | the record handed on differs between languages only in the cuisine label |
| HomeScreen.CatalogueMenus | components/HomeScreen.tsx:800-1114 | pizza, burger and asian restaurants of the catalogue get their menus; a mexican one gets the default |
| HomeScreen.ClickedInUzbek | components/HomeScreen.tsx:1116-1127 | in Uzbek, the pizza restaurant is handed on as "Pitssa" with the pizza menu; an untranslated cuisine is kept |
| HomeScreen.MenuNeedsUntranslatedCuisine | components/HomeScreen.tsx:1023-1127 | choosing the menu from the translated record would lose a restaurant's Asian menu in Uzbek |
| Layout.Synced | app/_layout.tsx:27-31 | the local screen adopts the current screen only when it is one of the six main screens |
| Layout.SyncAfterHandler | app/_layout.tsx:27-44 | once the store shows what a handler set locally, the sync keeps it |
| Layout.BackButtonXorBottomNav | app/_layout.tsx:60-62 | the back button is shown iff the bottom bar is not |
| Layout.BackFromRestaurantPushes | app/_layout.tsx:46-58 | leaving a restaurant pushes rather than pops: history grows by two over the visit, and a later `goBack` shows the restaurant again |
| Layout.MainLayout.constructor | app/_layout.tsx:23-24 | starts on `home` with no restaurant |
| Layout.MainLayout.SyncWith | app/_layout.tsx:27-31 | the local screen becomes `Synced(old, current)` |
| Layout.MainLayout.HandleNavigate | app/_layout.tsx:41-44 | sets the local screen and navigates the store to it |
| Layout.MainLayout.HandleNavigateToRestaurant | app/_layout.tsx:46-51 | stores the restaurant, shows the restaurant screen with the back button, and navigates the store |
| Layout.MainLayout.HandleGoBackFromRestaurant | app/_layout.tsx:53-58 | shows Home, clears the restaurant, and navigates (pushes) to `home` |

## Left out

- Rendering, styles, icons, images, fonts and animations. They are presentation, with no state to model.
- Floating point and `toFixed(2)`. Money is exact `real`, so rounding is not modelled.
- Unicode `toLowerCase`. `Strings.Lower` maps ASCII letters only.
- React plumbing.
  - Each store is one object with atomic, sequential operations.
  - `setState` batching, stale closures and effect timing are not modelled.
  - The hook fallbacks and throws outside a provider are also left out, except the language fallback.
- `console.log` and `console.warn` calls. They have no effect on state.
- Static catalogue and translation literals.
  - Only the six category entries of each translation table are modelled, and a few catalogue restaurants as examples.
  - The contents of each menu are summarised by `Catalog.MenuKind`.
  - The catalogue's display fields are the `details` map.
- `handleTestButton` in components/HomeScreen.tsx, a debugging aid with a hard-coded record.
- Screens outside the core: the login, confirmation, favourites, orders, profile, bottom bar and back button components.
- The commented-out drafts at the top of context/NavigationContext.tsx and components/HomeScreen.tsx.
- `onComplete`, `onNavigateToRestaurant` and `onGoBack` callbacks. Where their effect matters, they are the out-parameter `completed` or a call on the store they reach.
- MainApp.CartProvider.AddToCart: a menu item's fields other than the quantity are passed through unchecked; the model takes a full line.
- RestaurantDetail.MinusOne: the `{ id, quantity: -1 }` record lacks the other fields. The model fills them with empty values, which the ledger never reads on this input.

## Findings

| source | as written | input that shows it | evidently intended | confidence | as-written member | corrected member |
|---|---|---|---|---|---|---|
| components/SearchScreen.tsx:99-100 | the category filter compares the translated cuisine (`t(cuisine)`) with the untranslated filter key | language `uz`, filter `pizza`, a restaurant with cuisine `pizza`: "pitssa" ≠ "pizza", so no restaurant is listed | a chip lists the restaurants of its category in every language, as it does in English | not executed | SearchScreen.FilterMissesTranslatedCuisine | SearchScreen.AsWrittenAgreesWhenUntranslated |

/** The live part of components/HomeScreen.tsx: which of the four menus a restaurant gets, and the
    record the screen hands on when a restaurant card is pressed. */
module HomeScreen {
  import opened Options
  import opened Strings
  import opened Catalog
  import LanguageContext

  /** `restaurant.cuisine || restaurant.name.toLowerCase()`: an empty cuisine falls back to the
      lower-cased name. */
  function SelectionKey(r: Restaurant): (key: string)
    ensures r.cuisine != "" ==> key == r.cuisine
    ensures r.cuisine == "" ==> key == Lower(r.name)
  {
    if r.cuisine != "" then r.cuisine else Lower(r.name)
  }

  /** The three tests of the if/else chain, in the order they are tried. */
  predicate PizzaRule(r: Restaurant)
  {
    Contains(SelectionKey(r), "pizza") || Contains(r.name, "Pizza")
  }

  predicate BurgerRule(r: Restaurant)
  {
    Contains(SelectionKey(r), "burger") || Contains(r.name, "Burger")
  }

  predicate AsianRule(r: Restaurant)
  {
    Contains(SelectionKey(r), "asian") || Contains(r.name, "Sushi")
  }

  /** `getMenuItemsForRestaurant(restaurant)`: the first rule that holds picks the menu, and the
      default menu is returned when none does. */
  function MenuFor(r: Restaurant): (m: MenuKind)
  {
    if PizzaRule(r) then PizzaMenu
    else if BurgerRule(r) then BurgerMenu
    else if AsianRule(r) then AsianMenu
    else DefaultMenu
  }

  /** Each menu is chosen exactly when its rule holds and no earlier rule does. */
  lemma MenuChoice(r: Restaurant)
    ensures MenuFor(r) == PizzaMenu <==> PizzaRule(r)
    ensures MenuFor(r) == BurgerMenu <==> !PizzaRule(r) && BurgerRule(r)
    ensures MenuFor(r) == AsianMenu <==> !PizzaRule(r) && !BurgerRule(r) && AsianRule(r)
    ensures MenuFor(r) == DefaultMenu <==> !PizzaRule(r) && !BurgerRule(r) && !AsianRule(r)
  {
  }

  /** The menu depends on the cuisine and the name only. */
  lemma MenuIgnoresOtherFields(r: Restaurant, s: Restaurant)
    requires r.cuisine == s.cuisine && r.name == s.name
    ensures MenuFor(r) == MenuFor(s)
  {
  }

  /** A "Pizza" in the name wins over any cuisine. */
  lemma PizzaNameWins(r: Restaurant)
    requires Contains(r.name, "Pizza")
    ensures MenuFor(r) == PizzaMenu
  {
  }

  /** Without a cuisine the name is matched case-insensitively: a name whose lower-cased form
      contains "pizza" gets the pizza menu even without a capitalised "Pizza" in it. */
  lemma MissingCuisineUsesLowerName(r: Restaurant)
    requires r.cuisine == "" && Contains(Lower(r.name), "pizza")
    ensures MenuFor(r) == PizzaMenu
  {
  }

  /** `handleRestaurantClick(restaurant)`: the record handed to `onNavigateToRestaurant` keeps every
      field but the cuisine, which is translated with `t`, and gains the menu chosen from the
      untranslated restaurant. */
  function Clicked(table: LanguageContext.Table, r: Restaurant): (c: Restaurant)
    ensures c.id == r.id && c.name == r.name && c.details == r.details
    ensures c.cuisine == LanguageContext.Lookup(table, r.cuisine)
    ensures c.menuItems == Some(MenuFor(r))
  {
    r.(cuisine := LanguageContext.Lookup(table, r.cuisine), menuItems := Some(MenuFor(r)))
  }

  /** The menu handed on is the same in every language: only the cuisine label changes. */
  lemma ClickedMenuIgnoresLanguage(t1: LanguageContext.Table, t2: LanguageContext.Table, r: Restaurant)
    ensures Clicked(t1, r).menuItems == Clicked(t2, r).menuItems
    ensures Clicked(t1, r).(cuisine := "") == Clicked(t2, r).(cuisine := "")
  {
  }

  /** Some of the catalogue's restaurants. */
  const PizzaParadise := Restaurant("3", "Pizza Paradise", "pizza", map[], None)
  const BurgerHouse := Restaurant("4", "Burger House", "burgers", map[], None)
  const SpiceGarden := Restaurant("2", "Spice Garden", "asian", map[], None)
  const TacoFiesta := Restaurant("6", "Taco Fiesta", "mexican", map[], None)
  const CoffeeCorner := Restaurant("8", "Coffee Corner", "cafe", map[], None)

  /** The rules on those restaurants, a few string facts at a time. */
  lemma PizzaParadiseRules()
    ensures PizzaRule(PizzaParadise)
  {
    PrefixContained("pizza", "pizza");
  }

  lemma BurgerHouseRules()
    ensures !PizzaRule(BurgerHouse) && BurgerRule(BurgerHouse)
  {
    MissingCharExcludes("burgers", "pizza", 'z');
    MissingCharExcludes("Burger House", "Pizza", 'P');
    PrefixContained("burgers", "burger");
  }

  lemma SpiceGardenNotPizza()
    ensures !PizzaRule(SpiceGarden)
  {
    MissingCharExcludes("asian", "pizza", 'z');
    MissingCharExcludes("Spice Garden", "Pizza", 'P');
  }

  lemma SpiceGardenNotBurger()
    ensures !BurgerRule(SpiceGarden)
  {
    MissingCharExcludes("asian", "burger", 'b');
    MissingCharExcludes("Spice Garden", "Burger", 'B');
  }

  lemma SpiceGardenRules()
    ensures !PizzaRule(SpiceGarden) && !BurgerRule(SpiceGarden) && AsianRule(SpiceGarden)
  {
    SpiceGardenNotPizza();
    SpiceGardenNotBurger();
    PrefixContained("asian", "asian");
  }

  lemma TacoFiestaNotPizza()
    ensures !PizzaRule(TacoFiesta)
  {
    MissingCharExcludes("mexican", "pizza", 'z');
    MissingCharExcludes("Taco Fiesta", "Pizza", 'P');
  }

  lemma TacoFiestaNotBurger()
    ensures !BurgerRule(TacoFiesta)
  {
    MissingCharExcludes("mexican", "burger", 'b');
    MissingCharExcludes("Taco Fiesta", "Burger", 'B');
  }

  lemma TacoFiestaNotAsian()
    ensures !AsianRule(TacoFiesta)
  {
    MissingCharExcludes("mexican", "asian", 's');
    MissingCharExcludes("Taco Fiesta", "Sushi", 'S');
  }

  /** The menus of the catalogue's restaurants: one per rule, and the default for a cuisine
      none of the rules names. */
  lemma CatalogueMenus()
    ensures MenuFor(PizzaParadise) == PizzaMenu
    ensures MenuFor(BurgerHouse) == BurgerMenu
    ensures MenuFor(SpiceGarden) == AsianMenu
    ensures MenuFor(TacoFiesta) == DefaultMenu
  {
    PizzaParadiseRules();
    BurgerHouseRules();
    SpiceGardenRules();
    TacoFiestaNotPizza();
    TacoFiestaNotBurger();
    TacoFiestaNotAsian();
  }

  /** In Uzbek the record handed on shows the translated cuisine, still with the pizza menu; a
      cuisine without an entry is handed on unchanged. */
  lemma ClickedInUzbek()
    ensures Clicked(LanguageContext.Categories.uz, PizzaParadise).cuisine == "Pitssa"
    ensures Clicked(LanguageContext.Categories.uz, PizzaParadise).menuItems == Some(PizzaMenu)
    ensures Clicked(LanguageContext.Categories.uz, CoffeeCorner).cuisine == "cafe"
  {
    PizzaParadiseRules();
  }

  /** Spice Garden's record with its Uzbek cuisine "Osiyo taomlari", which none of the rules
      matches. */
  lemma UzbekSpiceGardenNotPizza(c: Restaurant)
    requires c.cuisine == "Osiyo taomlari" && c.name == "Spice Garden"
    ensures !PizzaRule(c)
  {
    MissingCharExcludes("Osiyo taomlari", "pizza", 'z');
    MissingCharExcludes("Spice Garden", "Pizza", 'P');
  }

  lemma UzbekSpiceGardenNotBurger(c: Restaurant)
    requires c.cuisine == "Osiyo taomlari" && c.name == "Spice Garden"
    ensures !BurgerRule(c)
  {
    MissingCharExcludes("Osiyo taomlari", "burger", 'b');
    MissingCharExcludes("Spice Garden", "Burger", 'B');
  }

  lemma UzbekSpiceGardenNotAsian(c: Restaurant)
    requires c.cuisine == "Osiyo taomlari" && c.name == "Spice Garden"
    ensures !AsianRule(c)
  {
    MissingCharExcludes("Osiyo taomlari", "asian", 'n');
    MissingCharExcludes("Spice Garden", "Sushi", 'h');
  }

  /** Choosing the menu from the translated record instead would lose the Asian menu of a
      restaurant whose name does not say "Sushi". */
  lemma MenuNeedsUntranslatedCuisine()
    ensures Clicked(LanguageContext.Categories.uz, SpiceGarden).menuItems == Some(AsianMenu)
    ensures MenuFor(Clicked(LanguageContext.Categories.uz, SpiceGarden)) == DefaultMenu
  {
    SpiceGardenRules();
    var c := Clicked(LanguageContext.Categories.uz, SpiceGarden);
    UzbekSpiceGardenNotPizza(c);
    UzbekSpiceGardenNotBurger(c);
    UzbekSpiceGardenNotAsian(c);
  }
}

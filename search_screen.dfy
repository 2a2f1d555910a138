/** The search screen of components/SearchScreen.tsx: the restaurants with translated cuisines,
    the query and category filter over them, the filter chips, the status line and the click that
    selects a restaurant. */
module SearchScreen {
  import opened Options
  import opened Strings
  import opened Catalog
  import Screens
  import opened LanguageContext
  import ScreenHistory
  import NavigationContext

  /** `{ ...restaurant, cuisine: t(restaurant.cuisine) }`. */
  function Translate(table: Table, b: Restaurant): (r: Restaurant)
    ensures r.id == b.id && r.name == b.name && r.details == b.details && r.menuItems == b.menuItems
  {
    b.(cuisine := Lookup(table, b.cuisine))
  }

  /** `baseRestaurants.map(...)`: every restaurant with its cuisine translated, in order. */
  function Translated(table: Table, bases: seq<Restaurant>): (rs: seq<Restaurant>)
    ensures |rs| == |bases|
    ensures forall i :: 0 <= i < |bases| ==> rs[i] == Translate(table, bases[i])
  {
    if bases == [] then [] else [Translate(table, bases[0])] + Translated(table, bases[1..])
  }

  /** `matchesSearch`: an empty query matches; otherwise the lower-cased query occurs in the
      lower-cased name or in the lower-cased translated cuisine. */
  predicate MatchesSearch(r: Restaurant, query: string)
  {
    query == "" || Contains(Lower(r.name), Lower(query)) || Contains(Lower(r.cuisine), Lower(query))
  }

  /** `matchesFilter` as written: the translated cuisine against the untranslated filter key. */
  predicate MatchesFilterAsWritten(translated: Restaurant, filter: Option<string>)
  {
    filter.None? || Lower(translated.cuisine) == Lower(filter.value)
  }

  /** `matchesFilter` as intended: the base cuisine, which lives in the same key space as the
      filter keys (`'pizza'`, `'burgers'`, ...), against the filter key. */
  predicate MatchesFilter(b: Restaurant, filter: Option<string>)
  {
    filter.None? || Lower(b.cuisine) == Lower(filter.value)
  }

  predicate Keep(table: Table, b: Restaurant, query: string, filter: Option<string>)
  {
    MatchesSearch(Translate(table, b), query) && MatchesFilter(b, filter)
  }

  predicate KeepAsWritten(table: Table, b: Restaurant, query: string, filter: Option<string>)
  {
    MatchesSearch(Translate(table, b), query) && MatchesFilterAsWritten(Translate(table, b), filter)
  }

  /** `restaurants.filter(keep)` over the translated list: the translations of the restaurants
      that `keep` accepts, in order. */
  function Select(table: Table, keep: Restaurant -> bool, bases: seq<Restaurant>): (rs: seq<Restaurant>)
    ensures |rs| <= |bases|
  {
    if bases == [] then []
    else (if keep(bases[0]) then [Translate(table, bases[0])] else []) + Select(table, keep, bases[1..])
  }

  /** `filteredRestaurants`, with the category filter as intended. */
  function Results(table: Table, bases: seq<Restaurant>, query: string, filter: Option<string>): seq<Restaurant>
  {
    Select(table, b => Keep(table, b, query, filter), bases)
  }

  /** `filteredRestaurants` as written. */
  function ResultsAsWritten(table: Table, bases: seq<Restaurant>, query: string, filter: Option<string>): seq<Restaurant>
  {
    Select(table, b => KeepAsWritten(table, b, query, filter), bases)
  }

  /** A restaurant is listed iff `keep` accepts it, and every listed entry is the translation of
      a restaurant that `keep` accepts. */
  lemma {:induction false} SelectMembership(table: Table, keep: Restaurant -> bool, bases: seq<Restaurant>)
    ensures forall b :: b in bases && keep(b) ==> Translate(table, b) in Select(table, keep, bases)
    ensures forall x :: x in Select(table, keep, bases) ==>
              exists b :: b in bases && keep(b) && x == Translate(table, b)
  {
    if bases != [] {
      SelectMembership(table, keep, bases[1..]);
      var rest := Select(table, keep, bases[1..]);
      forall b | b in bases && keep(b) ensures Translate(table, b) in Select(table, keep, bases) {
        if b != bases[0] {
          assert b in bases[1..];
        }
      }
      forall x | x in Select(table, keep, bases)
        ensures exists b :: b in bases && keep(b) && x == Translate(table, b)
      {
        if x in rest {
          var b :| b in bases[1..] && keep(b) && x == Translate(table, b);
          assert b in bases;
        } else {
          assert bases[0] in bases;
        }
      }
    }
  }

  /** One step of the filter: the head is listed iff `keep` accepts it. */
  lemma SelectCons(table: Table, keep: Restaurant -> bool, x: Restaurant, rest: seq<Restaurant>)
    ensures Select(table, keep, [x] + rest)
         == (if keep(x) then [Translate(table, x)] else []) + Select(table, keep, rest)
  {
    assert ([x] + rest)[0] == x && ([x] + rest)[1..] == rest;
  }

  /** Filtering keeps the order of the list: it distributes over concatenation. */
  lemma {:induction false} SelectAppend(table: Table, keep: Restaurant -> bool, a: seq<Restaurant>, b: seq<Restaurant>)
    ensures Select(table, keep, a + b) == Select(table, keep, a) + Select(table, keep, b)
  {
    if a == [] {
      assert a + b == b;
    } else {
      var x, t := a[0], a[1..];
      var head := if keep(x) then [Translate(table, x)] else [];
      assert a == [x] + t;
      assert a + b == [x] + (t + b);
      calc {
        Select(table, keep, a + b);
        { SelectCons(table, keep, x, t + b); }
        head + Select(table, keep, t + b);
        { SelectAppend(table, keep, t, b); }
        head + (Select(table, keep, t) + Select(table, keep, b));
        (head + Select(table, keep, t)) + Select(table, keep, b);
        { SelectCons(table, keep, x, t); }
        Select(table, keep, a) + Select(table, keep, b);
      }
    }
  }

  /** A filter that accepts everything lists every restaurant, in order. */
  lemma {:induction false} SelectAll(table: Table, keep: Restaurant -> bool, bases: seq<Restaurant>)
    requires forall b :: b in bases ==> keep(b)
    ensures Select(table, keep, bases) == Translated(table, bases)
  {
    if bases != [] {
      assert bases[0] in bases;
      SelectAll(table, keep, bases[1..]);
    }
  }

  /** Two filters that agree on every restaurant of the list list the same restaurants. */
  lemma {:induction false} SelectAgree(table: Table, keep: Restaurant -> bool, keep': Restaurant -> bool, bases: seq<Restaurant>)
    requires forall b :: b in bases ==> keep(b) == keep'(b)
    ensures Select(table, keep, bases) == Select(table, keep', bases)
  {
    if bases != [] {
      assert bases[0] in bases;
      SelectAgree(table, keep, keep', bases[1..]);
    }
  }

  /** The search result lists exactly the restaurants that pass both the query and the filter,
      as translated, and in their original order. */
  lemma ResultsMembership(table: Table, bases: seq<Restaurant>, query: string, filter: Option<string>)
    ensures forall b :: b in bases && Keep(table, b, query, filter) ==> Translate(table, b) in Results(table, bases, query, filter)
    ensures forall x :: x in Results(table, bases, query, filter) ==>
              exists b :: b in bases && Keep(table, b, query, filter) && x == Translate(table, b)
  {
    SelectMembership(table, b => Keep(table, b, query, filter), bases);
  }

  /** Filtering keeps the order of the list. */
  lemma ResultsAppend(table: Table, a: seq<Restaurant>, b: seq<Restaurant>, query: string, filter: Option<string>)
    ensures Results(table, a + b, query, filter) == Results(table, a, query, filter) + Results(table, b, query, filter)
  {
    SelectAppend(table, x => Keep(table, x, query, filter), a, b);
  }

  /** The list the screen shows, with the filter as written, also lists exactly the restaurants
      that pass the query and the filter, as translated. */
  lemma ResultsAsWrittenMembership(table: Table, bases: seq<Restaurant>, query: string, filter: Option<string>)
    ensures forall b :: b in bases && KeepAsWritten(table, b, query, filter) ==> Translate(table, b) in ResultsAsWritten(table, bases, query, filter)
    ensures forall x :: x in ResultsAsWritten(table, bases, query, filter) ==>
              exists b :: b in bases && KeepAsWritten(table, b, query, filter) && x == Translate(table, b)
  {
    SelectMembership(table, b => KeepAsWritten(table, b, query, filter), bases);
  }

  /** The list the screen shows keeps the order of the restaurants. */
  lemma ResultsAsWrittenAppend(table: Table, a: seq<Restaurant>, b: seq<Restaurant>, query: string, filter: Option<string>)
    ensures ResultsAsWritten(table, a + b, query, filter)
         == ResultsAsWritten(table, a, query, filter) + ResultsAsWritten(table, b, query, filter)
  {
    SelectAppend(table, x => KeepAsWritten(table, x, query, filter), a, b);
  }

  /** With an empty query and no filter the list the screen shows has every restaurant, in order. */
  lemma ResultsAsWrittenAllWhenBlank(table: Table, bases: seq<Restaurant>)
    ensures ResultsAsWritten(table, bases, "", None) == Translated(table, bases)
  {
    SelectAll(table, b => KeepAsWritten(table, b, "", None), bases);
  }

  /** With an empty query and no filter every restaurant is listed, in order. */
  lemma ResultsAllWhenBlank(table: Table, bases: seq<Restaurant>)
    ensures Results(table, bases, "", None) == Translated(table, bases)
  {
    SelectAll(table, b => Keep(table, b, "", None), bases);
  }

  /** Where every cuisine's translation lower-cases to the cuisine itself, the filter as written
      and as intended list the same restaurants. */
  lemma AsWrittenAgreesWhenUntranslated(table: Table, bases: seq<Restaurant>, query: string, filter: Option<string>)
    requires forall b :: b in bases ==> Lower(Lookup(table, b.cuisine)) == Lower(b.cuisine)
    ensures ResultsAsWritten(table, bases, query, filter) == Results(table, bases, query, filter)
  {
    SelectAgree(table, b => KeepAsWritten(table, b, query, filter), b => Keep(table, b, query, filter), bases);
  }

  /** The English category names lower-case to their keys, so in English the filter as written
      lists what it should. */
  lemma EnglishCategoriesMatchKeys(k: string)
    requires k in Categories.en
    ensures Lower(Lookup(Categories.en, k)) == Lower(k)
  {
    assert Lower("Pizza") == "pizza";
    assert Lower("Burgers") == "burgers";
    assert Lower("Asian") == "asian";
    assert Lower("Italian") == "italian";
    assert Lower("Mexican") == "mexican";
    assert Lower("Healthy") == "healthy";
  }

  /** In Uzbek, a pizza restaurant is dropped by the pizza chip as written: its translated cuisine
      `Pitssa` is compared with the key `pizza`. The intended filter lists it. */
  lemma FilterMissesTranslatedCuisine()
    ensures var b := Restaurant("1", "Pizza Paradise", "pizza", map[], None);
      && ResultsAsWritten(Categories.uz, [b], "", Some("pizza")) == []
      && Results(Categories.uz, [b], "", Some("pizza")) == [Translate(Categories.uz, b)]
  {
    var b := Restaurant("1", "Pizza Paradise", "pizza", map[], None);
    assert Lookup(Categories.uz, "pizza") == "Pitssa";
    assert Lower("Pitssa")[2] != Lower("pizza")[2];
  }

  /** `handleFilterPress(key)`: pressing the active chip clears the filter, any other chip
      becomes the active one. */
  function ToggledFilter(active: Option<string>, key: string): (next: Option<string>)
    ensures next == None <==> active == Some(key)
    ensures next != None ==> next == Some(key)
  {
    if active == Some(key) then None else Some(key)
  }

  /** Pressing the same chip twice from no filter gets back to no filter, and pressing the
      active chip lists what no filter lists. */
  lemma ToggleFacts(table: Table, bases: seq<Restaurant>, query: string, key: string)
    ensures ToggledFilter(ToggledFilter(None, key), key) == None
    ensures Results(table, bases, query, ToggledFilter(Some(key), key)) == Results(table, bases, query, None)
    ensures ResultsAsWritten(table, bases, query, ToggledFilter(Some(key), key))
         == ResultsAsWritten(table, bases, query, None)
  {
  }

  /** The status line under the chips. */
  datatype Status = AllRestaurants | Found(count: nat, plural: bool)

  /** `searchQuery || activeFilter ? 'Found n result(s)' : 'All restaurants'`; an empty string
      counts as unset, as in JavaScript. */
  function StatusLine(query: string, filter: Option<string>, count: nat): (s: Status)
    ensures s.AllRestaurants? <==> query == "" && (filter.None? || filter.value == "")
    ensures s.Found? ==> s.count == count && (s.plural <==> count != 1)
  {
    if query != "" || (filter.Some? && filter.value != "") then Found(count, count != 1) else AllRestaurants
  }

  /** "All restaurants" is shown only when nothing is filtered out. */
  lemma AllRestaurantsMeansUnfiltered(table: Table, bases: seq<Restaurant>, query: string, filter: Option<string>)
    requires filter.None?
    requires StatusLine(query, filter, |ResultsAsWritten(table, bases, query, filter)|).AllRestaurants?
    ensures ResultsAsWritten(table, bases, query, filter) == Translated(table, bases)
  {
    ResultsAsWrittenAllWhenBlank(table, bases);
  }

  /** With distinct ids, clicking a listed restaurant selects the untranslated restaurant it
      came from. */
  lemma ClickSelectsBase(table: Table, bases: seq<Restaurant>, b: Restaurant)
    requires forall i, j :: 0 <= i < j < |bases| ==> bases[i].id != bases[j].id
    requires b in bases
    ensures FindById(bases, Translate(table, b).id) == Some(b)
  {
    var r := FindById(bases, b.id);
    var j :| 0 <= j < |bases| && bases[j] == b;
    assert r.Some?;
    var i :| 0 <= i < |bases| && bases[i] == r.value;
    assert bases[i].id == bases[j].id;
    assert i == j;
  }

  /** The screen's state: the fixed base list, the query and the active chip. */
  class Search {
    const bases: seq<Restaurant>
    var searchQuery: string
    var activeFilter: Option<string>

    constructor (bases: seq<Restaurant>)
      ensures this.bases == bases && searchQuery == "" && activeFilter == None
    {
      this.bases := bases;
      searchQuery := "";
      activeFilter := None;
    }

    /** The list shown under the current language's table, with the category filter as written. */
    function FilteredRestaurants(table: Table): seq<Restaurant>
      reads this
    {
      ResultsAsWritten(table, bases, searchQuery, activeFilter)
    }

    /** The text field's `onChangeText`. */
    method SetSearchQuery(query: string)
      modifies this
      ensures searchQuery == query && activeFilter == old(activeFilter)
    {
      searchQuery := query;
    }

    method HandleFilterPress(key: string)
      modifies this
      ensures activeFilter == ToggledFilter(old(activeFilter), key) && searchQuery == old(searchQuery)
    {
      if activeFilter == Some(key) {
        activeFilter := None;
      } else {
        activeFilter := Some(key);
      }
    }

    /** `handleClearSearch`: no query and no filter, so every restaurant is listed again. */
    method HandleClearSearch()
      modifies this
      ensures searchQuery == "" && activeFilter == None
      ensures forall table :: FilteredRestaurants(table) == Translated(table, bases)
    {
      searchQuery := "";
      activeFilter := None;
      forall table ensures FilteredRestaurants(table) == Translated(table, bases) {
        ResultsAsWrittenAllWhenBlank(table, bases);
      }
    }

    /** `handleRestaurantClick(restaurant)`: select the base restaurant with the same id, then
        open the restaurant screen. */
    method HandleRestaurantClick(nav: NavigationContext.NavigationProvider, clicked: Restaurant)
      modifies nav
      ensures nav.selectedRestaurant == FindById(bases, clicked.id)
      ensures nav.Nav() == ScreenHistory.Navigate(old(nav.Nav()), Screens.Restaurant)
      ensures nav.cartItems == old(nav.cartItems)
    {
      nav.SetSelectedRestaurant(FindById(bases, clicked.id));
      nav.Navigate(Screens.Restaurant);
    }
  }
}

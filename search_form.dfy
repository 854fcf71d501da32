/**
 * The state transitions of the search sheet (Views/SearchForm.swift): its title, the
 * budget menu, the place-type buttons, and the Apply action with its enablement.
 *
 * The sheet's own "savedPriceLevel"/"savedPlaceType" storage is the same storage the home
 * view model reads, so both write through `HomeViewModel.storage`.
 */
module SearchScreen {
  import opened Wrappers
  import opened Places
  import opened Fetching
  import opened MapModel
  import opened HomeModel

  /** `String(repeating: "$", count: n)`. */
  function Dollars(n: nat): (r: string)
    ensures |r| == n
    ensures forall i :: 0 <= i < |r| ==> r[i] == '$'
  {
    if n == 0 then "" else Dollars(n - 1) + "$"
  }

  /** The text of the budget menu for a price index: "Free" for 0, otherwise that many dollar signs. */
  function BudgetLabel(index: nat): (r: string)
    ensures index == 0 ==> r == "Free"
    ensures index > 0 ==> r == Dollars(index)
  {
    if index == 0 then "Free" else Dollars(index)
  }

  /** Different price indices are shown with different labels. */
  lemma BudgetLabelsDistinct(i: nat, j: nat)
    ensures BudgetLabel(i) == BudgetLabel(j) <==> i == j
  {
    if i == 0 && j != 0 {
      assert BudgetLabel(j)[0] == '$';
    } else if i != 0 && j == 0 {
      assert BudgetLabel(i)[0] == '$';
    } else if i != 0 && j != 0 {
      assert |BudgetLabel(i)| == i && |BudgetLabel(j)| == j;
    }
  }

  /** The uppercase form of a lowercase ASCII letter; every other character is kept. */
  function UpperAscii(c: char): (u: char)
    ensures 'a' <= c <= 'z' ==> 'A' <= u <= 'Z' && u as int == c as int - 32
    ensures !('a' <= c <= 'z') ==> u == c
  {
    if 'a' <= c <= 'z' then (c as int - 32) as char else c
  }

  /** `s.prefix(1).uppercased() + s.dropFirst()`. */
  function Capitalized(s: string): (r: string)
    ensures |r| == |s|
    ensures |s| > 0 ==> r[0] == UpperAscii(s[0]) && r[1..] == s[1..]
  {
    if s == [] then [] else [UpperAscii(s[0])] + s[1..]
  }

  /** Capitalising twice is capitalising once. */
  lemma CapitalizedIdempotent(s: string)
    ensures Capitalized(Capitalized(s)) == Capitalized(s)
  {
  }

  /** The sheet's title: the capitalised type once a type is chosen, otherwise a prompt. */
  function Title(placeSelected: bool, selectedType: string): (r: string)
    ensures !placeSelected ==> r == "Where To?"
    ensures placeSelected ==> r == Capitalized(selectedType)
  {
    if placeSelected then Capitalized(selectedType) else "Where To?"
  }

  /** Capitalising loses nothing on words that start with a lowercase ASCII letter. */
  lemma CapitalizedInjective(a: string, b: string)
    requires |a| > 0 && 'a' <= a[0] <= 'z'
    requires |b| > 0 && 'a' <= b[0] <= 'z'
    ensures Capitalized(a) == Capitalized(b) <==> a == b
  {
    if Capitalized(a) == Capitalized(b) {
      assert Capitalized(a)[0] == Capitalized(b)[0];
      assert a == [a[0]] + a[1..] && b == [b[0]] + b[1..];
    }
  }

  /** Each offered place type shows as a different title, none of them the prompt. */
  lemma TitlesOfTypesDistinct(i: nat, j: nat)
    requires i < |PLACE_TYPES| && j < |PLACE_TYPES|
    ensures Title(true, PLACE_TYPES[i]) != "Where To?"
    ensures Title(true, PLACE_TYPES[i]) == Title(true, PLACE_TYPES[j]) <==> i == j
  {
    CapitalizedInjective(PLACE_TYPES[i], PLACE_TYPES[j]);
  }

  /** The Apply button is enabled once a budget and a type are chosen and the user's position is known. */
  predicate ApplyEnabled(budgetSelected: bool, placeSelected: bool, userLocation: Option<Coordinate2D>)
    ensures ApplyEnabled(budgetSelected, placeSelected, userLocation) ==> userLocation.Some?
    ensures !budgetSelected || !placeSelected ==> !ApplyEnabled(budgetSelected, placeSelected, userLocation)
  {
    budgetSelected && placeSelected && userLocation.Some?
  }

  /**
   * The home screen's budget flag is only ever raised together with an assignment of a
   * price level to the map view model, and no operation clears the level again: a chosen
   * budget always stands for a set price level.
   */
  predicate BudgetBacked(home: HomeViewModel, vm: MapViewModel)
    reads home, vm
  {
    home.budgetSelected ==> vm.pricelevel.Some?
  }

  /**
   * When Apply is enabled, its fetch is allowed and gets past both of the fetcher's guards:
   * a request goes out unless the URL cannot be built, and it searches the chosen level
   * and type at the reset radius.
   */
  lemma EnabledApplyPassesGuards(home: HomeViewModel, vm: MapViewModel, exchange: Exchange)
    requires BudgetBacked(home, vm)
    requires ApplyEnabled(home.budgetSelected, home.placeSelected, vm.userLocation)
    ensures FetchAllowed(ApplyReset(vm.State()))
    ensures RequestIssued(Classify(vm.pricelevel, vm.userLocation, exchange)) <==> !exchange.UrlRejected?
    ensures !exchange.UrlRejected? ==>
              FetchStep(ApplyReset(vm.State()), exchange).requests
              == vm.fetcher.requests + [Request(vm.pricelevel.value, vm.selectedType, vm.userLocation.value, RADIUS_FLOOR)]
  {
  }

  /** A budget entry of the menu (indices 0 through 4). */
  method ChoosePrice(vm: MapViewModel, home: HomeViewModel, index: int)
    requires 0 <= index <= 4
    requires vm.Valid()
    modifies vm, vm.fetcher, home, home.storage
    ensures vm.Valid()
    ensures vm.State() == PriceLevelAssigned(old(vm.State()), Some(index)).(priceSelected := true)
    ensures home.budgetSelected && home.selectedBudget == BudgetLabel(index)
    ensures home.placeSelected == old(home.placeSelected) && home.showSearchForm == old(home.showSearchForm)
    ensures home.showPlaceSelection == old(home.showPlaceSelection)
    ensures home.LoadPreferences() == (index, old(home.storage.savedPlaceType))
    ensures BudgetBacked(home, vm)
  {
    home.budgetSelected := true;
    home.selectedBudget := BudgetLabel(index);
    vm.SetPriceLevel(Some(index));
    vm.priceSelected := true;
    home.storage.savedPriceLevel := index;
  }

  /** A place-type button of the grid. */
  method ChooseType(vm: MapViewModel, home: HomeViewModel, index: int)
    requires 0 <= index < |PLACE_TYPES|
    requires vm.Valid()
    modifies vm, vm.fetcher, home, home.storage
    ensures vm.Valid()
    ensures vm.State() == SelectedTypeAssigned(old(vm.State()), PLACE_TYPES[index]).(typeSelected := true)
    ensures home.placeSelected
    ensures home.budgetSelected == old(home.budgetSelected) && home.selectedBudget == old(home.selectedBudget)
    ensures home.showSearchForm == old(home.showSearchForm) && home.showPlaceSelection == old(home.showPlaceSelection)
    ensures home.LoadPreferences() == (old(home.storage.savedPriceLevel), PLACE_TYPES[index])
    ensures old(BudgetBacked(home, vm)) ==> BudgetBacked(home, vm)
  {
    var placeType := PLACE_TYPES[index];
    home.placeSelected := true;
    vm.SetSelectedType(placeType);
    vm.typeSelected := true;
    home.storage.savedPlaceType := placeType;
  }

  /** The reset Apply performs before it fetches. */
  function ApplyReset(s: MapState): (t: MapState)
    ensures t.radius == RADIUS_FLOOR && t.places == [] && t.requests == s.requests
    ensures FetchAllowed(t)
    ensures Coherent(t)
    ensures t.(radius := s.radius, places := s.places, priceSelected := s.priceSelected, typeSelected := s.typeSelected) == s
  {
    s.(radius := RADIUS_FLOOR, places := [], priceSelected := true, typeSelected := true)
  }

  /**
   * Apply: saves the preferences when a price level is set, resets the radius and the
   * places, raises both flags, fetches, and closes the sheet. The fetch always runs, and
   * the places afterwards are exactly the fresh results the fetch accepts.
   */
  method Apply(vm: MapViewModel, home: HomeViewModel, exchange: Exchange) returns (outcome: FetchOutcome)
    requires vm.Valid()
    modifies vm, vm.fetcher, home, home.storage
    ensures vm.Valid()
    ensures vm.State() == FetchStep(ApplyReset(old(vm.State())), exchange)
    ensures outcome == Classify(vm.pricelevel, vm.userLocation, exchange)
    ensures vm.fetcher.places == AfterFetch([], vm.pricelevel, vm.userLocation, exchange)
    ensures vm.fetcher.requests
            == old(vm.fetcher.requests) + Sent(old(vm.pricelevel), old(vm.selectedType), old(vm.userLocation), RADIUS_FLOOR, exchange)
    ensures old(vm.pricelevel).Some? ==> home.LoadPreferences() == (old(vm.pricelevel).value, old(vm.selectedType))
    ensures old(vm.pricelevel).None? ==> home.LoadPreferences() == old(home.LoadPreferences())
    ensures !home.showSearchForm
    ensures home.budgetSelected == old(home.budgetSelected) && home.placeSelected == old(home.placeSelected)
    ensures home.selectedBudget == old(home.selectedBudget) && home.showPlaceSelection == old(home.showPlaceSelection)
    ensures old(BudgetBacked(home, vm)) ==> BudgetBacked(home, vm)
  {
    if vm.pricelevel.Some? {
      home.SavePreferences(vm.pricelevel.value, vm.selectedType);
    }
    vm.radius := RADIUS_FLOOR;
    vm.fetcher.places := [];
    vm.priceSelected := true;
    vm.typeSelected := true;
    var o := vm.FetchPlacesIfValid(exchange);
    outcome := o.value;
    home.showSearchForm := false;
  }
}

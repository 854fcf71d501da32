/**
 * The state transitions embedded in the results list (Views/Locations.swift): the
 * "Load More" action, the enablement and label of its button, the "Adjust Search"
 * preference restore, and the favourite toggle of each row.
 */
module LocationsScreen {
  import opened Wrappers
  import opened Places
  import opened Fetching
  import opened MapModel
  import opened FavoriteModel
  import opened FavoritesStore
  import opened HomeModel
  import opened SearchScreen

  /** Load-more is offered while the radius is below this many meters. */
  const LOAD_MORE_LIMIT := 15000

  /** Each load-more widens the radius by this many meters. */
  const LOAD_MORE_STEP := 5000

  /** The radius after one press of "Load More": widened by one step below the limit, with no clamp. */
  function NextRadius(radius: int): (r: int)
    ensures radius < LOAD_MORE_LIMIT ==> r == radius + LOAD_MORE_STEP
    ensures radius >= LOAD_MORE_LIMIT ==> r == radius
  {
    if radius < LOAD_MORE_LIMIT then radius + LOAD_MORE_STEP else radius
  }

  /** The radius after `n` presses, starting from the floor every criteria change resets to. */
  function RadiusAfter(n: nat): int {
    if n == 0 then RADIUS_FLOOR else NextRadius(RadiusAfter(n - 1))
  }

  /**
   * From the floor, the only radii ever searched are 1500, 6500, 11500 and 16500; the last
   * exceeds the limit, and from the third press on the radius no longer changes.
   */
  lemma {:induction false} ReachableRadii(n: nat)
    ensures RadiusAfter(n) in {1500, 6500, 11500, 16500}
    ensures n >= 3 ==> RadiusAfter(n) == 16500
    ensures n < 3 ==> RadiusAfter(n) == RADIUS_FLOOR + n * LOAD_MORE_STEP
  {
    if n > 0 {
      ReachableRadii(n - 1);
    }
  }

  /** The "Load More" button is disabled at or past the limit, and while a load is running. */
  predicate LoadMoreDisabled(radius: int, isLoadingMore: bool)
    ensures LoadMoreDisabled(radius, isLoadingMore) <==> isLoadingMore || NextRadius(radius) == radius
  {
    radius >= LOAD_MORE_LIMIT || isLoadingMore
  }

  /** The button's text. */
  function LoadMoreLabel(radius: int): (r: string)
    ensures r == "No more places" <==> NextRadius(radius) == radius
    ensures r != "No more places" ==> r == "Load More Places"
  {
    if radius >= LOAD_MORE_LIMIT then "No more places" else "Load More Places"
  }

  /**
   * The label says there is nothing more exactly when a press would leave the radius as it
   * is, and an enabled button always widens the search.
   */
  lemma LoadMoreButtonAgrees(radius: int, isLoadingMore: bool)
    ensures !LoadMoreDisabled(radius, isLoadingMore) ==> NextRadius(radius) > radius
    ensures LoadMoreLabel(radius) == "No more places" ==> LoadMoreDisabled(radius, isLoadingMore)
  {
  }

  /** The whole load-more action on the view model's state, against one exchange. */
  function LoadMoreStep(s: MapState, exchange: Exchange): (t: MapState)
    ensures s.radius >= LOAD_MORE_LIMIT ==> t == s
    ensures s.radius < LOAD_MORE_LIMIT ==>
              t.radius == NextRadius(s.radius) && !t.isLoadingMore
              && t == FetchStep(s.(radius := NextRadius(s.radius)), exchange).(isLoadingMore := false)
    ensures s.radius < LOAD_MORE_LIMIT && FetchAllowed(s) ==>
              t.requests == s.requests + Sent(s.pricelevel, s.selectedType, s.userLocation, NextRadius(s.radius), exchange)
    ensures s.places <= t.places
    ensures Coherent(s) ==> Coherent(t)
  {
    if s.radius < LOAD_MORE_LIMIT then
      var widened := s.(isLoadingMore := true, radius := s.radius + LOAD_MORE_STEP);
      FetchStep(widened, exchange).(isLoadingMore := false)
    else s
  }

  /**
   * Below the limit, with both flags and both criteria set and a well-formed URL, "Load
   * More" sends one request, for the same level and type, at the radius widened by one step.
   */
  lemma LoadMoreSearchesWiderRadius(s: MapState, exchange: Exchange)
    requires s.radius < LOAD_MORE_LIMIT && FetchAllowed(s)
    requires s.pricelevel.Some? && s.userLocation.Some? && !exchange.UrlRejected?
    ensures LoadMoreStep(s, exchange).requests
            == s.requests + [Request(s.pricelevel.value, s.selectedType, s.userLocation.value, s.radius + LOAD_MORE_STEP)]
  {
  }

  /**
   * The "Load More" action: below the limit, mark loading, widen the radius, fetch, and
   * clear the loading mark; at or past the limit, nothing. `outcome` is what the fetch
   * step reported, None when no fetch step ran.
   */
  method LoadMore(vm: MapViewModel, exchange: Exchange) returns (outcome: Option<Option<FetchOutcome>>)
    requires vm.Valid()
    modifies vm, vm.fetcher
    ensures vm.Valid()
    ensures vm.State() == LoadMoreStep(old(vm.State()), exchange)
    ensures outcome.Some? <==> old(vm.radius) < LOAD_MORE_LIMIT
  {
    if vm.radius < LOAD_MORE_LIMIT {
      vm.isLoadingMore := true;
      vm.radius := vm.radius + LOAD_MORE_STEP;
      var o := vm.FetchPlacesIfValid(exchange);
      vm.isLoadingMore := false;
      outcome := Some(o);
    } else {
      outcome := None;
    }
  }

  /**
   * The view-model part of "Adjust Search": the saved preferences are restored through the
   * observed setters, and each "selected" flag is raised only for a saved value that counts
   * as chosen (a price level above 0, a non-empty type).
   */
  function Adjusted(s: MapState, savedLevel: int, savedType: string): (t: MapState)
    ensures t.pricelevel == Some(savedLevel) && t.selectedType == savedType
    ensures t.priceSelected == (s.priceSelected || savedLevel > 0)
    ensures t.typeSelected == (s.typeSelected || savedType != "")
    ensures t.places == (if s.pricelevel != Some(savedLevel) || s.selectedType != savedType then [] else s.places)
    ensures t.radius == (if s.pricelevel != Some(savedLevel) || s.selectedType != savedType then RADIUS_FLOOR else s.radius)
    ensures t.(pricelevel := s.pricelevel, selectedType := s.selectedType, priceSelected := s.priceSelected,
               typeSelected := s.typeSelected, places := s.places, radius := s.radius) == s
    ensures Coherent(s) ==> Coherent(t)
  {
    var restored := SelectedTypeAssigned(PriceLevelAssigned(s, Some(savedLevel)), savedType);
    restored.(priceSelected := restored.priceSelected || savedLevel > 0,
              typeSelected := restored.typeSelected || savedType != "")
  }

  /** "Adjust Search": restores the saved preferences into the view models. */
  method AdjustSearch(vm: MapViewModel, home: HomeViewModel)
    requires vm.Valid()
    modifies vm, vm.fetcher, home
    ensures vm.Valid()
    ensures vm.State() == Adjusted(old(vm.State()), old(home.storage.savedPriceLevel), old(home.storage.savedPlaceType))
    ensures home.budgetSelected == (old(home.budgetSelected) || home.storage.savedPriceLevel > 0)
    ensures home.storage.savedPriceLevel > 0 ==> home.selectedBudget == Dollars(home.storage.savedPriceLevel)
    ensures home.storage.savedPriceLevel <= 0 ==> home.selectedBudget == old(home.selectedBudget)
    ensures home.placeSelected == (old(home.placeSelected) || home.storage.savedPlaceType != "")
    ensures home.showSearchForm == old(home.showSearchForm) && home.showPlaceSelection == old(home.showPlaceSelection)
    ensures BudgetBacked(home, vm)
  {
    var preferences := home.LoadPreferences();
    vm.SetPriceLevel(Some(preferences.0));
    vm.SetSelectedType(preferences.1);
    if preferences.0 > 0 {
      home.budgetSelected := true;
      home.selectedBudget := Dollars(preferences.0);
      vm.priceSelected := true;
    }
    if preferences.1 != "" {
      home.placeSelected := true;
      vm.typeSelected := true;
    }
  }

  /**
   * A saved "Free" (level 0) is restored as the price level but not marked as chosen, so
   * after "Adjust Search" from a state with nothing chosen no fetch is allowed.
   */
  lemma FreeIsNotRestoredAsChosen(s: MapState, savedType: string)
    requires !s.priceSelected
    ensures Adjusted(s, 0, savedType).pricelevel == Some(0)
    ensures !Adjusted(s, 0, savedType).priceSelected
    ensures !FetchAllowed(Adjusted(s, 0, savedType))
  {
  }

  /**
   * The row's favourite button: removes the place when it is a favourite and adds it
   * otherwise, raises the heart, and sets the view model's `isFavorited` to the negation of
   * the store's answer asked again after the change. When the loaded list mirrors a
   * healthy store, the toggle flips the place's status, the list still mirrors the store,
   * and the flag therefore records the status from before the toggle.
   */
  method ToggleFavorite(vm: MapViewModel, favorites: FavoritesViewModel, place: Place)
    requires favorites.Valid()
    modifies vm, favorites, favorites.context
    ensures favorites.Valid()
    ensures favorites.context == old(favorites.context)
    ensures old(favorites.IsFavorited(place)) ==>
              !favorites.context.fetchFails ==> favorites.context.stored == Without(old(favorites.context.stored), place.id)
    ensures !old(favorites.IsFavorited(place)) ==>
              favorites.context.stored == Upsert(old(favorites.context.stored), FromPlace(place))
    ensures vm.State() == old(vm.State()).(showHeart := true, isFavorited := !favorites.IsFavorited(place))
    ensures old(favorites.favoritePlaces == favorites.context.stored
                && !favorites.context.fetchFails && !favorites.context.saveFails) ==>
              favorites.favoritePlaces == favorites.context.stored
              && favorites.IsFavorited(place) == !old(favorites.IsFavorited(place))
              && vm.isFavorited == old(favorites.IsFavorited(place))
  {
    var wasFavorited := favorites.IsFavorited(place);
    if wasFavorited {
      favorites.RemoveFromFavorites(place);
    } else {
      favorites.AddToFavorites(place);
    }
    vm.showHeart := true;
    vm.isFavorited := !favorites.IsFavorited(place);
  }
}

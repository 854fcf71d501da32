/**
 * `MapViewModel` (ViewModels/MapViewModel.swift): the search criteria, the radius, the
 * accumulated places (held by its `PlaceFetcher`) and the selection state.
 *
 * `MapState` is a snapshot of every field the core reads or writes; each operation is
 * specified as a function from the snapshot before to the snapshot after, and the class
 * methods are proved to perform exactly that step.
 */
module MapModel {
  import opened Wrappers
  import opened Seqs
  import opened Places
  import opened Fetching

  /** The radius every criteria change resets to, in meters. */
  const RADIUS_FLOOR := 1500

  /** The place categories offered by the search form. */
  const PLACE_TYPES: seq<string> :=
    ["restaurant", "bar", "food", "establishment", "cafe", "lodging", "supermarket", "park", "museum"]

  datatype MapState = MapState(
    priceSelected: bool,
    isSelectingMarker: bool,
    isLoadingMore: bool,
    useMiles: bool,
    pricelevel: Option<int>,
    selectedType: string,
    typeSelected: bool,
    selectedPlace: Option<Place>,
    radius: int,
    showHeart: bool,
    isFavorited: bool,
    userLocation: Option<Coordinate2D>,
    places: seq<Place>,
    requests: seq<Request>)

  /** The state of a freshly created view model; `useMiles` is read from stored preferences. */
  function InitialState(useMiles: bool): MapState {
    MapState(false, false, false, useMiles, None, "", false, None, RADIUS_FLOOR, false, false, None, [], [])
  }

  /** Every place in the list carries the price level `level`, which is set. */
  predicate AllAtLevel(places: seq<Place>, level: Option<int>) {
    forall i :: 0 <= i < |places| ==> level.Some? && places[i].priceLevel == level
  }

  /** Every accumulated place was fetched for the price level currently selected. */
  predicate Coherent(s: MapState) {
    AllAtLevel(s.places, s.pricelevel)
  }

  /** Assigning `pricelevel`, including its `didSet` observer. */
  function PriceLevelAssigned(s: MapState, v: Option<int>): (t: MapState)
    ensures t.pricelevel == v
    ensures s.pricelevel != v ==> t.places == [] && t.radius == RADIUS_FLOOR
    ensures s.pricelevel == v ==> t == s
    ensures t.(pricelevel := s.pricelevel, places := s.places, radius := s.radius) == s
    ensures Coherent(s) ==> Coherent(t)
  {
    if s.pricelevel != v then s.(pricelevel := v, places := [], radius := RADIUS_FLOOR) else s
  }

  /** Assigning `selectedType`, including its `didSet` observer. */
  function SelectedTypeAssigned(s: MapState, v: string): (t: MapState)
    ensures t.selectedType == v
    ensures s.selectedType != v ==> t.places == [] && t.radius == RADIUS_FLOOR
    ensures s.selectedType == v ==> t == s
    ensures t.(selectedType := s.selectedType, places := s.places, radius := s.radius) == s
    ensures Coherent(s) ==> Coherent(t)
  {
    if s.selectedType != v then s.(selectedType := v, places := [], radius := RADIUS_FLOOR) else s
  }

  /** Both "selected" flags gate every fetch. */
  predicate FetchAllowed(s: MapState) {
    s.typeSelected && s.priceSelected
  }

  /**
   * `fetchPlacesIfValid` against one exchange with the provider: when both flags are set,
   * the fetcher runs with the current price level, type, location and radius.
   */
  function FetchStep(s: MapState, exchange: Exchange): (t: MapState)
    ensures !FetchAllowed(s) ==> t == s
    ensures FetchAllowed(s) ==> t.places == AfterFetch(s.places, s.pricelevel, s.userLocation, exchange)
    ensures FetchAllowed(s) ==>
              t.requests == s.requests + Sent(s.pricelevel, s.selectedType, s.userLocation, s.radius, exchange)
    ensures t.(places := s.places, requests := s.requests) == s
    ensures s.places <= t.places
    ensures Coherent(s) ==> Coherent(t)
  {
    if FetchAllowed(s) then
      s.(places := AfterFetch(s.places, s.pricelevel, s.userLocation, exchange),
         requests := s.requests + Sent(s.pricelevel, s.selectedType, s.userLocation, s.radius, exchange))
    else s
  }

  /**
   * A fetch that is allowed, has both criteria and a well-formed URL sends exactly one
   * request, and that request searches the current type at the current radius.
   */
  lemma FetchSearchesCurrentCriteria(s: MapState, exchange: Exchange)
    requires FetchAllowed(s) && s.pricelevel.Some? && s.userLocation.Some? && !exchange.UrlRejected?
    ensures FetchStep(s, exchange).requests
            == s.requests + [Request(s.pricelevel.value, s.selectedType, s.userLocation.value, s.radius)]
  {
  }

  /** The matcher for `$0.id == markerID`. */
  function HasId(id: string): Place -> bool {
    (p: Place) => p.id == id
  }

  /** `places.first(where: { $0.id == markerID })`. */
  function PlaceWithId(places: seq<Place>, id: string): (r: Option<Place>)
    ensures r.Some? ==> r.value in places && r.value.id == id
    ensures r.None? <==> id !in Ids(places)
    ensures r.Some? ==> exists i :: 0 <= i < |places| && places[i] == r.value
                                    && forall j :: 0 <= j < i ==> places[j].id != id
  {
    match FirstIndex(places, HasId(id))
    case Some(i) => Some(places[i])
    case None => None
  }

  /** `handleMarkerSelection(markerID:)`; the camera move is not modelled. */
  function MarkerSelected(s: MapState, id: string): (t: MapState)
    ensures id !in Ids(s.places) ==> t == s
    ensures id in Ids(s.places) ==> t == s.(selectedPlace := PlaceWithId(s.places, id), isSelectingMarker := true)
    ensures t.selectedPlace.Some? && t.selectedPlace != s.selectedPlace ==> t.selectedPlace.value.id == id
  {
    match PlaceWithId(s.places, id)
    case Some(p) => s.(selectedPlace := Some(p), isSelectingMarker := true)
    case None => s
  }

  /** `switchDistanceMeasurement()`. */
  function DistanceUnitSwitched(s: MapState): (t: MapState)
    ensures t.useMiles != s.useMiles
    ensures t.(useMiles := s.useMiles) == s
    ensures Coherent(s) ==> Coherent(t)
  {
    s.(useMiles := !s.useMiles)
  }

  /** Switching the unit twice restores the setting. */
  lemma SwitchTwiceRestores(s: MapState)
    ensures DistanceUnitSwitched(DistanceUnitSwitched(s)) == s
  {
  }

  /** The labels of price levels 0 through 4, cheapest first. */
  const PRICE_LABELS: seq<string> := ["Free", "Inexpensive", "Moderate", "Expensive", "Very Expensive"]

  /** `priceLabel(for:)`. */
  function PriceLabel(level: int): (r: string)
    ensures 0 <= level < |PRICE_LABELS| ==> r == PRICE_LABELS[level]
    ensures r == "Unknown" <==> !(0 <= level <= 4)
    ensures level == 0 <==> r == "Free"
    ensures r in {"Free", "Inexpensive", "Moderate", "Expensive", "Very Expensive", "Unknown"}
  {
    match level
    case 0 => "Free"
    case 1 => "Inexpensive"
    case 2 => "Moderate"
    case 3 => "Expensive"
    case 4 => "Very Expensive"
    case _ => "Unknown"
  }

  /**
   * The label is "Unknown" exactly outside 0..4, each level in 0..4 gets its entry of the
   * table, and the five levels get five different labels.
   */
  lemma PriceLabelTotal(level: int, other: int)
    ensures PriceLabel(level) == "Unknown" <==> !(0 <= level <= 4)
    ensures PriceLabel(1) == "Inexpensive" && PriceLabel(2) == "Moderate"
    ensures PriceLabel(3) == "Expensive" && PriceLabel(4) == "Very Expensive"
    ensures 0 <= level <= 4 && 0 <= other <= 4 && PriceLabel(level) == PriceLabel(other) ==> level == other
  {
  }

  // ---------------------------------------------------------------------------
  // Ranking by distance. The distance itself is an uninterpreted ordered key.

  /** `s` is in non-decreasing order of `key`. */
  predicate SortedBy(s: seq<Place>, key: Place -> real) {
    forall i, j :: 0 <= i < j < |s| ==> key(s[i]) <= key(s[j])
  }

  function InsertByKey(p: Place, s: seq<Place>, key: Place -> real): (r: seq<Place>)
    requires SortedBy(s, key)
    ensures SortedBy(r, key)
    ensures multiset(r) == multiset(s) + multiset{p}
    ensures forall i :: 0 <= i < |r| ==> r[i] == p || r[i] in s
  {
    if s == [] then [p]
    else if key(p) <= key(s[0]) then [p] + s
    else
      assert s == [s[0]] + s[1..];
      [s[0]] + InsertByKey(p, s[1..], key)
  }

  /** A sort on `key`; no order is promised among places whose keys tie. */
  function SortByKey(s: seq<Place>, key: Place -> real): (r: seq<Place>)
    ensures SortedBy(r, key)
    ensures multiset(r) == multiset(s)
  {
    if s == [] then []
    else
      assert s == [s[0]] + s[1..];
      InsertByKey(s[0], SortByKey(s[1..], key), key)
  }

  /** The sort key of `sortedPlaces`: the distance from the user to the place's coordinate. */
  function DistanceKey(user: Coordinate2D, distance: (Coordinate2D, Coordinate2D) -> real): Place -> real {
    (p: Place) => distance(user, p.Coordinate())
  }

  /** `sortedPlaces()` on given places and user location. */
  function RankByDistance(places: seq<Place>, userLocation: Option<Coordinate2D>,
                          distance: (Coordinate2D, Coordinate2D) -> real): (r: seq<Place>)
    ensures userLocation.None? ==> r == places
    ensures multiset(r) == multiset(places)
    ensures userLocation.Some? ==> SortedBy(r, DistanceKey(userLocation.value, distance))
  {
    match userLocation
    case None => places
    case Some(user) => SortByKey(places, DistanceKey(user, distance))
  }

  /** `MapViewModel`. Its `PlaceFetcher` is created with it and never replaced. */
  class MapViewModel {
    var priceSelected: bool
    var isSelectingMarker: bool
    var isLoadingMore: bool
    var useMiles: bool
    var pricelevel: Option<int>
    var selectedType: string
    var typeSelected: bool
    var selectedPlace: Option<Place>
    var radius: int
    var showHeart: bool
    var isFavorited: bool
    var userLocation: Option<Coordinate2D>
    const fetcher: PlaceFetcher

    /** The snapshot of every field, with the fetcher's accumulated places. */
    function State(): MapState
      reads this, fetcher
    {
      MapState(priceSelected, isSelectingMarker, isLoadingMore, useMiles, pricelevel, selectedType,
               typeSelected, selectedPlace, radius, showHeart, isFavorited, userLocation, fetcher.places,
               fetcher.requests)
    }

    ghost predicate Valid()
      reads this, fetcher
    {
      Coherent(State())
    }

    constructor (useMiles: bool)
      ensures fresh(fetcher)
      ensures State() == InitialState(useMiles)
      ensures Valid()
    {
      priceSelected, isSelectingMarker, isLoadingMore := false, false, false;
      this.useMiles := useMiles;
      pricelevel, selectedType, typeSelected := None, "", false;
      selectedPlace, radius := None, RADIUS_FLOOR;
      showHeart, isFavorited, userLocation := false, false, None;
      fetcher := new PlaceFetcher();
    }

    /** `pricelevel = v`, running the `didSet` observer. */
    method SetPriceLevel(v: Option<int>)
      requires Valid()
      modifies this, fetcher
      ensures Valid()
      ensures State() == PriceLevelAssigned(old(State()), v)
    {
      var oldValue := pricelevel;
      pricelevel := v;
      if oldValue != pricelevel {
        fetcher.places := [];
        radius := RADIUS_FLOOR;
      }
    }

    /** `selectedType = v`, running the `didSet` observer. */
    method SetSelectedType(v: string)
      requires Valid()
      modifies this, fetcher
      ensures Valid()
      ensures State() == SelectedTypeAssigned(old(State()), v)
    {
      var oldValue := selectedType;
      selectedType := v;
      if oldValue != selectedType {
        fetcher.places := [];
        radius := RADIUS_FLOOR;
      }
    }

    /**
     * `fetchPlacesIfValid()`: calls the fetcher with the current price level, type, user
     * location and radius when both flags are set; `outcome` is None when it does not.
     */
    method FetchPlacesIfValid(exchange: Exchange) returns (outcome: Option<FetchOutcome>)
      requires Valid()
      modifies fetcher
      ensures Valid()
      ensures outcome == if FetchAllowed(old(State())) then Some(Classify(pricelevel, userLocation, exchange)) else None
      ensures State() == FetchStep(old(State()), exchange)
      ensures fetcher.requests == old(fetcher.requests)
                + if FetchAllowed(old(State())) then Sent(old(pricelevel), old(selectedType), old(userLocation), old(radius), exchange)
                  else []
    {
      if typeSelected && priceSelected {
        var o := fetcher.FetchNearbyRestaurants(pricelevel, selectedType, userLocation, radius, exchange);
        outcome := Some(o);
      } else {
        outcome := None;
      }
    }

    /** `sortedPlaces()`. */
    function SortedPlaces(distance: (Coordinate2D, Coordinate2D) -> real): (r: seq<Place>)
      reads this, fetcher
      ensures multiset(r) == multiset(fetcher.places)
      ensures userLocation.None? ==> r == fetcher.places
      ensures userLocation.Some? ==> SortedBy(r, DistanceKey(userLocation.value, distance))
    {
      RankByDistance(fetcher.places, userLocation, distance)
    }

    /** `handleMarkerSelection(markerID:)`. */
    method HandleMarkerSelection(markerId: string)
      requires Valid()
      modifies this
      ensures Valid()
      ensures State() == MarkerSelected(old(State()), markerId)
    {
      var found := PlaceWithId(fetcher.places, markerId);
      if found.Some? {
        selectedPlace := found;
        isSelectingMarker := true;
      }
    }

    /** `switchDistanceMeasurement()`. */
    method SwitchDistanceMeasurement()
      requires Valid()
      modifies this
      ensures State() == DistanceUnitSwitched(old(State()))
      ensures Valid()
    {
      useMiles := !useMiles;
    }
  }
}

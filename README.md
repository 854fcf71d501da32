# Ez-Tour search and favourites state, in Dafny

Ez-Tour is a SwiftUI app. The user picks a budget (a Google Places price level from 0 to 4) and a place type. The app then searches nearby places around the user's position and lists them by distance. "Load More" widens the search radius step by step, and places can be kept as favourites in a local store.

This project models the state the app keeps for that, and proves properties about it:

- **`Place` value** (`Places`). A `Place` is identified by its id alone. It also has its derived coordinate, its coding keys and its distance update.
- **Incremental search** (`Fetching`, `PlaceFetcher`). The guards and rejections of one nearby search come first. Then come the price filter, the de-duplication against the accumulated list, and the append.
- **Search criteria** (`MapModel`, `MapViewModel`).
  - The observed setters clear the results and reset the radius.
  - Fetching is gated on two flags.
  - Results are ranked by distance.
  - Markers are looked up by id.
  - Other members cover the price label and the distance unit.
- **Results list and search sheet** (`LocationsScreen`, `SearchScreen`). These are the state changes made inside views:
  - load-more, and its button;
  - restoring saved preferences;
  - the favourite toggle;
  - the budget and type pickers;
  - the title;
  - Apply.
- **Favourites** (`FavoriteModel`, `FavoritesStore`). This covers the conversion between `Place` and the persisted `FavoritePlace`, and the view model over a store keyed by id.
- **Location** (`Locating`). This covers the authorisation switch and the handler that records the latest position.
- **Preferences** (`HomeModel`). This covers the two stored preferences and the home screen's initial flags.

How the Swift code maps to the model:

- **Classes whose fields change.** These become Dafny classes: `PlaceFetcher`, `MapViewModel`, `FavoritesViewModel`, SwiftData's `ModelContext`, `HomeViewModel`, the preference storage and `LocationManager`.
- **Methods.** Each method is proved to perform one step given by a pure function. For example, `MapViewModel.State()` after `SetPriceLevel(v)` equals `PriceLevelAssigned(old(State()), v)`. The properties of the app are then proved about those functions.
- **The `MapViewModel` invariant.** `MapViewModel.Valid()` says that every accumulated place carries the currently selected price level. Every operation that touches the view model preserves it.
- **Values.** `Place`, its parts and `FavoritePlace` are datatypes. A `FavoritePlace` is a SwiftData model object, but its fields are set only by its initializer, so it is modelled as a value.
- **External inputs.**
  - The HTTP exchange of a nearby search is an `Exchange` input with three parts: status, UTF-8 body and decode result.
  - The distance between two coordinates is a function parameter, used as an uninterpreted ordered key.
  - The store's fetch and save failures are flags on the model context.
  - The platform's authorisation status is a field of the platform manager.

Three behaviours of the code are easy to mistake for something else, and the model keeps them as they are:

- **Load-more radius.** The code adds 5000 m whenever the radius is below 15000 m, with no clamp. Starting from 1500 m the radius is therefore 1500, 6500, 11500 and then 16500 (`LocationsScreen.ReachableRadii`).
- **Duplicates within one response.** The code removes only ids that were already accumulated. Two results with the same id in one response are both appended (`Fetching.DuplicatesWithinResponseKept`).
- **The favourite toggle.** The toggle sets `MapViewModel.isFavorited` to the negation of `isFavorited(place)` as asked again after the add or remove. When the toggle takes effect, the flag therefore records the status from before the toggle (`LocationsScreen.ToggleFavorite`). Nothing in the app reads that flag.

## Model

| member | source | states |
|---|---|---|
| Places.Place.Coordinate | ContentView.swift:42-47 | the coordinate is `geometry.location`'s latitude and longitude |
| Places.Place.FirstPhoto | Models/FavoritePlace.swift:26 | `photos?.first` is present exactly when the list is present and non-empty, and is then its first element |
| Places.SamePlaceIsIdOnly | ContentView.swift:68-74 | two places are `==` exactly when their ids are equal, symmetrically; `==` places feed the hasher the same values |
| Places.SamePlaceTransitive | ContentView.swift:68-70 | `==` on places is transitive |
| Places.Ids | Classes/PlaceFetcher.swift:89 | the id set holds the id of every listed place and nothing else |
| Places.UpdateDistance | ContentView.swift:76-79 | `distance` becomes the distance from the user to the place's coordinate; every other field is unchanged |
| Places.JsonNamesDistinct | ContentView.swift:32-40 | the coding keys name distinct JSON members; none is `distance`; only `id` reads `place_id` |
| Places.Decode | ContentView.swift:30-40 | a decoded place takes its id from `place_id`, copies price level and photos, and has no distance |
| Places.DecodeAll | Classes/PlaceFetcher.swift:84 | the `results` array decodes element by element, keeping length and order |
| Seqs.Filter | Classes/PlaceFetcher.swift:88-90 | a filter keeps only elements that pass, all of them, and is no longer than its input |
| Seqs.FilterDistributes | Classes/PlaceFetcher.swift:88-90 | filtering a concatenation is concatenating the filtered parts (order is kept) |
| Seqs.FirstIndex | ViewModels/MapViewModel.swift:80 | `first(where:)` finds the first matching position, and finds nothing exactly when nothing matches |
| Fetching.ContainsIff | Classes/PlaceFetcher.swift:78 | the substring test holds exactly when the sentinel occurs at some position of the body |
| Fetching.NewPlaces | Classes/PlaceFetcher.swift:88-90 | the appended delta is drawn from the results; each entry has exactly the requested price level and an id not yet accumulated; every result meeting both is in it |
| Fetching.NewPlacesInResponseOrder | Classes/PlaceFetcher.swift:88-93 | the delta is computed left to right: for a concatenated response it is the concatenation of the parts' deltas |
| Fetching.FilterKeepsIdsUnique | Classes/PlaceFetcher.swift:88-90 | filtering a list with distinct ids leaves distinct ids |
| Fetching.NewPlacesKeepIdsUnique | Classes/PlaceFetcher.swift:89-93 | if the accumulated list and the response each have distinct ids, so does the list after the append |
| Fetching.DuplicatesWithinResponseKept | Classes/PlaceFetcher.swift:88-93 | a response holding the same matching place twice appends it twice |
| Fetching.AfterFetch | Classes/PlaceFetcher.swift:35-115 | the old list is a prefix of the new; every appended place has the requested (non-nil) price level and an id absent before; any outcome but a successful decode leaves the list as it was |
| Fetching.DeclinesWithoutCriteria | Classes/PlaceFetcher.swift:36-40 | without a price level or a user location no request is made and the list is unchanged |
| Fetching.RejectedResponsesChangeNothing | Classes/PlaceFetcher.swift:58-84 | a non-200 status, a non-UTF-8 body, a provider error string, a decode failure or a transport error leaves the list unchanged |
| Fetching.SuccessfulFetchAppends | Classes/PlaceFetcher.swift:84-93 | an accepted response appends exactly the delta of its decoded results |
| Fetching.NewPlacesSingleton | Classes/PlaceFetcher.swift:88-90 | a single result is appended exactly when it is at the level and new |
| Fetching.ScenarioPriceFilter | Classes/PlaceFetcher.swift:88 | results priced 2, 2, 3 against level 2 yield the first two, in order |
| Fetching.ScenarioDuplicateAndNew | Classes/PlaceFetcher.swift:89-93 | a response repeating an accumulated id and bringing one new id grows the list by that one place |
| Fetching.ScenarioOverQueryLimit | Classes/PlaceFetcher.swift:78-81 | a 200 body reporting `OVER_QUERY_LIMIT` is a provider error and changes nothing |
| Fetching.PlaceFetcher.constructor | Classes/PlaceFetcher.swift:13 | the accumulated list starts empty |
| Fetching.HasProviderError | Classes/PlaceFetcher.swift:78 | a body counts as a provider error exactly when one of `REQUEST_DENIED`, `OVER_QUERY_LIMIT`, `INVALID_REQUEST` occurs in it at some position |
| Fetching.Classify | Classes/PlaceFetcher.swift:36-84 | no level gives the first guard's exit and no location the second's; a request is made exactly when both are present and the URL builds; the decode path is taken exactly when status (if any) is 200, the body is UTF-8, carries no provider error and decodes, and its results are the decoded array |
| Fetching.Sent | Classes/PlaceFetcher.swift:43-58 | one request, carrying the level, type, location and radius, exactly when the guards and the URL pass; none otherwise |
| Fetching.PlaceFetcher.FetchNearbyRestaurants | Classes/PlaceFetcher.swift:35-115 | the path taken is the classified outcome, the new list is `AfterFetch` of the old one, and the request sent (if any) carries the given level, type, location and radius |
| MapModel.PriceLevelAssigned | ViewModels/MapViewModel.swift:18-25 | a different level (nil and non-nil included) empties the places and resets the radius to 1500; the same level changes nothing; nothing else changes; coherence is kept |
| MapModel.SelectedTypeAssigned | ViewModels/MapViewModel.swift:26-33 | a different type empties the places and resets the radius to 1500; the same type changes nothing; nothing else changes; coherence is kept |
| MapModel.FetchStep | ViewModels/MapViewModel.swift:54-64 | without both flags nothing changes; otherwise the places become `AfterFetch` of the current list, level and location, and the request sent carries the current level, type, location and radius; nothing else changes; coherence is kept |
| MapModel.FetchSearchesCurrentCriteria | ViewModels/MapViewModel.swift:56-62 | an allowed fetch with both criteria and a buildable URL sends exactly one request, for the current type at the current radius |
| MapModel.PlaceWithId | ViewModels/MapViewModel.swift:80 | the lookup finds the first place with the id, and finds none exactly when no place has it |
| MapModel.MarkerSelected | ViewModels/MapViewModel.swift:78-92 | a known id selects that place and sets `isSelectingMarker`; an unknown id changes nothing |
| MapModel.DistanceUnitSwitched | ViewModels/MapViewModel.swift:113-115 | the unit flag is negated and nothing else changes; coherence is kept |
| MapModel.SwitchTwiceRestores | ViewModels/MapViewModel.swift:113-115 | switching twice restores the state |
| MapModel.PriceLabel | ViewModels/MapViewModel.swift:94-103 | levels 0 to 4 map to "Free", "Inexpensive", "Moderate", "Expensive", "Very Expensive" in that order; "Unknown" exactly outside 0..4; always one of the six labels |
| MapModel.PriceLabelTotal | ViewModels/MapViewModel.swift:94-103 | the label is "Unknown" exactly outside 0..4, levels 1 to 4 read "Inexpensive", "Moderate", "Expensive", "Very Expensive", and the five levels have five distinct labels |
| MapModel.InsertByKey | ViewModels/MapViewModel.swift:71-75 | inserting into a sorted list keeps it sorted and adds exactly that element |
| MapModel.SortByKey | ViewModels/MapViewModel.swift:71-75 | the result is sorted by the key and is a permutation of the input |
| MapModel.RankByDistance | ViewModels/MapViewModel.swift:66-76 | without a user location the places come back unchanged, in order; with one, a permutation in non-decreasing distance from the user |
| MapModel.MapViewModel.constructor | ViewModels/MapViewModel.swift:14-47 | all flags false, no level, empty type, radius 1500, no selection or location, empty places, stored unit preference |
| MapModel.MapViewModel.SetPriceLevel | ViewModels/MapViewModel.swift:18-25 | performs `PriceLevelAssigned` and keeps the coherence invariant |
| MapModel.MapViewModel.SetSelectedType | ViewModels/MapViewModel.swift:26-33 | performs `SelectedTypeAssigned` and keeps the coherence invariant |
| MapModel.MapViewModel.FetchPlacesIfValid | ViewModels/MapViewModel.swift:54-64 | calls the fetcher exactly when both flags are set, with the current level, type, location and radius, which the request it sends carries; performs `FetchStep` |
| MapModel.MapViewModel.SortedPlaces | ViewModels/MapViewModel.swift:66-76 | a permutation of the accumulated places; unchanged without a location, by distance with one |
| MapModel.MapViewModel.HandleMarkerSelection | ViewModels/MapViewModel.swift:78-92 | performs `MarkerSelected` |
| MapModel.MapViewModel.SwitchDistanceMeasurement | ViewModels/MapViewModel.swift:113-115 | performs `DistanceUnitSwitched` |
| FavoriteModel.FromPlace | Models/FavoritePlace.swift:17-35 | copies id, name and coordinate; a missing level, rating or open flag becomes 0, 0.0, false; keeps the first photo, or no reference and 0 by 0; the result is well formed |
| FavoriteModel.ToPlace | Models/FavoritePlace.swift:37-58 | gives back id, name and coordinate; level, rating and opening hours are always present; photos are absent exactly when there is no reference, else a one-element list |
| FavoriteModel.FavoriteRoundTrip | Models/FavoritePlace.swift:17-58 | a favourite survives the trip through `Place` exactly when it is well formed |
| FavoriteModel.FromPlaceIdempotent | Models/FavoritePlace.swift:17-58 | converting a favourite made from a place to a place and back gives the same favourite |
| FavoriteModel.PlaceRoundTrip | Models/FavoritePlace.swift:17-58 | a place brought back from the favourites is `==` to the original, with the same name, coordinate and first photo, and its level defaulted |
| FavoritesStore.Upsert | Models/FavoritePlace.swift:6 | an insertion stores the favourite, keeps every stored favourite with another id, and appends when the id is new |
| FavoritesStore.UpsertKeepsIdsUnique | Models/FavoritePlace.swift:6 | insertion keeps at most one stored favourite per id |
| FavoritesStore.Without | ViewModels/FavoritesViewModel.swift:55 | deletion leaves no favourite with the id, keeps all others, and changes nothing when the id is absent |
| FavoritesStore.WithoutKeepsIdsUnique | ViewModels/FavoritesViewModel.swift:55 | deletion keeps at most one stored favourite per id |
| FavoritesStore.WithId | ViewModels/FavoritesViewModel.swift:47-54 | the lookup by id returns only favourites with that id, and is non-empty exactly when one is stored |
| FavoritesStore.ToPlaces | ViewModels/FavoritesViewModel.swift:15-17 | `favorites` has the same length and order as the loaded list, element by element `toPlace` |
| FavoritesStore.FavoritedIffListed | ViewModels/FavoritesViewModel.swift:34-36 | a place has a loaded favourite with its id exactly when `favorites` holds a place `==` to it |
| FavoritesStore.Loaded | ViewModels/FavoritesViewModel.swift:29-32 | a failed fetch loads the empty list; otherwise the whole store |
| FavoritesStore.ModelContext.constructor | ViewModels/FavoritesViewModel.swift:12 | a store with the given contents and health |
| FavoritesStore.ModelContext.FetchWithId | ViewModels/FavoritesViewModel.swift:47-54 | fails exactly when fetching fails; otherwise returns the lookup by id |
| FavoritesStore.ModelContext.FetchAll | ViewModels/FavoritesViewModel.swift:30-31 | fails exactly when fetching fails; otherwise returns the stored favourites |
| FavoritesStore.ModelContext.Insert | ViewModels/FavoritesViewModel.swift:40 | the store becomes the insertion of the favourite; ids stay unique |
| FavoritesStore.ModelContext.Delete | ViewModels/FavoritesViewModel.swift:55 | the store loses the favourite's id; ids stay unique |
| FavoritesStore.ModelContext.Save | ViewModels/FavoritesViewModel.swift:41 | reports success exactly when saving does not fail |
| FavoritesStore.FavoritesViewModel.constructor | ViewModels/FavoritesViewModel.swift:19-22 | keeps the context and loads from it at once |
| FavoritesStore.FavoritesViewModel.Favorites | ViewModels/FavoritesViewModel.swift:15-17 | one place per loaded favourite, in order, each equal in every field to its favourite's `toPlace()` |
| FavoritesStore.FavoritesViewModel.IsFavorited | ViewModels/FavoritesViewModel.swift:34-36 | true exactly when some loaded favourite has the place's id |
| FavoritesStore.FavoritesViewModel.LoadFavorites | ViewModels/FavoritesViewModel.swift:29-32 | the loaded list becomes the store's contents, or empty when the fetch fails |
| FavoritesStore.FavoritesViewModel.UpdateModelContext | ViewModels/FavoritesViewModel.swift:24-27 | the context is replaced and the list reloaded from the new one |
| FavoritesStore.FavoritesViewModel.AddToFavorites | ViewModels/FavoritesViewModel.swift:38-43 | the favourite is inserted, the list reloaded from the store, and the place is reported favourited whenever the reload succeeds |
| FavoritesStore.FavoritesViewModel.RemoveFromFavorites | ViewModels/FavoritesViewModel.swift:45-62 | a failed lookup or an absent id changes nothing; otherwise the id is deleted and, if the save succeeds, the list reloaded, after which the place is not reported favourited; other ids are untouched |
| Locating.ActionFor | Classes/LocationManager.swift:25-36 | not determined: request when-in-use; restricted or denied: nothing; authorised: start updates; any other status: fatal; each in both directions |
| Locating.LatestPosition | Classes/LocationManager.swift:44-46 | an empty batch keeps the position; otherwise the position is the batch's last sample |
| Locating.LatestPositionComposes | Classes/LocationManager.swift:43-50 | two batches in turn leave the same position as their concatenation: the last write wins |
| Locating.PlatformLocationManager.constructor | Classes/LocationManager.swift:19 | a platform manager with the given status, nothing requested yet |
| Locating.PlatformLocationManager.RequestWhenInUseAuthorization | Classes/LocationManager.swift:28 | one more when-in-use request; nothing else changes |
| Locating.PlatformLocationManager.StartUpdatingLocation | Classes/LocationManager.swift:33 | updates are running; nothing else changes |
| Locating.LocationManager.constructor | Classes/LocationManager.swift:13-21 | the position starts at (0, 0), the view model is kept, and a platform manager is created |
| Locating.LocationManager.CheckAuthorization | Classes/LocationManager.swift:23-37 | no manager: nothing; otherwise the action for its status, with exactly that request made |
| Locating.LocationManager.DidChangeAuthorization | Classes/LocationManager.swift:39-41 | the same effect as re-running the check |
| Locating.LocationManager.DidUpdateLocations | Classes/LocationManager.swift:43-50 | an empty batch changes nothing; otherwise the last sample becomes the position and the view model's location, and nothing else of the view model changes |
| HomeModel.PreferenceStore.constructor | ViewModels/HomeViewModel.swift:19-20 | the stored preferences default to 0 and "" |
| SearchScreen.Dollars | Views/SearchForm.swift:55 | `n` characters, all of them `$` |
| SearchScreen.BudgetLabel | Views/SearchForm.swift:55 | "Free" for index 0, otherwise that many dollar signs |
| SearchScreen.BudgetLabelsDistinct | Views/SearchForm.swift:52-60 | two indices have the same budget label exactly when they are equal |
| HomeModel.HomeViewModel.constructor | ViewModels/HomeViewModel.swift:13-17 | every flag false and the budget text "Take your pick!" |
| HomeModel.HomeViewModel.LoadPreferences | ViewModels/HomeViewModel.swift:27-29 | returns the two stored preferences |
| HomeModel.HomeViewModel.SavePreferences | ViewModels/HomeViewModel.swift:22-25 | the next load returns exactly the saved pair; only the storage changes |
| HomeModel.SaveTwiceThenLoad | ViewModels/HomeViewModel.swift:22-29 | after two saves a load returns the second pair |
| HomeModel.LoadBeforeSave | ViewModels/HomeViewModel.swift:19-29 | before any save a load returns (0, "") |
| LocationsScreen.NextRadius | Views/Locations.swift:65-67 | below 15000 the radius grows by exactly 5000, with no clamp; otherwise it stays |
| LocationsScreen.ReachableRadii | Views/Locations.swift:65-67 | from 1500 the radius is only ever 1500, 6500, 11500 or 16500, and 16500 from the third press on |
| LocationsScreen.LoadMoreButtonAgrees | Views/Locations.swift:82-93 | an enabled button always widens the radius, and a button labelled "No more places" is disabled |
| LocationsScreen.LoadMoreDisabled | Views/Locations.swift:93 | the button is disabled exactly while a load runs or when a press would leave the radius as it is |
| LocationsScreen.LoadMoreLabel | Views/Locations.swift:82 | the label reads "No more places" exactly when a press would leave the radius as it is, and "Load More Places" otherwise |
| LocationsScreen.LoadMoreStep | Views/Locations.swift:63-72 | at or past 15000 nothing changes; below it the radius widens, one fetch step runs and loading ends cleared; with both flags set the request goes out at the widened radius; places only grow; coherence is kept |
| LocationsScreen.LoadMoreSearchesWiderRadius | Views/Locations.swift:65-69 | below the limit, with flags, criteria and a buildable URL, one request goes out for the same level and type at the radius plus 5000 |
| LocationsScreen.LoadMore | Views/Locations.swift:63-72 | performs `LoadMoreStep`; a fetch step runs exactly when the radius was below 15000 |
| LocationsScreen.Adjusted | Views/Locations.swift:102-113 | the saved level and type are assigned; a changed level or type empties the places and resets the radius to 1500, and otherwise both stay; the price flag rises only for a level above 0 and the type flag only for a non-empty type; no other field changes; coherence is kept |
| LocationsScreen.AdjustSearch | Views/Locations.swift:99-114 | performs `Adjusted`; the budget text becomes the dollar signs of a positive level; the home flags rise under the same conditions; afterwards the budget flag is backed by a set level |
| LocationsScreen.FreeIsNotRestoredAsChosen | Views/Locations.swift:105-109 | a saved level 0 is restored as the level but not as chosen, so no fetch is allowed |
| LocationsScreen.ToggleFavorite | Views/Locations.swift:268-277 | removes when favourited and adds otherwise; raises the heart; the flag is the negated status after the change; with a mirrored, healthy store the status flips and the flag records the old status |
| SearchScreen.UpperAscii | Views/SearchForm.swift:15 | lowercase ASCII letters map to their uppercase; other characters are kept |
| SearchScreen.Capitalized | Views/SearchForm.swift:15 | same length; the first character uppercased and the rest kept |
| SearchScreen.CapitalizedIdempotent | Views/SearchForm.swift:15 | capitalising twice is capitalising once |
| SearchScreen.Title | Views/SearchForm.swift:12-18 | "Where To?" until a type is chosen, then the capitalised type |
| SearchScreen.CapitalizedInjective | Views/SearchForm.swift:36 | two words starting with a lowercase ASCII letter capitalise alike exactly when they are equal |
| SearchScreen.TitlesOfTypesDistinct | Views/SearchForm.swift:34-36 | the nine place types give nine distinct titles, none of them the prompt |
| SearchScreen.ApplyEnabled | Views/SearchForm.swift:132-133 | enabled only with the user's position known, and never before both a budget and a type are chosen |
| SearchScreen.EnabledApplyPassesGuards | Views/SearchForm.swift:132-133 | with Apply enabled (and the budget flag backed by a level, which every operation keeps), the fetch is allowed, a request goes out exactly when the URL builds, and it searches the chosen level and type at 1500 m |
| SearchScreen.ChoosePrice | Views/SearchForm.swift:52-58 | assigns the level through its observer, raises the price flag and the budget flag, shows the index's label and stores the level; the budget flag is backed by a level afterwards; other home flags are kept |
| SearchScreen.ChooseType | Views/SearchForm.swift:41-46 | assigns the type through its observer, raises both type flags and stores the type; the home screen's other flags and the budget's backing are kept |
| SearchScreen.ApplyReset | Views/SearchForm.swift:110-116 | radius 1500, no places and both flags raised, so a fetch is allowed and coherence holds; nothing else changes |
| SearchScreen.Apply | Views/SearchForm.swift:104-123 | saves the preferences only with a level set; resets, then always fetches; the places are exactly the fresh results the fetch accepts; the request sent searches the level and type at 1500 m; the sheet closes; the home screen's budget and type flags, budget text and place-selection flag are kept |

## Left out

- Networking is not modelled: the URL text with the API key, `URLSession`, photo and detail requests, and `fetchPlaces`. The nearby-search exchange is the `Exchange` input, and each request the fetcher sends is recorded as a `Request` value holding its level, type, location and radius.
- JSON decoding is not modelled. The decode result is part of the `Exchange`, and the keys are modelled only as `CodingKey`/`JsonName`.
- Floating point is not modelled. Coordinates, ratings and distances are opaque `real`s. `CLLocation.distance` is a parameter, and `formatDistance` and the rating and coordinate formatting are not modelled.
- Concurrency is not modelled: `async`/`await`, the main actor, `DispatchQueue` hops and overlapping load-more tasks. Every action is one sequential step.
- The heart animation timer that clears `showHeart` after 0.6 s is not modelled, nor are the map camera `position`, `openInMaps`, images, the `placeImages` cache, logging, navigation bindings, sheet dismissal and the list view's own `showSearchForm` state.
- The duplicated favourite toggles in Views/Map.swift and Views/Details.swift, and the preference restore in Views/Home.swift, are not part of this model; they repeat the logic modelled from Views/Locations.swift.
- `MapViewModel` and `LocationManager` refer to each other, and `MapViewModel.init` creates the `LocationManager`. The model builds them separately and passes the view model to the location manager's constructor.
- `PlaceFetcher.init` stops the app when the API key is missing. That is not modelled; the key is assumed present.
- MapModel.RankByDistance: no order is promised among places at equal distance, because Swift's `sorted` is not stable.
- FavoritesStore.Upsert: inserting a favourite whose id is already stored replaces the stored one, following the unique `id` attribute. The unique `name` attribute and its collisions are not modelled, and neither is the point at which the persistent store resolves a collision.
- FavoritesStore.ModelContext.FetchAll: returns favourites in insertion order; SwiftData gives no order without a sort descriptor.
- Locating.LocationManager.CheckAuthorization: `fatalError` for an unknown status is reported as the `Fatal` action and does not stop anything.
- SearchScreen.Capitalized: uppercases ASCII letters only. Swift's `uppercased()` follows Unicode and can change a string's length, as "ß" to "SS" does.
- LocationsScreen.LoadMore: the contract states the state after the action. That `isLoadingMore` is true while the fetch runs shows only in the method body, since the fetch is one step here.

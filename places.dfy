/**
 * The `Place` value type of ContentView.swift: one result of a nearby search.
 * Latitudes, longitudes, ratings and distances are Swift `Double`s; the model keeps
 * them as opaque `real`s and does no arithmetic on them.
 */
module Places {
  import opened Wrappers

  /** `CLLocationCoordinate2D`. */
  datatype Coordinate2D = Coordinate2D(latitude: real, longitude: real)

  datatype Location = Location(lat: real, lng: real)

  datatype Geometry = Geometry(location: Location)

  datatype OpeningHours = OpeningHours(openNow: Option<bool>)

  datatype Photo = Photo(reference: string, height: int, width: int)

  /** A search result. `distance` is never part of the provider's payload. */
  datatype Place = Place(
    id: string,
    name: string,
    geometry: Geometry,
    priceLevel: Option<int>,
    rating: Option<real>,
    openingHours: Option<OpeningHours>,
    photos: Option<seq<Photo>>,
    distance: Option<real>)
  {
    /** The computed `coordinate` property. */
    function Coordinate(): (c: Coordinate2D)
      ensures c.latitude == geometry.location.lat && c.longitude == geometry.location.lng
    {
      Coordinate2D(geometry.location.lat, geometry.location.lng)
    }

    /** `photos?.first`: absent both when there is no list and when the list is empty. */
    function FirstPhoto(): (r: Option<Photo>)
      ensures r.Some? <==> photos.Some? && |photos.value| > 0
      ensures r.Some? ==> r.value == photos.value[0]
    {
      if photos.Some? && |photos.value| > 0 then Some(photos.value[0]) else None
    }
  }

  /** Swift's `==` on `Place`: two places are the same exactly when their ids are. */
  predicate SamePlace(a: Place, b: Place) {
    a.id == b.id
  }

  /** The values `hash(into:)` feeds to the hasher: the id and nothing else. */
  function HashInput(p: Place): seq<string> {
    [p.id]
  }

  /** `==` ignores every field but the id, and equal places feed the hasher equally. */
  lemma SamePlaceIsIdOnly(a: Place, b: Place)
    ensures SamePlace(a, b) <==> a.id == b.id
    ensures SamePlace(a, b) ==> HashInput(a) == HashInput(b)
    ensures SamePlace(a, b) <==> SamePlace(b, a)
  {
  }

  /** `==` is an equivalence, so places may be used as set elements and dictionary keys. */
  lemma SamePlaceTransitive(a: Place, b: Place, c: Place)
    requires SamePlace(a, b) && SamePlace(b, c)
    ensures SamePlace(a, c)
  {
  }

  /** The ids of a list of places (`Set(places.map { $0.id })`). */
  function Ids(places: seq<Place>): (ids: set<string>)
    ensures forall i :: 0 <= i < |places| ==> places[i].id in ids
    ensures forall id :: id in ids ==> exists p :: p in places && p.id == id
  {
    set p | p in places :: p.id
  }

  /** No two entries of the list share an id. */
  predicate UniqueIds(places: seq<Place>) {
    forall i, j :: 0 <= i < j < |places| ==> places[i].id != places[j].id
  }

  /**
   * `updateDistance(from:)`: the distance itself comes from `CLLocation.distance`,
   * which is a parameter here.
   */
  function UpdateDistance(p: Place, user: Coordinate2D, distance: (Coordinate2D, Coordinate2D) -> real): (r: Place)
    ensures r.distance == Some(distance(user, p.Coordinate()))
    ensures r.(distance := p.distance) == p
  {
    p.(distance := Some(distance(user, p.Coordinate())))
  }

  // ---------------------------------------------------------------------------
  // Decoding. JSON decoding itself is opaque; what the model keeps is the
  // mapping of `CodingKeys` and the fact that `distance` has no key.

  /** The cases of `Place.CodingKeys`. */
  datatype CodingKey = IdKey | NameKey | GeometryKey | PriceLevelKey | OpeningHoursKey | RatingKey | PhotosKey

  /** The JSON member name of each coding key. */
  function JsonName(k: CodingKey): string {
    match k
    case IdKey => "place_id"
    case NameKey => "name"
    case GeometryKey => "geometry"
    case PriceLevelKey => "price_level"
    case OpeningHoursKey => "opening_hours"
    case RatingKey => "rating"
    case PhotosKey => "photos"
  }

  /** Distinct keys name distinct JSON members, and none of them is `distance`. */
  lemma JsonNamesDistinct(k1: CodingKey, k2: CodingKey)
    ensures JsonName(k1) == JsonName(k2) ==> k1 == k2
    ensures JsonName(k1) != "distance"
    ensures JsonName(k1) == "place_id" <==> k1 == IdKey
  {
  }

  /** One element of the provider's `results` array, by JSON member. */
  datatype PlaceJson = PlaceJson(
    placeId: string,
    name: string,
    geometry: Geometry,
    priceLevel: Option<int>,
    openingHours: Option<OpeningHours>,
    rating: Option<real>,
    photos: Option<seq<Photo>>)

  /** The synthesised `Decodable` initializer: `place_id` becomes `id`, and no distance is set. */
  function Decode(j: PlaceJson): (p: Place)
    ensures p.id == j.placeId && p.distance.None?
    ensures p.priceLevel == j.priceLevel && p.photos == j.photos
  {
    Place(j.placeId, j.name, j.geometry, j.priceLevel, j.rating, j.openingHours, j.photos, None)
  }

  /** Decoding the whole `results` array, element by element. */
  function DecodeAll(js: seq<PlaceJson>): (ps: seq<Place>)
    ensures |ps| == |js|
    ensures forall i :: 0 <= i < |js| ==> ps[i] == Decode(js[i])
  {
    seq(|js|, i requires 0 <= i < |js| => Decode(js[i]))
  }
}

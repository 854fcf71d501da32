/**
 * The persisted favourite (Models/FavoritePlace.swift) and its two conversions to and
 * from `Place`. A favourite's fields are set once, by its initializer, and never updated
 * afterwards, so it is modelled as a value.
 */
module FavoriteModel {
  import opened Wrappers
  import opened Places

  datatype FavoritePlace = FavoritePlace(
    id: string,
    name: string,
    latitude: real,
    longitude: real,
    priceLevel: int,
    rating: real,
    isOpen: bool,
    photoReference: Option<string>,
    photoHeight: int,
    photoWidth: int)

  /** A favourite without a photo reference has both photo dimensions zero. */
  predicate WellFormed(f: FavoritePlace) {
    f.photoReference.None? ==> f.photoHeight == 0 && f.photoWidth == 0
  }

  /** `init(from:)`: absent optionals take their defaults, and only the first photo is kept. */
  function FromPlace(p: Place): (f: FavoritePlace)
    ensures f.id == p.id && f.name == p.name
    ensures f.latitude == p.Coordinate().latitude && f.longitude == p.Coordinate().longitude
    ensures f.priceLevel == if p.priceLevel.Some? then p.priceLevel.value else 0
    ensures f.rating == if p.rating.Some? then p.rating.value else 0.0
    ensures f.isOpen <==> p.openingHours.Some? && p.openingHours.value.openNow == Some(true)
    ensures f.photoReference.Some? <==> p.FirstPhoto().Some?
    ensures p.FirstPhoto().Some? ==>
              f.photoReference == Some(p.FirstPhoto().value.reference)
              && f.photoHeight == p.FirstPhoto().value.height
              && f.photoWidth == p.FirstPhoto().value.width
    ensures WellFormed(f)
  {
    var photo := p.FirstPhoto();
    FavoritePlace(
      p.id, p.name, p.Coordinate().latitude, p.Coordinate().longitude,
      p.priceLevel.GetOr(0),
      p.rating.GetOr(0.0),
      if p.openingHours.Some? then p.openingHours.value.openNow.GetOr(false) else false,
      if photo.Some? then Some(photo.value.reference) else None,
      if photo.Some? then photo.value.height else 0,
      if photo.Some? then photo.value.width else 0)
  }

  /** `toPlace()`: every optional of the result is present except, possibly, the photos. */
  function ToPlace(f: FavoritePlace): (p: Place)
    ensures p.id == f.id && p.name == f.name
    ensures p.Coordinate() == Coordinate2D(f.latitude, f.longitude)
    ensures p.priceLevel == Some(f.priceLevel) && p.rating == Some(f.rating)
    ensures p.openingHours == Some(OpeningHours(Some(f.isOpen)))
    ensures p.photos.None? <==> f.photoReference.None?
    ensures p.photos.Some? ==> |p.photos.value| == 1
    ensures p.distance.None?
  {
    Place(
      f.id, f.name, Geometry(Location(f.latitude, f.longitude)),
      Some(f.priceLevel), Some(f.rating), Some(OpeningHours(Some(f.isOpen))),
      match f.photoReference
      case Some(ref) => Some([Photo(ref, f.photoHeight, f.photoWidth)])
      case None => None,
      None)
  }

  /** A favourite survives the trip through `Place` exactly when it is well formed. */
  lemma FavoriteRoundTrip(f: FavoritePlace)
    ensures FromPlace(ToPlace(f)) == f <==> WellFormed(f)
  {
    var p := ToPlace(f);
    if f.photoReference.Some? {
      assert p.FirstPhoto() == Some(Photo(f.photoReference.value, f.photoHeight, f.photoWidth));
    }
  }

  /** Converting a place to a favourite and back is idempotent after the first conversion. */
  lemma FromPlaceIdempotent(p: Place)
    ensures FromPlace(ToPlace(FromPlace(p))) == FromPlace(p)
  {
    FavoriteRoundTrip(FromPlace(p));
  }

  /**
   * A place brought back from the favourites is `==` to the original (same id), with the
   * same name, coordinate and first photo; its absent optionals now hold their defaults.
   */
  lemma PlaceRoundTrip(p: Place)
    ensures SamePlace(ToPlace(FromPlace(p)), p)
    ensures ToPlace(FromPlace(p)).name == p.name
    ensures ToPlace(FromPlace(p)).Coordinate() == p.Coordinate()
    ensures ToPlace(FromPlace(p)).FirstPhoto() == p.FirstPhoto()
    ensures ToPlace(FromPlace(p)).priceLevel == Some(p.priceLevel.GetOr(0))
  {
    var q := ToPlace(FromPlace(p));
    if p.FirstPhoto().Some? {
      assert q.photos.value[0] == p.FirstPhoto().value;
    }
  }
}

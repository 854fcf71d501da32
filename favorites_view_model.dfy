/**
 * The favourites store (ViewModels/FavoritesViewModel.swift) over a SwiftData
 * `ModelContext`.
 *
 * The context is reduced to what the view model observes of it: the favourites a fetch
 * returns, and whether fetching or saving currently fails (the storage's health is an
 * input, set by the environment). The unique `id` attribute makes an insertion of a
 * favourite whose id is already stored replace the stored one.
 */
module FavoritesStore {
  import opened Wrappers
  import opened Seqs
  import opened Places
  import opened FavoriteModel

  /** No two favourites in the list share an id. */
  predicate UniqueFavoriteIds(fs: seq<FavoritePlace>) {
    forall i, j :: 0 <= i < j < |fs| ==> fs[i].id != fs[j].id
  }

  /** Some favourite in the list has the id. */
  predicate HasFavoriteId(fs: seq<FavoritePlace>, id: string) {
    exists i :: 0 <= i < |fs| && fs[i].id == id
  }

  /** Whether a non-empty list has the id: at its head or in its tail. */
  lemma HasFavoriteIdCons(fs: seq<FavoritePlace>, id: string)
    requires fs != []
    ensures HasFavoriteId(fs, id) <==> fs[0].id == id || HasFavoriteId(fs[1..], id)
  {
    if HasFavoriteId(fs[1..], id) {
      var k :| 0 <= k < |fs[1..]| && fs[1..][k].id == id;
      assert fs[k + 1].id == id;
    }
    if HasFavoriteId(fs, id) && fs[0].id != id {
      var k :| 0 <= k < |fs| && fs[k].id == id;
      assert fs[1..][k - 1].id == id;
    }
  }

  /** Inserting `f` under the unique `id` attribute: a stored favourite with that id is replaced. */
  function Upsert(fs: seq<FavoritePlace>, f: FavoritePlace): (r: seq<FavoritePlace>)
    ensures f in r
    ensures forall i :: 0 <= i < |r| ==> r[i] == f || r[i] in fs
    ensures forall i :: 0 <= i < |fs| && fs[i].id != f.id ==> fs[i] in r
    ensures !HasFavoriteId(fs, f.id) ==> r == fs + [f]
  {
    if fs == [] then [f]
    else if fs[0].id == f.id then [f] + fs[1..]
    else
      HasFavoriteIdCons(fs, f.id);
      assert fs == [fs[0]] + fs[1..];
      [fs[0]] + Upsert(fs[1..], f)
  }

  /** The store's ids stay unique across an insertion. */
  lemma {:induction false} UpsertKeepsIdsUnique(fs: seq<FavoritePlace>, f: FavoritePlace)
    requires UniqueFavoriteIds(fs)
    ensures UniqueFavoriteIds(Upsert(fs, f))
  {
    if fs != [] && fs[0].id != f.id {
      UpsertKeepsIdsUnique(fs[1..], f);
      var rest := Upsert(fs[1..], f);
      forall i | 0 <= i < |rest|
        ensures rest[i].id != fs[0].id
      {
        if rest[i] != f {
          var k :| 0 <= k < |fs[1..]| && fs[1..][k] == rest[i];
        }
      }
    }
  }

  /** Deleting every stored favourite with the id. */
  function Without(fs: seq<FavoritePlace>, id: string): (r: seq<FavoritePlace>)
    ensures forall i :: 0 <= i < |r| ==> r[i].id != id && r[i] in fs
    ensures forall i :: 0 <= i < |fs| && fs[i].id != id ==> fs[i] in r
    ensures !HasFavoriteId(fs, id) ==> r == fs
  {
    if fs == [] then []
    else
      HasFavoriteIdCons(fs, id);
      assert fs == [fs[0]] + fs[1..];
      if fs[0].id == id then Without(fs[1..], id) else [fs[0]] + Without(fs[1..], id)
  }

  /** The store's ids stay unique across a deletion. */
  lemma {:induction false} WithoutKeepsIdsUnique(fs: seq<FavoritePlace>, id: string)
    requires UniqueFavoriteIds(fs)
    ensures UniqueFavoriteIds(Without(fs, id))
  {
    if fs != [] {
      WithoutKeepsIdsUnique(fs[1..], id);
      var rest := Without(fs[1..], id);
      forall i | 0 <= i < |rest|
        ensures rest[i].id != fs[0].id
      {
        var k :| 0 <= k < |fs[1..]| && fs[1..][k] == rest[i];
      }
    }
  }

  /** The favourites a `FetchDescriptor` with the predicate `id == placeId` returns. */
  function WithId(fs: seq<FavoritePlace>, id: string): (r: seq<FavoritePlace>)
    ensures forall i :: 0 <= i < |r| ==> r[i].id == id && r[i] in fs
    ensures |r| > 0 <==> HasFavoriteId(fs, id)
  {
    if fs == [] then []
    else
      HasFavoriteIdCons(fs, id);
      if fs[0].id == id then [fs[0]] + WithId(fs[1..], id) else WithId(fs[1..], id)
  }

  /** `favoritePlaces.map { $0.toPlace() }`. */
  function ToPlaces(fs: seq<FavoritePlace>): (ps: seq<Place>)
    ensures |ps| == |fs|
    ensures forall i :: 0 <= i < |fs| ==> ps[i] == ToPlace(fs[i])
  {
    seq(|fs|, i requires 0 <= i < |fs| => ToPlace(fs[i]))
  }

  /** A place is in the loaded favourites exactly when the converted list holds a place `==` to it. */
  lemma FavoritedIffListed(fs: seq<FavoritePlace>, p: Place)
    ensures HasFavoriteId(fs, p.id) <==> exists i :: 0 <= i < |ToPlaces(fs)| && SamePlace(ToPlaces(fs)[i], p)
  {
    var ps := ToPlaces(fs);
    if HasFavoriteId(fs, p.id) {
      var k :| 0 <= k < |fs| && fs[k].id == p.id;
      assert SamePlace(ps[k], p);
    }
  }

  /** `(try? modelContext.fetch(descriptor)) ?? []`. */
  function Loaded(fetchFails: bool, stored: seq<FavoritePlace>): (r: seq<FavoritePlace>)
    ensures fetchFails ==> r == []
    ensures !fetchFails ==> r == stored
  {
    if fetchFails then [] else stored
  }

  /** The part of SwiftData's `ModelContext` the favourites store relies on. */
  class ModelContext {
    var stored: seq<FavoritePlace>
    var fetchFails: bool
    var saveFails: bool

    ghost predicate Valid()
      reads this
    {
      UniqueFavoriteIds(stored)
    }

    constructor (stored: seq<FavoritePlace>, fetchFails: bool, saveFails: bool)
      requires UniqueFavoriteIds(stored)
      ensures this.stored == stored && this.fetchFails == fetchFails && this.saveFails == saveFails
      ensures Valid()
    {
      this.stored, this.fetchFails, this.saveFails := stored, fetchFails, saveFails;
    }

    /** `fetch(descriptor)` with a predicate on the id; None when the fetch throws. */
    method FetchWithId(id: string) returns (r: Option<seq<FavoritePlace>>)
      ensures fetchFails <==> r.None?
      ensures r.Some? ==> r.value == WithId(stored, id)
    {
      if fetchFails {
        r := None;
      } else {
        r := Some(WithId(stored, id));
      }
    }

    /** `fetch(FetchDescriptor<FavoritePlace>())`; None when the fetch throws. */
    method FetchAll() returns (r: Option<seq<FavoritePlace>>)
      ensures fetchFails <==> r.None?
      ensures r.Some? ==> r.value == stored
    {
      if fetchFails {
        r := None;
      } else {
        r := Some(stored);
      }
    }

    /** `insert(_:)`. */
    method Insert(f: FavoritePlace)
      requires Valid()
      modifies this
      ensures Valid()
      ensures stored == Upsert(old(stored), f)
      ensures fetchFails == old(fetchFails) && saveFails == old(saveFails)
    {
      UpsertKeepsIdsUnique(stored, f);
      stored := Upsert(stored, f);
    }

    /** `delete(_:)`. */
    method Delete(f: FavoritePlace)
      requires Valid()
      modifies this
      ensures Valid()
      ensures stored == Without(old(stored), f.id)
      ensures fetchFails == old(fetchFails) && saveFails == old(saveFails)
    {
      WithoutKeepsIdsUnique(stored, f.id);
      stored := Without(stored, f.id);
    }

    /** `save()`: false when it throws; pending changes stay in the context either way. */
    method Save() returns (ok: bool)
      ensures ok <==> !saveFails
    {
      ok := !saveFails;
    }
  }

  /** `FavoritesViewModel`. */
  class FavoritesViewModel {
    var context: ModelContext
    var favoritePlaces: seq<FavoritePlace>

    /** The loaded list never holds two favourites with one id, and the store keeps ids unique. */
    ghost predicate Valid()
      reads this, context
    {
      context.Valid() && UniqueFavoriteIds(favoritePlaces)
    }

    /** `init(modelContext:)`: loads at once. */
    constructor (context: ModelContext)
      requires context.Valid()
      ensures this.context == context
      ensures favoritePlaces == Loaded(context.fetchFails, context.stored)
      ensures Valid()
    {
      this.context := context;
      var fetched := context.FetchAll();
      favoritePlaces := fetched.GetOr([]);
    }

    /** The computed `favorites` property. */
    function Favorites(): (r: seq<Place>)
      reads this
      ensures |r| == |favoritePlaces|
      ensures forall i :: 0 <= i < |r| ==> r[i] == ToPlace(favoritePlaces[i])
    {
      ToPlaces(favoritePlaces)
    }

    /** `isFavorited(_:)`: consults the loaded list only. */
    function IsFavorited(p: Place): (b: bool)
      reads this
      ensures b <==> HasFavoriteId(favoritePlaces, p.id)
    {
      FirstIndex(favoritePlaces, (f: FavoritePlace) => f.id == p.id).Some?
    }

    /** `loadFavorites()`. */
    method LoadFavorites()
      requires Valid()
      modifies this
      ensures context == old(context)
      ensures favoritePlaces == Loaded(context.fetchFails, context.stored)
      ensures Valid()
    {
      var fetched := context.FetchAll();
      favoritePlaces := fetched.GetOr([]);
    }

    /** `updateModelContext(_:)`: switches the store and reloads from it. */
    method UpdateModelContext(newContext: ModelContext)
      requires Valid() && newContext.Valid()
      modifies this
      ensures context == newContext
      ensures favoritePlaces == Loaded(newContext.fetchFails, newContext.stored)
      ensures Valid()
    {
      context := newContext;
      LoadFavorites();
    }

    /**
     * `addToFavorites(_:)`: inserts, attempts a save whose failure is ignored, and reloads.
     * When the reload succeeds the place is reported as a favourite.
     */
    method AddToFavorites(p: Place)
      requires Valid()
      modifies this, context
      ensures context == old(context)
      ensures context.stored == Upsert(old(context.stored), FromPlace(p))
      ensures context.fetchFails == old(context.fetchFails) && context.saveFails == old(context.saveFails)
      ensures favoritePlaces == Loaded(context.fetchFails, context.stored)
      ensures !context.fetchFails ==> IsFavorited(p)
      ensures Valid()
    {
      var favorite := FromPlace(p);
      context.Insert(favorite);
      var _ := context.Save();
      LoadFavorites();
    }

    /**
     * `removeFromFavorites(_:)`: when the lookup by id fails nothing changes; when it finds
     * a favourite, that favourite is deleted, and the list is reloaded only if the save
     * succeeds. When it is reloaded, the place is no longer reported as a favourite.
     */
    method RemoveFromFavorites(p: Place)
      requires Valid()
      modifies this, context
      ensures context == old(context)
      ensures context.fetchFails == old(context.fetchFails) && context.saveFails == old(context.saveFails)
      ensures context.fetchFails || !HasFavoriteId(old(context.stored), p.id) ==>
                context.stored == old(context.stored) && favoritePlaces == old(favoritePlaces)
      ensures !context.fetchFails ==> context.stored == Without(old(context.stored), p.id)
      ensures !context.fetchFails && HasFavoriteId(old(context.stored), p.id) ==>
                favoritePlaces == if context.saveFails then old(favoritePlaces) else context.stored
      ensures !context.fetchFails && !context.saveFails && HasFavoriteId(old(context.stored), p.id) ==> !IsFavorited(p)
      ensures Valid()
    {
      var found := context.FetchWithId(p.id);
      if found.Some? && |found.value| > 0 {
        context.Delete(found.value[0]);
        var ok := context.Save();
        if ok {
          LoadFavorites();
        }
      }
    }
  }
}

/**
 * `PlaceFetcher.fetchNearbyRestaurants` (Classes/PlaceFetcher.swift): guards, rejection of
 * failed or erroneous responses, then filter, de-duplicate and append to `places`.
 * The HTTP exchange is an input: the model does not build URLs or talk to the network.
 */
module Fetching {
  import opened Wrappers
  import opened Seqs
  import opened Places

  /** What came back for the nearby-search request, seen from the fetcher. */
  datatype Exchange =
    | UrlRejected        // `URL(string:)` gave nil: no request is sent
    | TransportFailed    // `URLSession.data(for:)` threw
    | Answered(
        status: Option<int>,                 // None: the response was not an HTTP response
        body: Option<string>,                // None: the data is not UTF-8
        decoded: Option<seq<PlaceJson>>)     // None: `JSONDecoder` threw

  /** Which path `fetchNearbyRestaurants` took. */
  datatype FetchOutcome =
    | NoPriceLevel
    | NoUserLocation
    | NoUrl
    | TransportError
    | BadStatus(code: int)
    | NotUtf8
    | ProviderError
    | DecodeError
    | Decoded(results: seq<Place>)

  /** A request went out on this path (the guards before the request all passed). */
  predicate RequestIssued(o: FetchOutcome) {
    !(o.NoPriceLevel? || o.NoUserLocation? || o.NoUrl?)
  }

  /** The parameters a nearby-search request carries in its URL. */
  datatype Request = Request(priceLevel: int, placeType: string, location: Coordinate2D, radius: int)

  /** `rawResponse.contains(sub)`. */
  predicate Contains(s: string, sub: string)
    decreases |s|
  {
    sub <= s || (|s| > 0 && Contains(s[1..], sub))
  }

  /** `sub` occurs in `s` starting at position `i`. */
  predicate OccursAt(s: string, sub: string, i: int) {
    0 <= i && i + |sub| <= |s| && s[i..i + |sub|] == sub
  }

  /** `Contains` finds exactly the substrings: `sub` occurs somewhere in `s`. */
  lemma {:induction false} ContainsIff(s: string, sub: string)
    ensures Contains(s, sub) <==> exists i :: OccursAt(s, sub, i)
    decreases |s|
  {
    if sub <= s {
      assert OccursAt(s, sub, 0);
    } else if |s| == 0 {
      assert forall i :: !OccursAt(s, sub, i);
    } else {
      ContainsIff(s[1..], sub);
      forall j | OccursAt(s[1..], sub, j)
        ensures OccursAt(s, sub, j + 1)
      {
        assert s[j + 1..j + 1 + |sub|] == s[1..][j..j + |sub|];
      }
      forall i | OccursAt(s, sub, i)
        ensures OccursAt(s[1..], sub, i - 1)
      {
        assert i != 0;
        assert s[i..i + |sub|] == s[1..][i - 1..i - 1 + |sub|];
      }
    }
  }

  /**
   * The provider's soft-failure check on a 200 response body: any of
   * `REQUEST_DENIED`, `OVER_QUERY_LIMIT`, `INVALID_REQUEST` anywhere in the text.
   */
  predicate HasProviderError(body: string)
    ensures HasProviderError(body) <==>
              (exists i :: OccursAt(body, "REQUEST_DENIED", i))
              || (exists i :: OccursAt(body, "OVER_QUERY_LIMIT", i))
              || (exists i :: OccursAt(body, "INVALID_REQUEST", i))
  {
    ContainsIff(body, "REQUEST_DENIED");
    ContainsIff(body, "OVER_QUERY_LIMIT");
    ContainsIff(body, "INVALID_REQUEST");
    Contains(body, "REQUEST_DENIED") || Contains(body, "OVER_QUERY_LIMIT") || Contains(body, "INVALID_REQUEST")
  }

  /**
   * The guards and rejections of `fetchNearbyRestaurants`, in the order the code tests them:
   * the two criteria first, then the URL, the transport, the status, the encoding, the
   * provider's error strings and the decoder.
   */
  function Classify(priceLevel: Option<int>, userLocation: Option<Coordinate2D>, exchange: Exchange): (o: FetchOutcome)
    ensures o.NoPriceLevel? <==> priceLevel.None?
    ensures o.NoUserLocation? <==> priceLevel.Some? && userLocation.None?
    ensures RequestIssued(o) <==> priceLevel.Some? && userLocation.Some? && !exchange.UrlRejected?
    ensures o.BadStatus? ==> exchange.Answered? && exchange.status == Some(o.code) && o.code != 200
    ensures o.Decoded? <==>
              priceLevel.Some? && userLocation.Some? && exchange.Answered?
              && (exchange.status.None? || exchange.status.value == 200)
              && exchange.body.Some? && !HasProviderError(exchange.body.value) && exchange.decoded.Some?
    ensures o.Decoded? ==> o.results == DecodeAll(exchange.decoded.value)
  {
    if priceLevel.None? then NoPriceLevel
    else if userLocation.None? then NoUserLocation
    else
      match exchange
      case UrlRejected => NoUrl
      case TransportFailed => TransportError
      case Answered(status, body, decoded) =>
        if status.Some? && status.value != 200 then BadStatus(status.value)
        else if body.None? then NotUtf8
        else if HasProviderError(body.value) then ProviderError
        else if decoded.None? then DecodeError
        else Decoded(DecodeAll(decoded.value))
  }

  /**
   * The requests one call sends: one, carrying the criteria and the radius, exactly when
   * both criteria are present and the URL can be built; none otherwise.
   */
  function Sent(priceLevel: Option<int>, placeType: string, userLocation: Option<Coordinate2D>,
                radius: int, exchange: Exchange): (r: seq<Request>)
    ensures r != [] <==> RequestIssued(Classify(priceLevel, userLocation, exchange))
    ensures r != [] ==> r == [Request(priceLevel.value, placeType, userLocation.value, radius)]
  {
    if RequestIssued(Classify(priceLevel, userLocation, exchange))
    then [Request(priceLevel.value, placeType, userLocation.value, radius)]
    else []
  }

  /** The price filter: `$0.price_level != nil && $0.price_level == priceLevel`. */
  function AtLevel(level: int): Place -> bool {
    (p: Place) => p.priceLevel != None && p.priceLevel == Some(level)
  }

  /** The de-duplication filter: `!existingIds.contains($0.id)`. */
  function Unseen(existingIds: set<string>): Place -> bool {
    (p: Place) => p.id !in existingIds
  }

  /** The delta a successful fetch appends to `existing`. */
  function NewPlaces(existing: seq<Place>, level: int, results: seq<Place>): (r: seq<Place>)
    ensures |r| <= |results|
    ensures forall i :: 0 <= i < |r| ==> r[i] in results
    ensures forall i :: 0 <= i < |r| ==> r[i].priceLevel == Some(level)
    ensures forall i :: 0 <= i < |r| ==> r[i].id !in Ids(existing)
    ensures forall i ::
              0 <= i < |results| && results[i].priceLevel == Some(level) && results[i].id !in Ids(existing)
              ==> results[i] in r
  {
    Filter(Filter(results, AtLevel(level)), Unseen(Ids(existing)))
  }

  /** The delta keeps response order: it is computed element by element, left to right. */
  lemma NewPlacesInResponseOrder(existing: seq<Place>, level: int, a: seq<Place>, b: seq<Place>)
    ensures NewPlaces(existing, level, a + b) == NewPlaces(existing, level, a) + NewPlaces(existing, level, b)
    ensures NewPlaces(existing, level, []) == []
  {
    FilterDistributes(a, b, AtLevel(level));
    FilterDistributes(Filter(a, AtLevel(level)), Filter(b, AtLevel(level)), Unseen(Ids(existing)));
  }

  /** A filtered list keeps the ids it had apart. */
  lemma {:induction false} FilterKeepsIdsUnique(s: seq<Place>, keep: Place -> bool)
    requires UniqueIds(s)
    ensures UniqueIds(Filter(s, keep))
  {
    if s != [] {
      FilterKeepsIdsUnique(s[1..], keep);
      var rest := Filter(s[1..], keep);
      forall i | 0 <= i < |rest|
        ensures rest[i].id != s[0].id
      {
        var k :| 0 <= k < |s[1..]| && s[1..][k] == rest[i];
      }
    }
  }

  /**
   * When the accumulated list and the response each have distinct ids, so does the
   * accumulated list after the append.
   */
  lemma NewPlacesKeepIdsUnique(existing: seq<Place>, level: int, results: seq<Place>)
    requires UniqueIds(existing) && UniqueIds(results)
    ensures UniqueIds(existing + NewPlaces(existing, level, results))
  {
    FilterKeepsIdsUnique(results, AtLevel(level));
    FilterKeepsIdsUnique(Filter(results, AtLevel(level)), Unseen(Ids(existing)));
    var all := existing + NewPlaces(existing, level, results);
    forall i, j | 0 <= i < j < |all|
      ensures all[i].id != all[j].id
    {
      if j >= |existing| && i < |existing| {
        assert all[j] == NewPlaces(existing, level, results)[j - |existing|];
        assert all[i].id in Ids(existing);
      }
    }
  }

  /**
   * Duplicates inside one response are not removed: the same id twice at the
   * requested level is appended twice.
   */
  lemma DuplicatesWithinResponseKept(p: Place, level: int)
    requires p.priceLevel == Some(level)
    ensures NewPlaces([], level, [p, p]) == [p, p]
    ensures !UniqueIds([] + NewPlaces([], level, [p, p]))
  {
    assert [p, p][1..] == [p];
    assert Filter([p, p], AtLevel(level)) == [p, p];
    assert Filter([p], Unseen(Ids([]))) == [p];
    assert Filter([p, p], Unseen(Ids([]))) == [p, p];
    assert [] + [p, p] == [p, p];
    assert [p, p][0].id == [p, p][1].id;
  }

  /** The list of places after one call, as a function of the list before it. */
  function AfterFetch(places: seq<Place>, priceLevel: Option<int>, userLocation: Option<Coordinate2D>, exchange: Exchange): (r: seq<Place>)
    ensures places <= r
    ensures forall i :: |places| <= i < |r| ==> priceLevel.Some? && r[i].priceLevel == priceLevel
    ensures forall i :: |places| <= i < |r| ==> r[i].id !in Ids(places)
    ensures !Classify(priceLevel, userLocation, exchange).Decoded? ==> r == places
  {
    match Classify(priceLevel, userLocation, exchange)
    case Decoded(results) => places + NewPlaces(places, priceLevel.value, results)
    case _ => places
  }

  /** Without a price level or a user location no request is made and nothing changes. */
  lemma DeclinesWithoutCriteria(places: seq<Place>, priceLevel: Option<int>, userLocation: Option<Coordinate2D>, exchange: Exchange)
    requires priceLevel.None? || userLocation.None?
    ensures !RequestIssued(Classify(priceLevel, userLocation, exchange))
    ensures AfterFetch(places, priceLevel, userLocation, exchange) == places
  {
  }

  /** Every rejected response (status, encoding, sentinel, decode, transport) leaves the list as it was. */
  lemma RejectedResponsesChangeNothing(places: seq<Place>, level: int, user: Coordinate2D,
                                       status: Option<int>, body: Option<string>, decoded: Option<seq<PlaceJson>>)
    requires (status.Some? && status.value != 200) || body.None? || (body.Some? && HasProviderError(body.value)) || decoded.None?
    ensures !Classify(Some(level), Some(user), Answered(status, body, decoded)).Decoded?
    ensures AfterFetch(places, Some(level), Some(user), Answered(status, body, decoded)) == places
    ensures AfterFetch(places, Some(level), Some(user), TransportFailed) == places
  {
  }

  /** A successful fetch appends exactly the new, matching results, in response order. */
  lemma SuccessfulFetchAppends(places: seq<Place>, level: int, user: Coordinate2D,
                               status: Option<int>, body: string, decoded: seq<PlaceJson>)
    requires status.None? || status.value == 200
    requires !HasProviderError(body)
    ensures AfterFetch(places, Some(level), Some(user), Answered(status, Some(body), Some(decoded)))
            == places + NewPlaces(places, level, DecodeAll(decoded))
  {
  }

  /** On one result the delta is that result when it is at the level and new, and empty otherwise. */
  lemma NewPlacesSingleton(existing: seq<Place>, level: int, p: Place)
    ensures NewPlaces(existing, level, [p])
            == if p.priceLevel == Some(level) && p.id !in Ids(existing) then [p] else []
  {
    assert [p][1..] == [];
    var atLevel := Filter([p], AtLevel(level));
    assert atLevel == if p.priceLevel == Some(level) then [p] else [];
    if atLevel == [p] {
      assert Filter(atLevel, Unseen(Ids(existing))) == if p.id !in Ids(existing) then [p] else [];
    }
  }

  /** Three results priced 2, 2 and 3 against a request for level 2: the first two survive. */
  lemma ScenarioPriceFilter(a: Place, b: Place, c: Place)
    requires a.priceLevel == Some(2) && b.priceLevel == Some(2) && c.priceLevel == Some(3)
    ensures NewPlaces([], 2, [a, b, c]) == [a, b]
  {
    assert [a, b, c] == [a] + ([b] + [c]);
    NewPlacesInResponseOrder([], 2, [a], [b] + [c]);
    NewPlacesInResponseOrder([], 2, [b], [c]);
    NewPlacesSingleton([], 2, a);
    NewPlacesSingleton([], 2, b);
    NewPlacesSingleton([], 2, c);
  }

  /**
   * A later fetch whose response repeats one accumulated id and brings one new id
   * grows the accumulated list by exactly one.
   */
  lemma ScenarioDuplicateAndNew(existing: seq<Place>, level: int, dup: Place, other: Place)
    requires dup.priceLevel == Some(level) && other.priceLevel == Some(level)
    requires dup.id in Ids(existing) && other.id !in Ids(existing)
    ensures existing + NewPlaces(existing, level, [dup, other]) == existing + [other]
  {
    assert [dup, other] == [dup] + [other];
    NewPlacesInResponseOrder(existing, level, [dup], [other]);
    NewPlacesSingleton(existing, level, dup);
    NewPlacesSingleton(existing, level, other);
  }

  /** A 200 response whose body reports `OVER_QUERY_LIMIT` is a failure and changes nothing. */
  lemma ScenarioOverQueryLimit(places: seq<Place>, level: int, user: Coordinate2D, decoded: Option<seq<PlaceJson>>)
    ensures var body := "\"status\": \"OVER_QUERY_LIMIT\"";
            Classify(Some(level), Some(user), Answered(Some(200), Some(body), decoded)) == ProviderError
            && AfterFetch(places, Some(level), Some(user), Answered(Some(200), Some(body), decoded)) == places
  {
    var body := "\"status\": \"OVER_QUERY_LIMIT\"";
    assert OccursAt(body, "OVER_QUERY_LIMIT", 11);
    ContainsIff(body, "OVER_QUERY_LIMIT");
  }

  /**
   * `PlaceFetcher`: the accumulated list of results, and the record of the requests sent
   * to the provider so far (the traffic the fetcher causes, made observable).
   */
  class PlaceFetcher {
    var places: seq<Place>
    var requests: seq<Request>

    constructor ()
      ensures places == [] && requests == []
    {
      places := [];
      requests := [];
    }

    /**
     * `fetchNearbyRestaurants(priceLevel:placeType:userLocation:setRadius:)`. The place
     * type and the radius go into the request; the URL text itself is not modelled.
     */
    method FetchNearbyRestaurants(priceLevel: Option<int>, placeType: string, userLocation: Option<Coordinate2D>,
                                  setRadius: int, exchange: Exchange)
      returns (outcome: FetchOutcome)
      modifies this
      ensures outcome == Classify(priceLevel, userLocation, exchange)
      ensures places == AfterFetch(old(places), priceLevel, userLocation, exchange)
      ensures requests == old(requests) + Sent(priceLevel, placeType, userLocation, setRadius, exchange)
    {
      if priceLevel.None? {
        return NoPriceLevel;
      }
      var level := priceLevel.value;
      if userLocation.None? {
        return NoUserLocation;
      }
      if exchange.UrlRejected? {
        return NoUrl;
      }
      requests := requests + [Request(level, placeType, userLocation.value, setRadius)];
      match exchange {
        case TransportFailed =>
          return TransportError;
        case Answered(status, body, decoded) =>
          if status.Some? && status.value != 200 {
            return BadStatus(status.value);
          }
          if body.None? {
            return NotUtf8;
          }
          if HasProviderError(body.value) {
            return ProviderError;
          }
          if decoded.None? {
            return DecodeError;
          }
          var results := DecodeAll(decoded.value);
          var newPlaces := Filter(results, AtLevel(level));
          var existingIds := Ids(places);
          var uniqueNewPlaces := Filter(newPlaces, Unseen(existingIds));
          places := places + uniqueNewPlaces;
          return Decoded(results);
      }
    }
  }
}

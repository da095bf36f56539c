/**
 * The server's place geocoder (`getCoordinates` in backend/src/server.js):
 * an exact lookup of the normalised place name in the city table, then the
 * first entry whose name and the place contain one another, then (0, 0).
 */
module Geocode {
  import opened Wrappers
  import opened Text

  datatype Coords = Coords(lat: real, lng: real)

  /** One entry of the parsed cities.json object, in its enumeration order. */
  datatype CityEntry = CityEntry(name: string, coords: Coords)

  /** The keys of a JSON object are distinct. */
  predicate DistinctNames(cities: seq<CityEntry>) {
    forall i, j :: 0 <= i < j < |cities| ==> cities[i].name != cities[j].name
  }

  /** `place.toLowerCase().trim()`. */
  function Normalize(place: string): string {
    Trim(Lower(place))
  }

  /** `cities[key]`: the entry stored under `key`, if any. */
  function Lookup(cities: seq<CityEntry>, key: string): (r: Option<Coords>)
    ensures r.None? <==> forall i :: 0 <= i < |cities| ==> cities[i].name != key
    ensures r.Some? ==> exists i :: 0 <= i < |cities| && cities[i].name == key && cities[i].coords == r.value
  {
    if cities == [] then None
    else if cities[0].name == key then Some(cities[0].coords)
    else
      var rest := Lookup(cities[1..], key);
      assert forall i :: 1 <= i < |cities| ==> cities[i] == cities[1..][i - 1];
      rest
  }

  /** The partial-match test of the loop: either string contains the other. */
  predicate PartialMatch(place: string, city: string) {
    Contains(place, city) || Contains(city, place)
  }

  /** The position of the first entry that partially matches, or `|cities|`. */
  function FirstPartial(cities: seq<CityEntry>, place: string): (k: nat)
    ensures k <= |cities|
    ensures forall j :: 0 <= j < k ==> !PartialMatch(place, cities[j].name)
    ensures k < |cities| ==> PartialMatch(place, cities[k].name)
  {
    if cities == [] then 0
    else if PartialMatch(place, cities[0].name) then 0
    else 1 + FirstPartial(cities[1..], place)
  }

  /**
   * What `getCoordinates` returns for `place`: the coordinates of some city
   * of the table, or (0, 0) when the place neither names nor partially
   * matches any city.
   */
  function Coordinates(cities: seq<CityEntry>, place: string): (c: Coords)
    ensures (exists i :: 0 <= i < |cities| && c == cities[i].coords) || c == Coords(0.0, 0.0)
    ensures (forall i :: 0 <= i < |cities| ==>
               cities[i].name != Normalize(place) && !PartialMatch(Normalize(place), cities[i].name))
      ==> c == Coords(0.0, 0.0)
  {
    var key := Normalize(place);
    match Lookup(cities, key)
    case Some(c) => c
    case None =>
      var k := FirstPartial(cities, key);
      if k < |cities| then cities[k].coords else Coords(0.0, 0.0)
  }

  /** `getCoordinates`: the lookup, then the `for ... of Object.entries(cities)` loop with its early return. */
  method GetCoordinates(cities: seq<CityEntry>, place: string) returns (c: Coords)
    ensures c == Coordinates(cities, place)
  {
    var normalizedPlace := Normalize(place);
    var exact := Lookup(cities, normalizedPlace);
    if exact.Some? {
      return exact.value;
    }
    var i := 0;
    while i < |cities|
      invariant 0 <= i <= |cities|
      invariant forall j :: 0 <= j < i ==> !PartialMatch(normalizedPlace, cities[j].name)
    {
      if Contains(normalizedPlace, cities[i].name) || Contains(cities[i].name, normalizedPlace) {
        FirstPartialUnique(cities, normalizedPlace, i);
        return cities[i].coords;
      }
      i := i + 1;
    }
    return Coords(0.0, 0.0);
  }

  lemma FirstPartialUnique(cities: seq<CityEntry>, place: string, k: nat)
    requires k < |cities| && PartialMatch(place, cities[k].name)
    requires forall j :: 0 <= j < k ==> !PartialMatch(place, cities[j].name)
    ensures FirstPartial(cities, place) == k
  {
  }

  /** A place whose normalised form is a key gets that city's coordinates. */
  lemma CoordinatesExact(cities: seq<CityEntry>, place: string, i: nat)
    requires DistinctNames(cities)
    requires i < |cities| && cities[i].name == Normalize(place)
    ensures Coordinates(cities, place) == cities[i].coords
  {
  }

  /**
   * Off the table, the first entry that partially matches wins; when none
   * does the answer is (0, 0).
   */
  lemma CoordinatesPartial(cities: seq<CityEntry>, place: string)
    requires forall i :: 0 <= i < |cities| ==> cities[i].name != Normalize(place)
    ensures forall j ::
      0 <= j < |cities| && PartialMatch(Normalize(place), cities[j].name) &&
      (forall i :: 0 <= i < j ==> !PartialMatch(Normalize(place), cities[i].name))
      ==> Coordinates(cities, place) == cities[j].coords
    ensures (forall j :: 0 <= j < |cities| ==> !PartialMatch(Normalize(place), cities[j].name))
      ==> Coordinates(cities, place) == Coords(0.0, 0.0)
  {
    forall j | 0 <= j < |cities| && PartialMatch(Normalize(place), cities[j].name) &&
      (forall i :: 0 <= i < j ==> !PartialMatch(Normalize(place), cities[i].name))
      ensures Coordinates(cities, place) == cities[j].coords
    {
      FirstPartialUnique(cities, Normalize(place), j);
    }
  }

  /** The letter case of the place does not matter. */
  lemma CoordinatesIgnoreCase(cities: seq<CityEntry>, place: string)
    ensures Coordinates(cities, Lower(place)) == Coordinates(cities, place)
  {
    LowerIdempotent(place);
  }

  /**
   * A blank place matches every city name (each contains the empty string),
   * so unless "" is itself a key it geocodes to the first city of the table.
   */
  lemma BlankPlaceGetsFirstCity(cities: seq<CityEntry>, place: string)
    requires AllSpace(Lower(place))
    requires |cities| > 0
    requires forall i :: 0 <= i < |cities| ==> cities[i].name != ""
    ensures Coordinates(cities, place) == cities[0].coords
  {
    assert Normalize(place) == [];
    ContainsEmpty(cities[0].name);
  }
}

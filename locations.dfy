/**
 * The queries of `LocationUtils` in backend/src/utils/location_utils.py
 * over the city table loaded from `cities.json`: lookup by lower-cased
 * name, filtering by country, and the hemisphere letters of a formatted
 * coordinate pair. The table is a value the queries only read.
 */
module Locations {
  import opened Wrappers
  import opened Text

  /** One entry of `cities.json`; every entry carries all three fields, so it is truthy. */
  datatype City = City(lat: real, lng: real, country: string)

  /** `self.cities`, keyed by lower-case city name. */
  type CityTable = map<string, City>

  /** `get_coordinates`: the entry under `city_name.lower()`, or `None`. */
  function GetCoordinates(cities: CityTable, name: string): (r: Option<(real, real)>)
    ensures r.Some? <==> Lower(name) in cities
    ensures r.Some? ==> r.value.0 == cities[Lower(name)].lat && r.value.1 == cities[Lower(name)].lng
  {
    var key := Lower(name);
    if key in cities then Some((cities[key].lat, cities[key].lng)) else None
  }

  /** `get_country`: the same key and test as `get_coordinates`, returning the country. */
  function GetCountry(cities: CityTable, name: string): (r: Option<string>)
    ensures r.Some? <==> Lower(name) in cities
    ensures r.Some? ==> r.value == cities[Lower(name)].country
  {
    var key := Lower(name);
    if key in cities then Some(cities[key].country) else None
  }

  /** `get_all_cities`: the stored table itself. */
  function GetAllCities(cities: CityTable): (r: CityTable)
    ensures r == cities
  {
    cities
  }

  /** `get_cities_by_country`: the entries whose country equals `country` exactly, case included. */
  function GetCitiesByCountry(cities: CityTable, country: string): (r: CityTable)
    ensures r.Keys <= cities.Keys
    ensures forall k :: k in r <==> k in cities && cities[k].country == country
    ensures forall k :: k in r ==> r[k] == cities[k]
  {
    map k | k in cities && cities[k].country == country :: cities[k]
  }

  /** A lookup depends only on the lower-cased name. */
  lemma LookupIgnoresCase(cities: CityTable, name: string)
    ensures GetCoordinates(cities, name) == GetCoordinates(cities, Lower(name))
    ensures GetCountry(cities, name) == GetCountry(cities, Lower(name))
  {
    LowerIdempotent(name);
  }

  /** A city has a country exactly when it has coordinates, and both come from the same entry. */
  lemma CountryAgreesWithCoordinates(cities: CityTable, name: string)
    ensures GetCountry(cities, name).Some? <==> GetCoordinates(cities, name).Some?
    ensures GetCountry(cities, name).Some? ==>
      cities[Lower(name)] == City(GetCoordinates(cities, name).value.0, GetCoordinates(cities, name).value.1,
                                  GetCountry(cities, name).value)
  {
  }

  /** Filtering by country partitions the table: each city sits in its own country's filter and in no other. */
  lemma CountriesPartition(cities: CityTable, k: string, country: string)
    requires k in cities
    ensures k in GetCitiesByCountry(cities, cities[k].country)
    ensures country != cities[k].country ==> k !in GetCitiesByCountry(cities, country)
  {
  }

  // ----------------------------------------------------------- formatting

  function Abs(x: real): (r: real)
    ensures r >= 0.0 && (r == x || r == -x)
  {
    if x >= 0.0 then x else -x
  }

  /** The hemisphere letter: `pos` for a non-negative value, `neg` otherwise. */
  function Direction(x: real, pos: char, neg: char): char {
    if x >= 0.0 then pos else neg
  }

  /**
   * `format_coordinates`: `"{abs(lat)}°{N|S}, {abs(lng)}°{E|W}"`, where
   * `show` stands for Python's printing of a float.
   */
  function FormatCoordinates(lat: real, lng: real, show: real -> string): (s: string)
    ensures var latEnd := |show(Abs(lat))| + 1;
      |s| == latEnd + 3 + |show(Abs(lng))| + 2 &&
      s[..latEnd - 1] == show(Abs(lat)) && s[latEnd - 1] == '\U{00B0}' &&
      (s[latEnd] == 'N' <==> lat >= 0.0) && (s[latEnd] == 'S' <==> lat < 0.0) &&
      s[latEnd + 1..latEnd + 3] == ", " && s[latEnd + 3..|s| - 2] == show(Abs(lng)) &&
      s[|s| - 2] == '\U{00B0}' &&
      (s[|s| - 1] == 'E' <==> lng >= 0.0) && (s[|s| - 1] == 'W' <==> lng < 0.0)
  {
    show(Abs(lat)) + "\U{00B0}" + [Direction(lat, 'N', 'S')] + ", " +
    show(Abs(lng)) + "\U{00B0}" + [Direction(lng, 'E', 'W')]
  }

  /** Mirroring the latitude keeps every character except the hemisphere letter; likewise for longitude. */
  lemma FormatMirror(lat: real, lng: real, show: real -> string)
    requires lat != 0.0 && lng != 0.0
    ensures var a := FormatCoordinates(lat, lng, show);
      var b := FormatCoordinates(-lat, lng, show);
      var c := FormatCoordinates(lat, -lng, show);
      var i := |show(Abs(lat))| + 1;
      |a| == |b| == |c| && a[i] != b[i] && a[|a| - 1] != c[|c| - 1] &&
      (forall k :: 0 <= k < |a| && k != i ==> a[k] == b[k]) &&
      (forall k :: 0 <= k < |a| - 1 ==> a[k] == c[k])
  {
    assert Abs(-lat) == Abs(lat) && Abs(-lng) == Abs(lng);
  }
}

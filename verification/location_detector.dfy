/** The location resolver (src/components/LocationDetector.tsx:60-117): the simulated
    reverse geocode, the IP-based fallback and the parse of a manually typed location.
    The random draw of the fallback is the parameter `pick`. */
module LocationDetector {
  import opened Wrappers
  import opened Travel
  import opened JsString
  import opened FlightPricing

  // --- Simulated reverse geocoding ---

  /** One entry of the reference list: a city, its country and its coordinates. */
  datatype ReferenceCity = ReferenceCity(city: string, country: string, lat: real, lng: real)

  const Cities: seq<ReferenceCity> := [
    ReferenceCity("New York", "United States", 40.7128, -74.0060),
    ReferenceCity("London", "United Kingdom", 51.5074, -0.1278),
    ReferenceCity("Tokyo", "Japan", 35.6762, 139.6503),
    ReferenceCity("Sydney", "Australia", -33.8688, 151.2093),
    ReferenceCity("Paris", "France", 48.8566, 2.3522),
    ReferenceCity("Los Angeles", "United States", 34.0522, -118.2437),
    ReferenceCity("Toronto", "Canada", 43.6532, -79.3832),
    ReferenceCity("Berlin", "Germany", 52.5200, 13.4050)
  ]

  function Abs(x: real): real {
    if x < 0.0 then -x else x
  }

  /** Manhattan distance on raw degrees: `|lat - c.lat| + |lng - c.lng|`. */
  function Distance(lat: real, lng: real, c: ReferenceCity): (d: real)
    ensures d >= 0.0
    ensures d == 0.0 <==> lat == c.lat && lng == c.lng
    ensures d >= lat - c.lat && d >= c.lat - lat && d >= lng - c.lng && d >= c.lng - lng
  {
    Abs(lat - c.lat) + Abs(lng - c.lng)
  }

  /** `cities[k]` is at least as close to the point as every entry of the list. */
  predicate IsNearest(cities: seq<ReferenceCity>, lat: real, lng: real, k: nat) {
    && k < |cities|
    && forall j :: 0 <= j < |cities| ==> Distance(lat, lng, cities[k]) <= Distance(lat, lng, cities[j])
  }

  /** `cities[k]` is nearest and strictly closer than every earlier entry: the first
      entry at the minimal distance. */
  predicate IsFirstNearest(cities: seq<ReferenceCity>, lat: real, lng: real, k: nat) {
    && IsNearest(cities, lat, lng, k)
    && forall j :: 0 <= j < k ==> Distance(lat, lng, cities[j]) > Distance(lat, lng, cities[k])
  }

  /** The `forEach` loop from position `i` on, with `best` the closest entry so far;
      an entry replaces it only when strictly closer. */
  function Scan(cities: seq<ReferenceCity>, lat: real, lng: real, i: nat, best: nat): (k: nat)
    requires best < |cities| && best <= i <= |cities|
    requires forall j :: 0 <= j < i ==>
               Distance(lat, lng, cities[best]) <= Distance(lat, lng, cities[j])
    requires forall j :: 0 <= j < best ==>
               Distance(lat, lng, cities[j]) > Distance(lat, lng, cities[best])
    ensures IsFirstNearest(cities, lat, lng, k)
    decreases |cities| - i
  {
    if i == |cities| then best
    else if Distance(lat, lng, cities[i]) < Distance(lat, lng, cities[best]) then
      Scan(cities, lat, lng, i + 1, i)
    else
      Scan(cities, lat, lng, i + 1, best)
  }

  /** The index the source's scan settles on: it starts from the first entry and
      visits every entry, the first one included. */
  function NearestIndex(cities: seq<ReferenceCity>, lat: real, lng: real): (k: nat)
    requires |cities| > 0
    ensures IsFirstNearest(cities, lat, lng, k)
  {
    Scan(cities, lat, lng, 0, 0)
  }

  /** At most one entry is the first nearest, so the contract of `NearestIndex`
      determines its result. */
  lemma FirstNearestUnique(cities: seq<ReferenceCity>, lat: real, lng: real, a: nat, b: nat)
    requires IsFirstNearest(cities, lat, lng, a) && IsFirstNearest(cities, lat, lng, b)
    ensures a == b
  {
    assert Distance(lat, lng, cities[a]) <= Distance(lat, lng, cities[b]);
    assert Distance(lat, lng, cities[b]) <= Distance(lat, lng, cities[a]);
  }

  /** `simulateReverseGeocode(lat, lng)`: the first nearest reference city, carrying the
      input coordinates unchanged. */
  function ReverseGeocode(lat: real, lng: real): (loc: UserLocation)
    ensures loc.coordinates == Some(Coordinates(lat, lng))
    ensures exists k: nat :: IsFirstNearest(Cities, lat, lng, k)
                        && loc.city == Cities[k].city && loc.country == Cities[k].country
  {
    var k := NearestIndex(Cities, lat, lng);
    UserLocation(Cities[k].city, Cities[k].country, Some(Coordinates(lat, lng)))
  }

  /** No two reference cities share coordinates. */
  lemma CitiesApart(a: nat, b: nat)
    requires a < |Cities| && b < |Cities| && a != b
    ensures Cities[a].lat != Cities[b].lat || Cities[a].lng != Cities[b].lng
  {
  }

  /** Every reference city lies in a country with a fare row, or in Japan or France. */
  lemma CityCountries()
    ensures forall k :: 0 <= k < |Cities| ==>
              Cities[k].country in ["United States", "United Kingdom", "Canada", "Australia", "Germany", "Japan", "France"]
  {
  }

  /** A point exactly at a reference city resolves to that city. */
  lemma {:induction false} AtReferenceCity(k: nat)
    requires k < |Cities|
    ensures ReverseGeocode(Cities[k].lat, Cities[k].lng).city == Cities[k].city
    ensures ReverseGeocode(Cities[k].lat, Cities[k].lng).country == Cities[k].country
  {
    var lat, lng := Cities[k].lat, Cities[k].lng;
    var r := NearestIndex(Cities, lat, lng);
    assert Distance(lat, lng, Cities[k]) == 0.0;
    assert Distance(lat, lng, Cities[r]) == 0.0;
    assert Cities[r].lat == lat && Cities[r].lng == lng;
    if r != k {
      CitiesApart(r, k);
    }
  }

  /** London's own coordinates resolve to London, United Kingdom. */
  lemma LondonResolvesToLondon()
    ensures ReverseGeocode(51.5074, -0.1278) ==
            UserLocation("London", "United Kingdom", Some(Coordinates(51.5074, -0.1278)))
  {
    AtReferenceCity(1);
  }

  // --- IP-based fallback ---

  /** The fixed list the fallback draws from: (city, country). */
  const CommonPlaces: seq<(string, string)> := [
    ("New York", "United States"),
    ("London", "United Kingdom"),
    ("Toronto", "Canada"),
    ("Sydney", "Australia"),
    ("Los Angeles", "United States")
  ]

  /** `getLocationFromIP()` with `commonLocations[pick]` as the draw. */
  function IpLocation(pick: nat): (loc: UserLocation)
    requires pick < |CommonPlaces|
    ensures (loc.city, loc.country) in CommonPlaces
    ensures loc.coordinates == None
  {
    UserLocation(CommonPlaces[pick].0, CommonPlaces[pick].1, None)
  }

  /** Every listed place is some draw's result, so the fallback can return each of the five. */
  lemma IpLocationCoversPlaces(place: (string, string))
    requires place in CommonPlaces
    ensures exists pick: nat :: pick < |CommonPlaces|
              && (IpLocation(pick).city, IpLocation(pick).country) == place
  {
    var k :| 0 <= k < |CommonPlaces| && CommonPlaces[k] == place;
    assert (IpLocation(k).city, IpLocation(k).country) == place;
  }

  /** Every fallback location is priced from its own fare row, never the default. */
  lemma IpLocationHasFareRow(pick: nat)
    requires pick < |CommonPlaces|
    ensures Get(BaseCosts, IpLocation(pick).country).Some?
  {
    var c := IpLocation(pick).country;
    TableOrigins();
    assert c in Keys(BaseCosts);
    GetPresent(BaseCosts, c);
  }

  /** Of the reference cities only Tokyo and Paris lack a fare row of their own, and a
      point resolving to them pays United States fares. */
  lemma ReverseGeocodeFareRow(lat: real, lng: real, dest: string)
    ensures var loc := ReverseGeocode(lat, lng);
            Get(BaseCosts, loc.country).Some? || loc.country in {"Japan", "France"}
    ensures var loc := ReverseGeocode(lat, lng);
            loc.country in {"Japan", "France"} ==>
              FlightCost(loc, dest) == LookupCost(BaseCosts, DefaultOrigin, dest)
  {
    var loc := ReverseGeocode(lat, lng);
    var k := NearestIndex(Cities, lat, lng);
    assert loc.country == Cities[k].country;
    CityCountries();
    TableOrigins();
    if loc.country in {"Japan", "France"} {
      assert forall i :: 0 <= i < |BaseCosts| ==> BaseCosts[i].0 != loc.country;
      GetAbsent(BaseCosts, loc.country);
      UnlistedOriginPaysUnitedStatesFares(loc, dest);
    } else {
      GetPresent(BaseCosts, loc.country);
    }
  }

  // --- Manual entry ---

  /** The body of `handleManualLocationSubmit`: nothing for an input that trims to
      nothing; otherwise the first two comma-separated segments, trimmed, as city and
      country. An empty city falls back to the raw input, a missing or empty country
      to "Unknown". */
  function ParseManual(input: string): (loc: Option<UserLocation>)
    ensures loc.None? <==> AllWhiteSpace(input)
    ensures loc.Some? ==> loc.value.coordinates == None
    ensures loc.Some? ==> loc.value.city != [] && loc.value.country != []
  {
    TrimEmptyIff(input);
    if Trim(input) == [] then None
    else
      var parts := Split(input, ',');
      var city := Trim(parts[0]);
      var country := if |parts| >= 2 then Some(Trim(parts[1])) else None;
      Some(UserLocation(OrElse(Some(city), input), OrElse(country, "Unknown"), None))
  }

  /** Input without a comma is all city: its trimmed text, in the country "Unknown". */
  lemma ParseWithoutComma(input: string)
    requires ',' !in input && !AllWhiteSpace(input)
    ensures ParseManual(input) == Some(UserLocation(Trim(input), "Unknown", None))
  {
    SplitNoSeparator(input, ',');
    TrimEmptyIff(input);
  }

  /** The first two segments of `a,b` optionally followed by `,...` are `a` and `b`. */
  lemma {:induction false} SplitFirstTwo(a: string, b: string, tail: string)
    requires ',' !in a && ',' !in b
    requires tail == [] || tail[0] == ','
    ensures var parts := Split(a + [','] + b + tail, ',');
            |parts| >= 2 && parts[0] == a && parts[1] == b
  {
    assert a + [','] + b + tail == a + [','] + (b + tail);
    SplitAtSeparator(a, ',', b + tail);
    if tail == [] {
      assert b + tail == b;
      SplitNoSeparator(b, ',');
    } else {
      assert b + tail == b + [','] + tail[1..];
      SplitAtSeparator(b, ',', tail[1..]);
    }
  }

  /** Input `a,b` optionally followed by `,...`: the country is `b` trimmed (or
      "Unknown" when that is empty) and whatever follows a second comma is ignored;
      the city is `a` trimmed, or the whole raw input when `a` is only white space. */
  lemma ParseSegments(a: string, b: string, tail: string)
    requires ',' !in a && ',' !in b
    requires tail == [] || tail[0] == ','
    ensures var input := a + [','] + b + tail;
            ParseManual(input) == Some(UserLocation(
              if Trim(a) != [] then Trim(a) else input,
              if Trim(b) != [] then Trim(b) else "Unknown",
              None))
  {
    var input := a + [','] + b + tail;
    SplitFirstTwo(a, b, tail);
    assert input[|a|] == ',';
    TrimEmptyIff(input);
  }

  /** How a location is shown back to the user: `{city}, {country}`. */
  function Display(loc: UserLocation): string {
    loc.city + ", " + loc.country
  }

  /** A field the manual parse can carry unchanged: non-empty, comma-free and not
      starting or ending with white space. */
  predicate CleanField(s: string) {
    s != [] && ',' !in s && !IsWhiteSpace(s[0]) && !IsWhiteSpace(s[|s| - 1])
  }

  /** Typing back what is displayed recovers the location, without coordinates. */
  lemma ParseDisplayRoundTrip(loc: UserLocation)
    requires CleanField(loc.city) && CleanField(loc.country)
    ensures ParseManual(Display(loc)) == Some(UserLocation(loc.city, loc.country, None))
  {
    var b := " " + loc.country;
    TrimUnchanged(loc.city);
    TrimUnchanged(loc.country);
    assert Trim(b) == loc.country by {
      assert b[0] == ' ' && b[1..] == loc.country;
      assert TrimStart(b) == TrimStart(loc.country);
    }
    assert Display(loc) == loc.city + [','] + b + [];
    ParseSegments(loc.city, b, []);
  }

  /** "Tokyo, Japan" parses to Tokyo in Japan. */
  lemma ParseTokyoJapan()
    ensures ParseManual("Tokyo, Japan") == Some(UserLocation("Tokyo", "Japan", None))
  {
    var loc := UserLocation("Tokyo", "Japan", None);
    assert Display(loc) == "Tokyo, Japan";
    ParseDisplayRoundTrip(loc);
  }

  /** "Springfield" has no comma: Springfield in "Unknown". */
  lemma ParseSpringfield()
    ensures ParseManual("Springfield") == Some(UserLocation("Springfield", "Unknown", None))
  {
    assert ',' !in "Springfield";
    assert !IsWhiteSpace("Springfield"[0]);
    TrimUnchanged("Springfield");
    ParseWithoutComma("Springfield");
  }

  /** ", Japan" has an empty city segment: the city is the raw input. */
  lemma ParseEmptyCity()
    ensures ParseManual(", Japan") == Some(UserLocation(", Japan", "Japan", None))
  {
    assert ", Japan" == "" + [','] + " Japan" + [];
    ParseSegments("", " Japan", []);
    assert TrimStart(" Japan") == TrimStart("Japan");
    TrimUnchanged("Japan");
  }

  /** "Paris," has an empty country segment: Paris in "Unknown". */
  lemma ParseEmptyCountry()
    ensures ParseManual("Paris,") == Some(UserLocation("Paris", "Unknown", None))
  {
    assert "Paris," == "Paris" + [','] + "" + [];
    ParseSegments("Paris", "", []);
    TrimUnchanged("Paris");
  }

  /** Empty and white-space-only input produce no location. */
  lemma ParseBlank()
    ensures ParseManual("") == None
    ensures ParseManual(" \t ") == None
  {
    assert AllWhiteSpace(" \t ");
  }

  /** A manual entry can name an origin that the pricing table resolves through the
      object prototype: "Paris, toString" parses to the country "toString", for which
      the lookup as written charges 700 to Bali where the United States fare is 850. */
  lemma ManualEntryReachesInheritedOrigin()
    ensures ParseManual("Paris, toString") == Some(UserLocation("Paris", "toString", None))
    ensures LookupCostAsWritten(BaseCosts, "toString", "Indonesia") == 700
    ensures FlightCost(UserLocation("Paris", "toString", None), "Indonesia") == 850
  {
    var loc := UserLocation("Paris", "toString", None);
    assert Display(loc) == "Paris, toString";
    ParseDisplayRoundTrip(loc);
    InheritedOriginSkipsDefaultRow();
  }
}

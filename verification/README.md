# Travel Wizard: recommendation engine and location resolver in Dafny

This project models the two pure pieces of logic beneath the Travel Wizard front end.

- **Recommendation engine** (`src/utils/destinationAnalyzer.ts`). It draws one of four destination categories. It prices every candidate of that category with `calculateFlightCost`, a two-level fare table keyed by the user's country and then the destination country, with two fallbacks. It adds a 5-day budget range to each candidate and assembles an `AnalysisResult`.
- **Location resolver** (`src/components/LocationDetector.tsx`). It has three helpers:
  - `simulateReverseGeocode`: the reference city nearest to a point, by Manhattan distance on raw degrees;
  - `getLocationFromIP`: a draw from five fixed locations;
  - `handleManualLocationSubmit`: the parse of a typed "city, country" string.

The records of `src/types/travel.ts` are immutable datatypes (`Travel`). Both random draws (`Math.random`) are index parameters with range preconditions: `pick < 4` for the category and `pick < 5` for the IP fallback. Coordinates and budgets are `real`, so the budget formulas hold exactly. Fares and nightly rates are `int`.

Modules, one per file:

| file | module | models |
|---|---|---|
| wrappers.dfy | `Wrappers` | `Option`, standing for a value that may be `undefined` |
| display_texts.dfy | `DisplayTexts` | the authored display texts of the categories, as tokens with their wording |
| travel.dfy | `Travel` | `UserLocation`, `Destination`, `AnalysisResult` and the authored `Candidate`/`Template` |
| js_string.dfy | `JsString` | JavaScript `trim`, `split` with a one-character separator, and `||` on `string \| undefined` |
| flight_cost.dfy | `FlightPricing` | the fare table and `calculateFlightCost` |
| destination_templates.dfy | `DestinationTemplates` | the four authored categories |
| destination_analyzer.dfy | `DestinationAnalyzer` | budgets, enrichment and `analyzeDestination` |
| location_detector.dfy | `LocationDetector` | reverse geocode, IP fallback, manual-entry parse |

Modelling choices:
- **The fare table** is a list of `(key, value)` entries, as an object literal's own properties are. `Get` returns the value of the first entry with a given key. A literal that repeated a key would keep the last value instead, so first-match lookup is JavaScript's lookup only because every key of the table and of each row is distinct (`FlightPricing.CostTableDistinct`).
- **The falsy fallback.** `x || 700` fires when the key is missing or its cell is 0.
- **`trim`** strips exactly the ECMAScript WhiteSpace and LineTerminator code points, as listed in `JsString.IsWhiteSpace`.
- **Display texts** (image URLs, descriptions, match reasons, best seasons, current conditions, category labels and seasonal advice) are constructors of `DisplayTexts.Text`. The engine copies them and never inspects them. `DisplayTexts.Wording` gives the authored wording of every token; its match covers every constructor, so no token lacks one.

## Model

| member | source | states |
|---|---|---|
| JsString.Trim | src/components/LocationDetector.tsx:108-109 | `String.prototype.trim`; `TrimEnd` after `TrimStart`; it has no contract of its own and is specified by TrimStartSpec, TrimEndSpec, TrimFramed, TrimEmptyIff and TrimIdempotent |
| JsString.TrimStartSpec | src/components/LocationDetector.tsx:108-109 | `TrimStart`, the leading pass of `trim`, keeps a suffix of the input that does not start with white space, and everything it cuts from the front is white space |
| JsString.TrimEndSpec | src/components/LocationDetector.tsx:108-109 | `TrimEnd`, the trailing pass of `trim`, keeps a prefix of its input that does not end with white space, and everything it cuts from the back is white space |
| JsString.TrimFramed | src/components/LocationDetector.tsx:108-109 | the input is the trimmed string framed by two all-white-space strings; the trimmed string is empty or starts and ends with a non-white-space character |
| JsString.TrimEmptyIff | src/components/LocationDetector.tsx:108 | the submit guard `manualLocation.trim()` is falsy exactly when the input is all white space |
| JsString.TrimIdempotent | src/components/LocationDetector.tsx:109 | trimming an already trimmed segment changes nothing |
| JsString.Split | src/components/LocationDetector.tsx:109 | `split(',')` yields at least one segment and no segment contains the separator |
| JsString.JoinSplit | src/components/LocationDetector.tsx:109 | joining the segments with the separator gives back the input: nothing is lost or reordered |
| JsString.SplitJoin | src/components/LocationDetector.tsx:109 | splitting a join of separator-free segments gives back exactly those segments |
| JsString.SplitAtSeparator | src/components/LocationDetector.tsx:109 | the first segment is everything before the first comma; the rest is the split of what follows |
| JsString.SplitNoSeparator | src/components/LocationDetector.tsx:109 | input with no comma is a single segment |
| JsString.OrElse | src/components/LocationDetector.tsx:111-112 | `v \|\| fallback` gives the fallback exactly when `v` is undefined or empty (or equal to it), and otherwise `v` |
| FlightPricing.Get | src/utils/destinationAnalyzer.ts:74-75 | `obj[key]` over own properties; it has no contract of its own and is specified by GetSpec and GetDistinct |
| FlightPricing.GetSpec | src/utils/destinationAnalyzer.ts:74-75 | an object lookup finds a value exactly when some own property has the key, and the value is that of the first such property |
| FlightPricing.DistinctKeys | src/utils/destinationAnalyzer.ts:5-71 | no two entries of a literal share a key |
| FlightPricing.GetDistinct | src/utils/destinationAnalyzer.ts:74-75 | on entries with distinct keys, looking up any entry's key finds that entry's value, which is JavaScript's lookup |
| FlightPricing.CostTableDistinct | src/utils/destinationAnalyzer.ts:5-71 | the origins of the table, and the destinations of every row, are pairwise distinct |
| FlightPricing.RowFor | src/utils/destinationAnalyzer.ts:74 | the row used is a row of the table: the origin's own, or the "United States" row when the origin has none |
| FlightPricing.CellOr | src/utils/destinationAnalyzer.ts:75 | `costs[dest] \|\| 700` is never 0; it is 700 or a cell priced for `dest` in that row, and it is 700 whenever no cell for `dest` is non-zero |
| FlightPricing.LookupCost | src/utils/destinationAnalyzer.ts:73-75 | the fare is never 0 (falsy), and it is either the default 700 or a cell priced for that destination in some row |
| FlightPricing.FlightCost | src/utils/destinationAnalyzer.ts:4-76 | `calculateFlightCost` through the own-property lookup (the corrected reading of line 74) is positive for every location and destination |
| FlightPricing.BaseCostsPositive | src/utils/destinationAnalyzer.ts:5-71 | the table has a "United States" row, and every cell of every row is positive |
| FlightPricing.RowsShareColumns | src/utils/destinationAnalyzer.ts:5-71 | all five rows price the same eleven destination countries in the same order |
| FlightPricing.TableOrigins | src/utils/destinationAnalyzer.ts:5-71 | the origins with a row are United States, United Kingdom, Canada, Australia and Germany |
| FlightPricing.LookupHit | src/utils/destinationAnalyzer.ts:73-75 | an exact (origin, destination) hit with a non-zero cell returns that cell |
| FlightPricing.LookupUnknownOrigin | src/utils/destinationAnalyzer.ts:74 | an origin without a row is priced exactly as "United States" |
| FlightPricing.LookupMiss | src/utils/destinationAnalyzer.ts:75 | a destination that is missing from the row used, or that holds 0 there, costs 700 |
| FlightPricing.LookupLowerBound | src/utils/destinationAnalyzer.ts:75 | in any table with no negative cell every fare is positive, because 0 falls through to 700 |
| FlightPricing.FlightCostIgnoresCityAndCoordinates | src/utils/destinationAnalyzer.ts:73 | two locations in the same country pay the same fares |
| FlightPricing.UnitedKingdomToSwitzerland | src/utils/destinationAnalyzer.ts:19-31 | United Kingdom to Switzerland costs 200 |
| FlightPricing.UnlistedOriginPaysUnitedStatesFares | src/utils/destinationAnalyzer.ts:74 | countries with no row (Japan, France, "Unknown") pay United States fares |
| FlightPricing.UnitedStatesCostsDefault | src/utils/destinationAnalyzer.ts:75 | "United States" is a column of no row, so it costs 700 from every origin |
| FlightPricing.LookupCostAsWritten | src/utils/destinationAnalyzer.ts:74-75 | with the prototype chain taken into account, the lookup agrees with the intended one except on inherited member names, which cost 700 everywhere |
| FlightPricing.InheritedOriginSkipsDefaultRow | src/utils/destinationAnalyzer.ts:74 | origin "toString": 700 to Indonesia as written, 850 (the United States fare) as intended |
| DisplayTexts.Wording | src/utils/destinationAnalyzer.ts:78-219 | the authored wording of each display text, verbatim; it has no contract of its own, and its match covers every token |
| DestinationTemplates.TemplatesShaped | src/utils/destinationAnalyzer.ts:78-219 | there are four categories, each with three candidates at non-negative nightly rates |
| DestinationAnalyzer.TripBudget | src/utils/destinationAnalyzer.ts:230-234 | min = F + 5A + 250 and max = F + 7.5A + 375; the part above the fare scales by exactly 1.5 |
| DestinationAnalyzer.BudgetOrdered | src/utils/destinationAnalyzer.ts:231-234 | for A ≥ 0, min < max, and the gap is 2.5A + 125 |
| DestinationAnalyzer.Enrich | src/utils/destinationAnalyzer.ts:228-241 | a priced destination drops back to its candidate (only `flightCost` and `totalBudget` are added); its fare is `calculateFlightCost` from the user's country to the candidate's country, positive, and its budget is the 5-day formula of that fare and the candidate's nightly rate |
| DestinationAnalyzer.EnrichAll | src/utils/destinationAnalyzer.ts:228-241 | `map` keeps the length and the order, keeps every authored field, and prices each entry from the user's country |
| DestinationAnalyzer.Analyze | src/utils/destinationAnalyzer.ts:221-249 | the result copies the drawn template's label, description and advice, returns the location unchanged, and carries its three candidates, priced, in order |
| DestinationAnalyzer.AnalyzeBudgets | src/utils/destinationAnalyzer.ts:228-241 | every suggestion of every draw has a positive fare and a non-empty budget range given by the exact formula |
| DestinationAnalyzer.EnrichAllKeepsCountries | src/utils/destinationAnalyzer.ts:228-241 | pricing keeps the set of destination countries |
| DestinationAnalyzer.AnalyzeKeepsCountries | src/utils/destinationAnalyzer.ts:243-249 | the suggestions name exactly the drawn template's countries |
| DestinationAnalyzer.TemplatesPriced | src/utils/destinationAnalyzer.ts:78-219 | every candidate country is a table column, or it is "United States" |
| DestinationAnalyzer.SuggestionFares | src/utils/destinationAnalyzer.ts:73-75 | for an origin with a row, every suggestion outside the United States pays that row's exact cell; Antelope Canyon always pays 700 |
| DestinationAnalyzer.MountainsFromLondon | src/utils/destinationAnalyzer.ts:115-127 | from London, the mountain draw puts the Swiss Alps first at fare 200 and budget 850 to 1175 |
| LocationDetector.Distance | src/components/LocationDetector.tsx:78 | the Manhattan distance is non-negative, zero exactly at the city's own coordinates, and at least the gap in latitude and in longitude, either way round |
| LocationDetector.Scan | src/components/LocationDetector.tsx:74-83 | the `forEach` scan with a strict `<` ends on the first entry at minimal distance |
| LocationDetector.NearestIndex | src/components/LocationDetector.tsx:74-83 | the scan started from the first city returns an index that is nearest, with every earlier city strictly farther |
| LocationDetector.FirstNearestUnique | src/components/LocationDetector.tsx:79 | at most one entry is the first nearest, so that contract fixes the answer |
| LocationDetector.ReverseGeocode | src/components/LocationDetector.tsx:60-90 | the result is the `{city, country}` of a first-nearest reference city and carries the input coordinates unchanged |
| LocationDetector.CitiesApart | src/components/LocationDetector.tsx:62-71 | no two reference cities share coordinates |
| LocationDetector.CityCountries | src/components/LocationDetector.tsx:62-71 | every reference city is in a country with a fare row, or in Japan or France |
| LocationDetector.AtReferenceCity | src/components/LocationDetector.tsx:62-83 | a point exactly at a reference city resolves to that city |
| LocationDetector.LondonResolvesToLondon | src/components/LocationDetector.tsx:64 | (51.5074, -0.1278) resolves to London, United Kingdom, with those coordinates |
| LocationDetector.IpLocation | src/components/LocationDetector.tsx:92-104 | the fallback returns one of the five listed `{city, country}` pairs and never carries coordinates |
| LocationDetector.IpLocationCoversPlaces | src/components/LocationDetector.tsx:95-103 | each of the five listed places is returned by some draw |
| LocationDetector.IpLocationHasFareRow | src/components/LocationDetector.tsx:95-101 | every fallback country has its own fare row |
| LocationDetector.ReverseGeocodeFareRow | src/components/LocationDetector.tsx:62-71 | a resolved country has its own row unless it is Japan or France, which pay United States fares |
| LocationDetector.ParseManual | src/components/LocationDetector.tsx:106-117 | no location exactly when the input is all white space; otherwise a non-empty city and country, and no coordinates |
| LocationDetector.ParseWithoutComma | src/components/LocationDetector.tsx:109-113 | input without a comma gives the trimmed input as the city, in the country "Unknown" |
| LocationDetector.SplitFirstTwo | src/components/LocationDetector.tsx:109 | the destructured elements 0 and 1 are the text before the first comma and the text between the first and second commas |
| LocationDetector.ParseSegments | src/components/LocationDetector.tsx:109-113 | for `a,b[,...]`: the country is trimmed `b` or "Unknown", anything after a second comma is dropped, and the city is trimmed `a` or, when `a` is blank, the raw input |
| LocationDetector.Display | src/components/LocationDetector.tsx:130 | the `{city}, {country}` text shown for a location; it has no contract of its own and ParseDisplayRoundTrip states what parsing it back gives |
| LocationDetector.ParseDisplayRoundTrip | src/components/LocationDetector.tsx:109-113 | for fields that are non-empty, comma-free and have no white space at either end, typing back the displayed "city, country" recovers the location, without coordinates |
| LocationDetector.ParseTokyoJapan | src/components/LocationDetector.tsx:109-113 | "Tokyo, Japan" parses to Tokyo, Japan |
| LocationDetector.ParseSpringfield | src/components/LocationDetector.tsx:109-113 | "Springfield" parses to Springfield, "Unknown" |
| LocationDetector.ParseEmptyCity | src/components/LocationDetector.tsx:111 | ", Japan" has an empty city segment, so the city is the raw input ", Japan" |
| LocationDetector.ParseEmptyCountry | src/components/LocationDetector.tsx:112 | "Paris," has an empty country segment, so the country is "Unknown" |
| LocationDetector.ParseBlank | src/components/LocationDetector.tsx:108 | "" and white-space-only input produce no location |
| LocationDetector.ManualEntryReachesInheritedOrigin | src/components/LocationDetector.tsx:109-113 | the typed "Paris, toString" yields the origin "toString", which the lookup as written misprices |

## Left out

- Rendering and React state (src/App.tsx, src/components/ImageUpload.tsx, src/components/DestinationCard.tsx, src/components/LoadingAnalysis.tsx) are presentation. This includes the fixed figures of the Budget Overview panel, which are markup and not computed.
- The asynchronous `detectLocation` chain (src/components/LocationDetector.tsx:18-58: the geolocation permission and the success and error callbacks) is browser I/O. So are the 3-second `setTimeout` analysis delay (src/App.tsx:24-28) and the `FileReader` image upload (src/components/ImageUpload.tsx:35). The pure helpers `detectLocation` calls are modelled.
- `Math.random` is replaced by the index parameters `pick`.
- IEEE-754 doubles are not modelled. Coordinates, distances and budgets are exact `real`s, and fares are unbounded `int`s. Every value involved is small, but a distance tie that rounding would break, or create, is not modelled.
- Display texts are `Text` tokens. The model proves that they are copied verbatim, never what they say. Their wording is data in `DisplayTexts.Wording`.
- Strings are sequences of Unicode scalar values, not of UTF-16 code units, so a lone surrogate cannot be written. `trim` and `split(',')` agree with JavaScript on every other text, because every separator and white-space character is in the Basic Multilingual Plane.
- FlightPricing.FlightCost: it prices through the own-property lookup `LookupCost`, the corrected half of the finding below, and so do `Enrich`, `EnrichAll` and `Analyze`. On an origin named after an `Object.prototype` member (such as "toString" or "__proto__") it gives United States fares, where the code as written gives 700 (see `LookupCostAsWritten`). It also treats any destination name as a plain key; the only destinations passed at src/utils/destinationAnalyzer.ts:229 are the twelve capitalised template countries, and for an inherited name such as "toString" the code as written would return a function instead of a fare.
- FlightPricing.LookupCostAsWritten: it models the prototype chain only for origin keys. It requires the destination to start with an upper-case letter, as every template country does, because no inherited member is named like that.

## Findings

| source | as written | input that shows it | evidently intended | confidence | as-written member | corrected member |
|---|---|---|---|---|---|---|
| src/utils/destinationAnalyzer.ts:74 | `baseCosts[userCountry]` also finds members inherited from `Object.prototype` (`toString`, `constructor`, `__proto__`, ...). They are truthy, so the United States row is skipped, and they hold no country, so every fare becomes 700 | manual entry "Paris, toString": the fare to Bali is 700 | an origin without its own row pays United States fares (850 to Bali), as the comment "Default to US costs" says | medium; not executed | FlightPricing.LookupCostAsWritten, FlightPricing.InheritedOriginSkipsDefaultRow, LocationDetector.ManualEntryReachesInheritedOrigin | FlightPricing.LookupCost with FlightPricing.LookupUnknownOrigin |

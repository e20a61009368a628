/** The recommendation engine (src/utils/destinationAnalyzer.ts:221-250): pick a
    category, price each of its candidates from the user's country, and assemble the
    result. The random pick is the parameter `pick`. */
module DestinationAnalyzer {
  import opened Wrappers
  import opened Travel
  import opened FlightPricing
  import opened DestinationTemplates

  /** Length of the budgeted trip, in days (and nights). */
  const TripNights: int := 5

  /** Food allowance per day. */
  const DailyFood: int := 50

  /** Scale from the low to the high end of the budget range. */
  const BudgetMultiplier: real := 1.5

  /** The 5-day range for a fare and a nightly rate: fare plus lodging plus food at the
      authored rates, and fare plus lodging and food scaled by the multiplier. */
  function TripBudget(flightCost: int, accommodationCost: int): (b: Budget)
    ensures b.min == (flightCost + 5 * accommodationCost + 250) as real
    ensures b.max == flightCost as real + 7.5 * accommodationCost as real + 375.0
    ensures b.max - flightCost as real == BudgetMultiplier * (b.min - flightCost as real)
  {
    Budget(
      (flightCost + accommodationCost * TripNights + DailyFood * TripNights) as real,
      flightCost as real
        + (accommodationCost * TripNights) as real * BudgetMultiplier
        + (DailyFood * TripNights) as real * BudgetMultiplier)
  }

  /** The range is never empty: for a non-negative nightly rate the top exceeds the
      bottom by 2.5 times the rate plus 125. */
  lemma BudgetOrdered(flightCost: int, accommodationCost: int)
    requires accommodationCost >= 0
    ensures TripBudget(flightCost, accommodationCost).min < TripBudget(flightCost, accommodationCost).max
    ensures TripBudget(flightCost, accommodationCost).max - TripBudget(flightCost, accommodationCost).min
            == 2.5 * accommodationCost as real + 125.0
  {
  }

  /** One step of `template.destinations.map(...)`: spread the candidate and add
      `flightCost` and `totalBudget`. */
  function Enrich(c: Candidate, from: UserLocation): (d: Destination)
    ensures Unpriced(d) == c
    ensures d.flightCost == FlightCost(from, c.country)
    ensures d.flightCost > 0
    ensures d.totalBudget == TripBudget(d.flightCost, c.accommodationCost)
    ensures d.totalBudget.min == (d.flightCost + 5 * c.accommodationCost + 250) as real
    ensures d.totalBudget.max == d.flightCost as real + 7.5 * c.accommodationCost as real + 375.0
  {
    var fare := FlightCost(from, c.country);
    Destination(c.name, c.country, c.imageUrl, c.description, c.matchReason,
                fare, c.accommodationCost, c.bestSeason, TripBudget(fare, c.accommodationCost),
                c.currentCondition)
  }

  /** `template.destinations.map(...)`: the candidates priced one by one, same length,
      same order, every authored field kept. */
  function EnrichAll(cs: seq<Candidate>, from: UserLocation): (ds: seq<Destination>)
    ensures |ds| == |cs|
    ensures forall i :: 0 <= i < |cs| ==> Unpriced(ds[i]) == cs[i]
    ensures forall i :: 0 <= i < |cs| ==> ds[i].flightCost == FlightCost(from, cs[i].country)
    ensures forall i :: 0 <= i < |cs| ==>
              ds[i].totalBudget == TripBudget(ds[i].flightCost, cs[i].accommodationCost)
  {
    if cs == [] then [] else [Enrich(cs[0], from)] + EnrichAll(cs[1..], from)
  }

  /** `analyzeDestination(userLocation)` with `types[pick]` as the category drawn. */
  function Analyze(from: UserLocation, pick: nat): (r: AnalysisResult)
    requires pick < |Templates|
    ensures r.destinationType == Templates[pick].kind
    ensures r.description == Templates[pick].description
    ensures r.seasonalAdvice == Templates[pick].seasonalAdvice
    ensures r.userLocation == from
    ensures |r.suggestions| == |Templates[pick].destinations| == 3 > 0
    ensures forall i :: 0 <= i < |r.suggestions| ==>
              Unpriced(r.suggestions[i]) == Templates[pick].destinations[i]
    ensures forall i :: 0 <= i < |r.suggestions| ==>
              r.suggestions[i].flightCost == FlightCost(from, r.suggestions[i].country)
  {
    TemplatesShaped();
    var t := Templates[pick];
    AnalysisResult(t.kind, t.description, EnrichAll(t.destinations, from), t.seasonalAdvice, from)
  }

  /** Each of the three suggestions of every analysis has a positive fare and a non-empty budget
      range that follows the 5-day formula exactly. */
  lemma {:induction false} AnalyzeBudgets(from: UserLocation, pick: nat, i: nat)
    requires pick < |Templates|
    requires i < 3
    ensures var s := Analyze(from, pick).suggestions[i];
            && s.flightCost > 0
            && s.totalBudget.min == (s.flightCost + 5 * s.accommodationCost + 250) as real
            && s.totalBudget.max == s.flightCost as real + 7.5 * s.accommodationCost as real + 375.0
            && s.totalBudget.min < s.totalBudget.max
  {
    TemplatesShaped();
    var s := Analyze(from, pick).suggestions[i];
    assert s.accommodationCost == Templates[pick].destinations[i].accommodationCost;
    BudgetOrdered(s.flightCost, s.accommodationCost);
  }

  /** Pricing keeps the candidates' countries: the priced list names exactly the
      countries the authored list names. */
  lemma EnrichAllKeepsCountries(cs: seq<Candidate>, from: UserLocation)
    ensures (set d | d in EnrichAll(cs, from) :: d.country) == (set c | c in cs :: c.country)
  {
    var ds := EnrichAll(cs, from);
    forall j | 0 <= j < |cs|
      ensures cs[j].country in (set d | d in ds :: d.country)
    {
      assert Unpriced(ds[j]) == cs[j];
      assert ds[j] in ds;
    }
  }

  /** The suggestions name exactly the chosen template's destination countries. */
  lemma AnalyzeKeepsCountries(from: UserLocation, pick: nat)
    requires pick < |Templates|
    ensures (set s | s in Analyze(from, pick).suggestions :: s.country)
            == (set c | c in Templates[pick].destinations :: c.country)
  {
    EnrichAllKeepsCountries(Templates[pick].destinations, from);
  }

  /** A candidate the table prices exactly: its country is a column of every row,
      or it is "United States", which is in no row. */
  predicate PricedCountry(c: Candidate) {
    c.country in Columns || c.country == "United States"
  }

  lemma TemplatesPriced()
    ensures forall k, j :: 0 <= k < |Templates| && 0 <= j < |Templates[k].destinations| ==>
              PricedCountry(Templates[k].destinations[j])
  {
    assert forall j :: 0 <= j < 3 ==> PricedCountry(TropicalBeach.destinations[j]);
    assert forall j :: 0 <= j < 3 ==> PricedCountry(MountainScenery.destinations[j]);
    assert forall j :: 0 <= j < 3 ==> PricedCountry(CityLandmark.destinations[j]);
    assert forall j :: 0 <= j < 3 ==> PricedCountry(Desert.destinations[j]);
  }

  /** An origin with a row pays that row's exact cell for every suggestion outside the
      United States; Antelope Canyon, in the United States, is in no row and always
      costs 700. */
  lemma SuggestionFares(from: UserLocation, pick: nat, i: nat)
    requires pick < |Templates|
    requires i < 3
    ensures var s := Analyze(from, pick).suggestions[i];
            && (s.country == "United States" ==> s.flightCost == DefaultCost)
            && (s.country != "United States" && Get(BaseCosts, from.country).Some? ==>
                  var row := Get(BaseCosts, from.country).value;
                  Get(row, s.country).Some? && s.flightCost == Get(row, s.country).value)
  {
    TemplatesPriced();
    var s := Analyze(from, pick).suggestions[i];
    assert PricedCountry(Templates[pick].destinations[i]);
    if s.country == "United States" {
      UnitedStatesCostsDefault(from);
    } else if Get(BaseCosts, from.country).Some? {
      var row := Get(BaseCosts, from.country).value;
      GetSpec(BaseCosts, from.country);
      RowsShareColumns();
      BaseCostsPositive();
      GetPresent(row, s.country);
      GetSpec(row, s.country);
      LookupHit(BaseCosts, from.country, s.country, row, Get(row, s.country).value);
    }
  }

  /** Drawing the mountain category from London: the Swiss Alps come first, at a
      fare of 200 and a budget of 850 to 1175. */
  lemma MountainsFromLondon()
    ensures var r := Analyze(UserLocation("London", "United Kingdom", None), 1);
            && r.suggestions[0].name == "Swiss Alps, Switzerland"
            && r.suggestions[0].flightCost == 200
            && r.suggestions[0].totalBudget == Budget(850.0, 1175.0)
  {
    var from := UserLocation("London", "United Kingdom", None);
    UnitedKingdomToSwitzerland(from);
    assert MountainScenery.destinations[0].accommodationCost == 80;
  }
}

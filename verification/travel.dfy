/** The records shared by the location resolver and the recommendation engine
    (src/types/travel.ts). Every field is immutable. */
module Travel {
  import opened Wrappers
  import opened DisplayTexts

  /** A latitude/longitude pair in decimal degrees. */
  datatype Coordinates = Coordinates(lat: real, lng: real)

  /** Where the user is. Only the geolocation path attaches coordinates. */
  datatype UserLocation = UserLocation(
    city: string,
    country: string,
    coordinates: Option<Coordinates>)

  /** The 5-day budget range of one suggestion. */
  datatype Budget = Budget(min: real, max: real)

  /** A destination as authored in a template, before pricing. */
  datatype Candidate = Candidate(
    name: string,
    country: string,
    imageUrl: Text,
    description: Text,
    matchReason: Text,
    accommodationCost: int,
    bestSeason: Text,
    currentCondition: Option<Text>)

  /** A priced suggestion: a candidate plus `flightCost` and `totalBudget`. */
  datatype Destination = Destination(
    name: string,
    country: string,
    imageUrl: Text,
    description: Text,
    matchReason: Text,
    flightCost: int,
    accommodationCost: int,
    bestSeason: Text,
    totalBudget: Budget,
    currentCondition: Option<Text>)

  /** A themed category of candidates. */
  datatype Template = Template(
    kind: Text,
    description: Text,
    destinations: seq<Candidate>,
    seasonalAdvice: Text)

  /** What one analysis returns to the presentation layer. */
  datatype AnalysisResult = AnalysisResult(
    destinationType: Text,
    description: Text,
    suggestions: seq<Destination>,
    seasonalAdvice: Text,
    userLocation: UserLocation)

  /** The candidate a destination was priced from: every field except the two derived ones. */
  function Unpriced(d: Destination): Candidate {
    Candidate(d.name, d.country, d.imageUrl, d.description, d.matchReason,
              d.accommodationCost, d.bestSeason, d.currentCondition)
  }
}

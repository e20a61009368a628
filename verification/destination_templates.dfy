/** The four authored destination categories (src/utils/destinationAnalyzer.ts:78-219),
    in the order `Object.keys` lists them. Names, countries and nightly rates are the
    authored values; the display texts are `Text` tokens whose wording
    `DisplayTexts.Wording` gives. */
module DestinationTemplates {
  import opened Wrappers
  import opened Travel
  import opened DisplayTexts

  const TropicalBeach: Template := Template(
    TropicalBeachType, TropicalBeachDescription,
    [
      Candidate(
        "Bali, Indonesia", "Indonesia",
        BaliImageUrl, BaliDescription, BaliMatchReason,
        45, BaliBestSeason,
        Some(BaliCurrentCondition)),
      Candidate(
        "Maldives", "Maldives",
        MaldivesImageUrl, MaldivesDescription, MaldivesMatchReason,
        120, MaldivesBestSeason,
        None),
      Candidate(
        "Phuket, Thailand", "Thailand",
        PhuketImageUrl, PhuketDescription, PhuketMatchReason,
        35, PhuketBestSeason,
        None)
    ],
    TropicalBeachSeasonalAdvice)

  const MountainScenery: Template := Template(
    MountainSceneryType, MountainSceneryDescription,
    [
      Candidate(
        "Swiss Alps, Switzerland", "Switzerland",
        SwissAlpsImageUrl, SwissAlpsDescription, SwissAlpsMatchReason,
        80, SwissAlpsBestSeason,
        None),
      Candidate(
        "Patagonia, Chile", "Chile",
        PatagoniaImageUrl, PatagoniaDescription, PatagoniaMatchReason,
        60, PatagoniaBestSeason,
        None),
      Candidate(
        "Banff, Canada", "Canada",
        BanffImageUrl, BanffDescription, BanffMatchReason,
        70, BanffBestSeason,
        None)
    ],
    MountainScenerySeasonalAdvice)

  const CityLandmark: Template := Template(
    CityLandmarkType, CityLandmarkDescription,
    [
      Candidate(
        "Paris, France", "France",
        ParisImageUrl, ParisDescription, ParisMatchReason,
        90, ParisBestSeason,
        None),
      Candidate(
        "Rome, Italy", "Italy",
        RomeImageUrl, RomeDescription, RomeMatchReason,
        75, RomeBestSeason,
        None),
      Candidate(
        "Prague, Czech Republic", "Czech Republic",
        PragueImageUrl, PragueDescription, PragueMatchReason,
        50, PragueBestSeason,
        None)
    ],
    CityLandmarkSeasonalAdvice)

  const Desert: Template := Template(
    DesertType, DesertDescription,
    [
      Candidate(
        "Sahara Desert, Morocco", "Morocco",
        SaharaImageUrl, SaharaDescription, SaharaMatchReason,
        60, SaharaBestSeason,
        None),
      Candidate(
        "Antelope Canyon, USA", "United States",
        AntelopeCanyonImageUrl, AntelopeCanyonDescription, AntelopeCanyonMatchReason,
        85, AntelopeCanyonBestSeason,
        None),
      Candidate(
        "Wadi Rum, Jordan", "Jordan",
        WadiRumImageUrl, WadiRumDescription, WadiRumMatchReason,
        55, WadiRumBestSeason,
        None)
    ],
    DesertSeasonalAdvice)


  /** `Object.keys(destinationTemplates)` order: tropical beach, mountain scenery,
      city landmark, desert. */
  const Templates: seq<Template> := [TropicalBeach, MountainScenery, CityLandmark, Desert]

  /** A category as authored: three candidates, each with a non-negative nightly rate. */
  predicate WellShaped(t: Template) {
    && |t.destinations| == 3
    && forall j :: 0 <= j < |t.destinations| ==> t.destinations[j].accommodationCost >= 0
  }

  lemma TemplatesShaped()
    ensures |Templates| == 4
    ensures forall k :: 0 <= k < |Templates| ==> WellShaped(Templates[k])
  {
    assert WellShaped(TropicalBeach);
    assert WellShaped(MountainScenery);
    assert WellShaped(CityLandmark);
    assert WellShaped(Desert);
  }
}

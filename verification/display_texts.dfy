/** The display texts of the destination categories: image URLs, descriptions, match
    reasons, best seasons, current conditions, category labels and seasonal advice.
    The engine only copies them, so the model carries each as a token and keeps its
    authored wording in `Wording`. */
module DisplayTexts {
  datatype Text =
    | BaliCurrentCondition
    | BaliImageUrl
    | BaliDescription
    | BaliMatchReason
    | BaliBestSeason
    | MaldivesImageUrl
    | MaldivesDescription
    | MaldivesMatchReason
    | MaldivesBestSeason
    | PhuketImageUrl
    | PhuketDescription
    | PhuketMatchReason
    | PhuketBestSeason
    | TropicalBeachType
    | TropicalBeachDescription
    | TropicalBeachSeasonalAdvice
    | SwissAlpsImageUrl
    | SwissAlpsDescription
    | SwissAlpsMatchReason
    | SwissAlpsBestSeason
    | PatagoniaImageUrl
    | PatagoniaDescription
    | PatagoniaMatchReason
    | PatagoniaBestSeason
    | BanffImageUrl
    | BanffDescription
    | BanffMatchReason
    | BanffBestSeason
    | MountainSceneryType
    | MountainSceneryDescription
    | MountainScenerySeasonalAdvice
    | ParisImageUrl
    | ParisDescription
    | ParisMatchReason
    | ParisBestSeason
    | RomeImageUrl
    | RomeDescription
    | RomeMatchReason
    | RomeBestSeason
    | PragueImageUrl
    | PragueDescription
    | PragueMatchReason
    | PragueBestSeason
    | CityLandmarkType
    | CityLandmarkDescription
    | CityLandmarkSeasonalAdvice
    | SaharaImageUrl
    | SaharaDescription
    | SaharaMatchReason
    | SaharaBestSeason
    | AntelopeCanyonImageUrl
    | AntelopeCanyonDescription
    | AntelopeCanyonMatchReason
    | AntelopeCanyonBestSeason
    | WadiRumImageUrl
    | WadiRumDescription
    | WadiRumMatchReason
    | WadiRumBestSeason
    | DesertType
    | DesertDescription
    | DesertSeasonalAdvice

  /** The authored wording of a display text. The match covers every constructor,
      so no token lacks its wording. */
  function Wording(t: Text): string {
    match t
    case BaliCurrentCondition =>
      "Currently dry season - perfect conditions!"
    case BaliImageUrl =>
      "https://images.pexels.com/photos/2166559/pexels-photo-2166559.jpeg?auto=compress&cs=tinysrgb&w=800"
    case BaliDescription =>
      "Stunning beaches, rice terraces, and rich culture make Bali a perfect tropical escape."
    case BaliMatchReason =>
      "Similar pristine beaches with palm trees and turquoise waters"
    case BaliBestSeason =>
      "April - September"
    case MaldivesImageUrl =>
      "https://images.pexels.com/photos/1287460/pexels-photo-1287460.jpeg?auto=compress&cs=tinysrgb&w=800"
    case MaldivesDescription =>
      "Overwater bungalows and incredibly clear waters in this tropical paradise."
    case MaldivesMatchReason =>
      "Pure white sand beaches and crystal-clear lagoons"
    case MaldivesBestSeason =>
      "November - April"
    case PhuketImageUrl =>
      "https://images.pexels.com/photos/1467300/pexels-photo-1467300.jpeg?auto=compress&cs=tinysrgb&w=800"
    case PhuketDescription =>
      "Beautiful beaches, vibrant nightlife, and amazing Thai cuisine."
    case PhuketMatchReason =>
      "Tropical beaches with warm waters and excellent weather"
    case PhuketBestSeason =>
      "December - March"
    case TropicalBeachType =>
      "\U{1F3DD}\U{FE0F} Tropical Paradise Beach"
    case TropicalBeachDescription =>
      "Your image shows a stunning tropical beach with crystal-clear waters and pristine sand - the perfect recipe for a relaxing getaway!"
    case TropicalBeachSeasonalAdvice =>
      "\U{1F334} Most tropical destinations are ideal during their dry seasons. Avoid monsoon periods for the best beach experience!"
    case SwissAlpsImageUrl =>
      "https://images.pexels.com/photos/691668/pexels-photo-691668.jpeg?auto=compress&cs=tinysrgb&w=800"
    case SwissAlpsDescription =>
      "Iconic snow-capped peaks, pristine lakes, and charming Alpine villages."
    case SwissAlpsMatchReason =>
      "Dramatic mountain peaks with stunning alpine scenery"
    case SwissAlpsBestSeason =>
      "June - September"
    case PatagoniaImageUrl =>
      "https://images.pexels.com/photos/1666021/pexels-photo-1666021.jpeg?auto=compress&cs=tinysrgb&w=800"
    case PatagoniaDescription =>
      "Wild landscapes, glaciers, and incredible hiking opportunities."
    case PatagoniaMatchReason =>
      "Rugged mountain terrain with pristine wilderness"
    case PatagoniaBestSeason =>
      "December - March"
    case BanffImageUrl =>
      "https://images.pexels.com/photos/417074/pexels-photo-417074.jpeg?auto=compress&cs=tinysrgb&w=800"
    case BanffDescription =>
      "Stunning Rocky Mountain scenery with turquoise lakes and wildlife."
    case BanffMatchReason =>
      "Beautiful mountain lakes and forest-covered peaks"
    case BanffBestSeason =>
      "June - September"
    case MountainSceneryType =>
      "\U{1F3D4}\U{FE0F} Majestic Mountain Landscape"
    case MountainSceneryDescription =>
      "Your image captures breathtaking mountain scenery - perfect for adventure seekers and nature lovers!"
    case MountainScenerySeasonalAdvice =>
      "\U{1F3D4}\U{FE0F} Mountain destinations are best visited during summer months for hiking and clear views. Winter offers skiing opportunities!"
    case ParisImageUrl =>
      "https://images.pexels.com/photos/161853/eiffel-tower-paris-france-tower-161853.jpeg?auto=compress&cs=tinysrgb&w=800"
    case ParisDescription =>
      "City of Light with world-famous landmarks, art, and cuisine."
    case ParisMatchReason =>
      "Iconic architecture and beautiful urban landscapes"
    case ParisBestSeason =>
      "April - June, September - October"
    case RomeImageUrl =>
      "https://images.pexels.com/photos/532263/pexels-photo-532263.jpeg?auto=compress&cs=tinysrgb&w=800"
    case RomeDescription =>
      "Ancient history meets modern life in the Eternal City."
    case RomeMatchReason =>
      "Historic landmarks and stunning classical architecture"
    case RomeBestSeason =>
      "April - June, September - November"
    case PragueImageUrl =>
      "https://images.pexels.com/photos/1387532/pexels-photo-1387532.jpeg?auto=compress&cs=tinysrgb&w=800"
    case PragueDescription =>
      "Fairy-tale architecture and charming cobblestone streets."
    case PragueMatchReason =>
      "Beautiful historic architecture and romantic city atmosphere"
    case PragueBestSeason =>
      "April - June, September - October"
    case CityLandmarkType =>
      "\U{1F3DB}\U{FE0F} Iconic City Landmark"
    case CityLandmarkDescription =>
      "Your image shows a beautiful urban landmark - perfect for cultural exploration and city adventures!"
    case CityLandmarkSeasonalAdvice =>
      "\U{1F3DB}\U{FE0F} European cities are most pleasant in spring and fall with mild weather and fewer crowds than summer!"
    case SaharaImageUrl =>
      "https://images.pexels.com/photos/1574831/pexels-photo-1574831.jpeg?auto=compress&cs=tinysrgb&w=800"
    case SaharaDescription =>
      "Golden sand dunes, camel treks, and spectacular desert camps."
    case SaharaMatchReason =>
      "Vast sand dunes and authentic desert experience"
    case SaharaBestSeason =>
      "October - April"
    case AntelopeCanyonImageUrl =>
      "https://images.pexels.com/photos/33041/antelope-canyon-lower-canyon-arizona.jpg?auto=compress&cs=tinysrgb&w=800"
    case AntelopeCanyonDescription =>
      "Stunning slot canyons with incredible light beams and rock formations."
    case AntelopeCanyonMatchReason =>
      "Unique desert rock formations and dramatic landscapes"
    case AntelopeCanyonBestSeason =>
      "March - May, September - November"
    case WadiRumImageUrl =>
      "https://images.pexels.com/photos/4913723/pexels-photo-4913723.jpeg?auto=compress&cs=tinysrgb&w=800"
    case WadiRumDescription =>
      "Mars-like landscapes with incredible rock formations and Bedouin culture."
    case WadiRumMatchReason =>
      "Red desert landscapes with dramatic rock formations"
    case WadiRumBestSeason =>
      "October - April"
    case DesertType =>
      "\U{1F3DC}\U{FE0F} Desert Adventure"
    case DesertDescription =>
      "Your image showcases stunning desert landscapes - perfect for unique adventures and breathtaking sunsets!"
    case DesertSeasonalAdvice =>
      "\U{1F3DC}\U{FE0F} Desert destinations are best visited during cooler months. Avoid summer when temperatures can be extreme!"
  }
}

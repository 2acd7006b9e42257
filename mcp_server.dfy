/**
 * The planting-advice tool of the MCP server: constant per-crop advice, the
 * crop × soil compatibility table, the crop × season notes, and the result
 * they are assembled into.
 */
module McpServer {
  import opened Models
  import WeatherResources

  /** The soil classes the tool accepts. */
  datatype Soil = ClaySoil | LoamSoil | SandySoil | SiltSoil

  /** The planting seasons the tool accepts. */
  datatype Season = Spring | Summer | Fall

  /** The rating word that opens each compatibility text. */
  datatype Rating = Excellent | VeryGood | Good | Fair | Poor {
    function Text(): string {
      match this
      case Excellent => "Excellent"
      case VeryGood => "Very good"
      case Good => "Good"
      case Fair => "Fair"
      case Poor => "Poor"
    }
  }

  /** A compatibility entry: its text is the rating, " - ", and the reason. */
  datatype Compatibility = Compatibility(rating: Rating, reason: string) {
    function Text(): string {
      rating.Text() + " - " + reason
    }
  }

  /** `_check_soil_compatibility`: an entry for every crop and soil. Loam is
      rated excellent for every crop, and loam only; the one poor rating is
      wheat on sandy soil. */
  function SoilCompatibility(crop: CropType, soil: Soil): (c: Compatibility)
    ensures c.rating == Excellent <==> soil == LoamSoil
    ensures c.rating == Poor <==> crop == Wheat && soil == SandySoil
  {
    match (crop, soil)
    case (Corn, ClaySoil) => Compatibility(Good, "retains moisture and nutrients well")
    case (Corn, LoamSoil) => Compatibility(Excellent, "ideal growing medium")
    case (Corn, SandySoil) => Compatibility(Fair, "may need more irrigation and fertilization")
    case (Corn, SiltSoil) => Compatibility(Good, "good drainage and nutrient retention")
    case (Wheat, ClaySoil) => Compatibility(Good, "retains moisture for winter varieties")
    case (Wheat, LoamSoil) => Compatibility(Excellent, "best overall performance")
    case (Wheat, SandySoil) => Compatibility(Poor, "may need significant amendments")
    case (Wheat, SiltSoil) => Compatibility(VeryGood, "excellent water and nutrient retention")
    case (Sunflower, ClaySoil) => Compatibility(Fair, "ensure good drainage to prevent root rot")
    case (Sunflower, LoamSoil) => Compatibility(Excellent, "optimal growing conditions")
    case (Sunflower, SandySoil) => Compatibility(Good, "naturally well-draining")
    case (Sunflower, SiltSoil) => Compatibility(Good, "adequate drainage with good nutrients")
  }

  /** A seasonal note, either advice or a "Not recommended" with its reason. */
  datatype SeasonalNote = Advice(text: string) | NotRecommended(reason: string) {
    function Text(): string {
      match this
      case Advice(text) => text
      case NotRecommended(reason) => "Not recommended - " + reason
    }
  }

  /** `_get_seasonal_notes`: a note for every crop and season; fall planting
      is not recommended exactly for corn and sunflower. */
  function SeasonalNotes(crop: CropType, season: Season): (n: SeasonalNote)
    ensures n.NotRecommended? <==> season == Fall && crop != Wheat
  {
    match (crop, season)
    case (Corn, Spring) => Advice("Plant after last frost when soil reaches 10Â°C")
    case (Corn, Summer) => Advice("Early summer planting possible in northern regions")
    case (Corn, Fall) => NotRecommended("insufficient growing season")
    case (Wheat, Spring) => Advice("Plant early spring for spring wheat varieties")
    case (Wheat, Summer) => Advice("Not typical planting season")
    case (Wheat, Fall) => Advice("Ideal for winter wheat varieties")
    case (Sunflower, Spring) => Advice("Plant after last frost, soil temperature 10Â°C+")
    case (Sunflower, Summer) => Advice("Early summer planting possible")
    case (Sunflower, Fall) => NotRecommended("insufficient time to maturity")
  }

  /** The per-crop entry of `crop_advice`. */
  datatype CropAdvice = CropAdvice(soilTempMin: int, plantingDepth: string, rowSpacing: string, optimalPh: string)

  function CropAdviceFor(crop: CropType): (a: CropAdvice)
    ensures a.soilTempMin == (if crop == Wheat then 4 else 10)
  {
    match crop
    case Corn => CropAdvice(10, "1.5-2 inches", "30-36 inches", "6.0-6.8")
    case Wheat => CropAdvice(4, "1-2 inches", "6-8 inches", "6.0-7.0")
    case Sunflower => CropAdvice(10, "1.5-2.5 inches", "20-30 inches", "6.0-7.5")
  }

  /** The advice's soil minimum and the crop calendar's agree for corn and
      wheat; for sunflower the advice says 10 °C where the calendar waits below 12 °C. */
  lemma SoilMinimumsAcrossTables(crop: CropType)
    ensures crop != Sunflower ==> CropAdviceFor(crop).soilTempMin as real == WeatherResources.MinimumSoilTemperature(crop)
    ensures crop == Sunflower ==> CropAdviceFor(crop).soilTempMin as real < WeatherResources.MinimumSoilTemperature(crop)
  {
  }

  datatype Recommendations = Recommendations(
    minimumSoilTemperature: int,
    plantingDepth: string,
    rowSpacing: string,
    optimalSoilPh: string,
    soilCompatibility: string,
    seasonalNotes: string)

  datatype PlantingAdviceResult = PlantingAdviceResult(
    cropType: CropType,
    latitude: real,
    longitude: real,
    soilType: Soil,
    season: Season,
    recommendations: Recommendations,
    nextSteps: seq<string>)

  const NextSteps: seq<string> := [
    "Test soil temperature and pH levels",
    "Prepare field with appropriate amendments",
    "Monitor weather forecast for planting window",
    "Ensure seed quality and treatment"]

  /** `get_crop_planting_advice`: echoes its inputs, copies the crop's advice,
      fills in both table lookups, and always lists the same four next steps. */
  function GetCropPlantingAdvice(crop: CropType, soil: Soil, latitude: real, longitude: real, season: Season): (r: PlantingAdviceResult)
    ensures r.cropType == crop && r.soilType == soil && r.season == season
    ensures r.latitude == latitude && r.longitude == longitude
    ensures r.recommendations.minimumSoilTemperature == (if crop == Wheat then 4 else 10)
    ensures r.recommendations.soilCompatibility == SoilCompatibility(crop, soil).Text()
    ensures r.recommendations.seasonalNotes == SeasonalNotes(crop, season).Text()
    ensures |r.nextSteps| == 4 && r.nextSteps == NextSteps
  {
    var advice := CropAdviceFor(crop);
    PlantingAdviceResult(
      crop, latitude, longitude, soil, season,
      Recommendations(advice.soilTempMin, advice.plantingDepth, advice.rowSpacing, advice.optimalPh,
                      SoilCompatibility(crop, soil).Text(), SeasonalNotes(crop, season).Text()),
      NextSteps)
  }
}

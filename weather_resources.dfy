/**
 * The module-level helpers of the weather resources: the three assessment
 * ladders shared with the tools, the crop-specific planting recommendation,
 * the crop calendar lookup and the forecast's irrigation outlook.
 */
module WeatherResources {
  import opened Outcomes
  import opened Models
  import opened Text
  import opened OrderedDicts
  import opened WeatherLabels
  import Tools = WeatherTools

  /** `_assess_planting_conditions`, with the tools' thresholds and precedence. */
  function AssessPlantingConditions(w: Observation): (a: PlantingAssessment)
    ensures a == Tools.AssessPlantingConditions(w)
  {
    if w.temperature < 10.0 then TooCold
    else if w.temperature > 35.0 then TooHot
    else if w.precipitation > 10.0 then TooWet
    else if Truthy(w.soilMoisture) && w.soilMoisture.value < 30.0 then SoilTooDry
    else GoodPlanting
  }

  /** `_assess_irrigation_need`, with the tools' thresholds and precedence. */
  function AssessIrrigationNeed(w: Observation): (n: IrrigationNeed)
    ensures n == Tools.AssessIrrigationNeed(w)
  {
    if Truthy(w.soilMoisture) && w.soilMoisture.value < 40.0 then IrrigationRecommended
    else if w.precipitation > 5.0 then NoIrrigationNeeded
    else MonitorSoilMoisture
  }

  /** `_assess_field_work_conditions`, with the tools' thresholds and precedence. */
  function AssessFieldWorkConditions(w: Observation): (f: FieldWork)
    ensures f == Tools.AssessFieldWorkConditions(w)
  {
    if w.precipitation > 2.0 then NotSuitableWet
    else if w.windSpeed > 15.0 then CautionHighWinds
    else SuitableForWork
  }

  datatype PlantingRecommendation =
    | CornTooCold | CornTooHot | CornGood
    | WheatTooCold | WheatExcellent | WheatAcceptable
    | SunflowerTooCold | SunflowerIdeal | SunflowerAcceptable
    | MonitorConditions
  {
    function Text(): string {
      match this
      case CornTooCold => "Wait - soil temperature too low for corn planting"
      case CornTooHot => "Consider waiting for cooler weather"
      case CornGood => "Good conditions for corn planting"
      case WheatTooCold => "Wait - soil temperature too low for wheat"
      case WheatExcellent => "Excellent conditions for wheat planting"
      case WheatAcceptable => "Acceptable conditions for wheat planting"
      case SunflowerTooCold => "Wait - soil temperature too low for sunflowers"
      case SunflowerIdeal => "Ideal conditions for sunflower planting"
      case SunflowerAcceptable => "Acceptable conditions for sunflower planting"
      case MonitorConditions => "Monitor temperature and soil conditions for optimal planting"
    }
  }

  /** `weather.soil_temperature or temp - 2`: a missing or zero soil reading is
      estimated two degrees below the air. */
  function SoilTemperatureOrEstimate(w: Observation): (s: real)
    ensures Truthy(w.soilTemperature) ==> s == w.soilTemperature.value
    ensures !Truthy(w.soilTemperature) ==> s == w.temperature - 2.0
  {
    if Truthy(w.soilTemperature) then w.soilTemperature.value else w.temperature - 2.0
  }

  /** The soil threshold below which each crop waits. */
  function MinimumSoilTemperature(crop: CropType): real {
    match crop
    case Corn => 10.0
    case Wheat => 4.0
    case Sunflower => 12.0
  }

  /** `_get_planting_recommendation`: the crop name is matched case-insensitively;
      each crop first waits for its soil threshold, then grades the air temperature. */
  function GetPlantingRecommendation(cropType: string, w: Observation): (r: PlantingRecommendation)
    ensures Lower(cropType) == "corn" ==>
      (r == CornTooCold <==> SoilTemperatureOrEstimate(w) < MinimumSoilTemperature(Corn)) &&
      (r == CornTooHot <==> SoilTemperatureOrEstimate(w) >= 10.0 && w.temperature > 30.0)
    ensures Lower(cropType) == "wheat" ==>
      (r == WheatTooCold <==> SoilTemperatureOrEstimate(w) < MinimumSoilTemperature(Wheat)) &&
      (r == WheatExcellent <==> SoilTemperatureOrEstimate(w) >= 4.0 && 15.0 <= w.temperature <= 25.0)
    ensures Lower(cropType) == "sunflower" ==>
      (r == SunflowerTooCold <==> SoilTemperatureOrEstimate(w) < MinimumSoilTemperature(Sunflower)) &&
      (r == SunflowerIdeal <==> SoilTemperatureOrEstimate(w) >= 12.0 && 20.0 <= w.temperature <= 28.0)
    ensures Lower(cropType) == "corn" ==> r in {CornTooCold, CornTooHot, CornGood}
    ensures Lower(cropType) == "wheat" ==> r in {WheatTooCold, WheatExcellent, WheatAcceptable}
    ensures Lower(cropType) == "sunflower" ==> r in {SunflowerTooCold, SunflowerIdeal, SunflowerAcceptable}
    ensures r == MonitorConditions <==> Lower(cropType) !in {"corn", "wheat", "sunflower"}
  {
    var temp := w.temperature;
    var soilTemp := SoilTemperatureOrEstimate(w);
    var crop := Lower(cropType);
    if crop == "corn" then
      if soilTemp < 10.0 then CornTooCold else if temp > 30.0 then CornTooHot else CornGood
    else if crop == "wheat" then
      if soilTemp < 4.0 then WheatTooCold else if 15.0 <= temp <= 25.0 then WheatExcellent else WheatAcceptable
    else if crop == "sunflower" then
      if soilTemp < 12.0 then SunflowerTooCold else if 20.0 <= temp <= 28.0 then SunflowerIdeal else SunflowerAcceptable
    else MonitorConditions
  }

  /** Without a soil reading, corn at 11 °C air waits (soil estimated at 9 °C),
      and "CORN" is read as "corn". */
  lemma CornEstimateExample(w: Observation)
    requires w.temperature == 11.0 && w.soilTemperature == None
    ensures GetPlantingRecommendation("CORN", w) == CornTooCold
  {
    assert Lower("CORN") == "corn";
  }

  /** The crop calendar entry. */
  datatype CropInfo = CropInfo(optimalTempRange: string, plantingSeason: string, soilTempRequirement: string, growingDays: string)

  const CornInfo := CropInfo("20-30°C", "Spring (April-June)", "10°C+", "90-120 days")
  const WheatInfo := CropInfo("15-25°C", "Fall (September-November) or Spring (March-May)", "4°C+", "120-150 days")
  const SunflowerInfo := CropInfo("20-28°C", "Late Spring (May-June)", "12°C+", "80-120 days")

  const CropCalendarTable: Dict<CropInfo> := [("corn", CornInfo), ("wheat", WheatInfo), ("sunflower", SunflowerInfo)]

  /** `crop_info.get(crop_type.lower(), crop_info["corn"])`: an unknown crop gets the corn entry. */
  function CropCalendar(cropType: string): (info: CropInfo)
    ensures Lower(cropType) == "wheat" ==> info == WheatInfo
    ensures Lower(cropType) == "sunflower" ==> info == SunflowerInfo
    ensures Lower(cropType) !in {"wheat", "sunflower"} ==> info == CornInfo
  {
    CalendarKeys(Lower(cropType));
    match Get(CropCalendarTable, Lower(cropType))
    case Some(entry) => entry
    case None => CornInfo
  }

  lemma CalendarKeys(k: string)
    ensures Get(CropCalendarTable, k) ==
              if k == "corn" then Some(CornInfo) else if k == "wheat" then Some(WheatInfo)
              else if k == "sunflower" then Some(SunflowerInfo) else None
  {
    assert CropCalendarTable[0].0 == "corn" && CropCalendarTable[1].0 == "wheat" && CropCalendarTable[2].0 == "sunflower";
    if k !in {"corn", "wheat", "sunflower"} {
      assert !HasKey(CropCalendarTable, k);
    }
  }

  /** The calendar's soil requirement names the same threshold the planting
      recommendation waits for, crop by crop. */
  lemma CalendarMatchesRecommendation(crop: CropType)
    ensures CropCalendar(crop.Name()).soilTempRequirement ==
              match crop case Corn => "10°C+" case Wheat => "4°C+" case Sunflower => "12°C+"
    ensures MinimumSoilTemperature(crop) == match crop case Corn => 10.0 case Wheat => 4.0 case Sunflower => 12.0
  {
    match crop
    case Corn =>
      LowerOfLower("corn");
      assert CropCalendar("corn") == CornInfo;
    case Wheat =>
      LowerOfLower("wheat");
      assert CropCalendar("wheat") == WheatInfo;
    case Sunflower =>
      LowerOfLower("sunflower");
      assert CropCalendar("sunflower") == SunflowerInfo;
  }

  /** The forecast resource's irrigation outlook. */
  datatype IrrigationOutlook = LowNeeds | ModerateToHighNeeds {
    function Text(): string {
      match this
      case LowNeeds => "Low"
      case ModerateToHighNeeds => "Moderate to High"
    }
  }

  /** Irrigation needs are low iff the forecast's total rain exceeds 15 mm. */
  function ForecastIrrigationNeeds(fs: seq<Observation>): (o: IrrigationOutlook)
    ensures o == LowNeeds <==> TotalPrecipitation(fs) > 15.0
  {
    if TotalPrecipitation(fs) > 15.0 then LowNeeds else ModerateToHighNeeds
  }

  /** The resource's outlook and the tools' irrigation priority draw the same
      line: low needs exactly when the tools give a low priority. */
  lemma OutlookAgreesWithTools(fs: seq<Observation>)
    requires fs != []
    ensures ForecastIrrigationNeeds(fs) == LowNeeds <==> Tools.AnalyzeForecast(fs).value.irrigationPriority == LowPriority
  {
  }
}

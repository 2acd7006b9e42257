/**
 * The second copy of the weather tools. Its helpers are defined afresh from
 * their own text and each is proved to agree with the first copy on every input.
 */
module WeatherToolsNew {
  import opened Outcomes
  import opened Models
  import opened WeatherLabels
  import Tools = WeatherTools

  function AssessPlantingConditions(w: Observation): (a: PlantingAssessment)
    ensures a == Tools.AssessPlantingConditions(w)
  {
    if w.temperature < 10.0 then TooCold
    else if w.temperature > 35.0 then TooHot
    else if w.precipitation > 10.0 then TooWet
    else if w.soilMoisture.Some? && w.soilMoisture.value != 0.0 && w.soilMoisture.value < 30.0 then SoilTooDry
    else GoodPlanting
  }

  function AssessIrrigationNeed(w: Observation): (n: IrrigationNeed)
    ensures n == Tools.AssessIrrigationNeed(w)
  {
    if w.soilMoisture.Some? && w.soilMoisture.value != 0.0 && w.soilMoisture.value < 40.0 then IrrigationRecommended
    else if w.precipitation > 5.0 then NoIrrigationNeeded
    else MonitorSoilMoisture
  }

  function AssessFieldWorkConditions(w: Observation): (f: FieldWork)
    ensures f == Tools.AssessFieldWorkConditions(w)
  {
    if w.precipitation > 2.0 then NotSuitableWet
    else if w.windSpeed > 15.0 then CautionHighWinds
    else SuitableForWork
  }

  function AssessSoilTemperature(t: real): (b: SoilTemperatureBand)
    ensures b == Tools.AssessSoilTemperature(t)
  {
    if t < 5.0 then ColdSoil
    else if t < 10.0 then CoolSoil
    else if t < 15.0 then ModerateSoil
    else if t < 25.0 then WarmSoil
    else HotSoil
  }

  function AssessSoilMoisture(m: real): (b: SoilMoistureBand)
    ensures b == Tools.AssessSoilMoisture(m)
  {
    if m < 20.0 then DrySoil
    else if m < 40.0 then LowMoisture
    else if m < 70.0 then GoodMoisture
    else if m < 85.0 then HighMoisture
    else Waterlogged
  }

  function AssessOverallSoilConditions(soil: Tools.SoilData): (o: OverallSoil)
    ensures o == Tools.AssessOverallSoilConditions(soil)
  {
    var temp := if soil.temperature.Some? then soil.temperature.value else 0.0;
    var moisture := if soil.moisture.Some? then soil.moisture.value else 0.0;
    if temp < 10.0 || moisture < 30.0 then WaitForBetterConditions
    else if temp > 25.0 && moisture > 80.0 then MonitorStress
    else GoodForOperations
  }

  /** The work-day comprehension, element by element. */
  function GoodWorkDays(fs: seq<Observation>): (r: seq<Observation>)
    ensures r == Tools.GoodWorkDays(fs)
  {
    if fs == [] then []
    else (if fs[0].precipitation < 2.0 && fs[0].windSpeed < 15.0 then [fs[0]] else []) + GoodWorkDays(fs[1..])
  }

  /** The planting-day comprehension, element by element. */
  function SuitablePlantingDays(fs: seq<Observation>): (r: seq<Observation>)
    ensures r == Tools.SuitablePlantingDays(fs)
  {
    if fs == [] then []
    else (if 10.0 <= fs[0].temperature <= 30.0 && fs[0].precipitation < 5.0 then [fs[0]] else []) + SuitablePlantingDays(fs[1..])
  }

  function PlantingForecastAdvice(fs: seq<Observation>): (a: PlantingAdvice)
    ensures a == Tools.PlantingForecastAdvice(fs)
  {
    var n := |SuitablePlantingDays(fs)|;
    if n >= 3 then GoodWindow else if n >= 1 then LimitedOpportunities else WaitForPlanting
  }

  function AssessPestDiseaseRisk(avgTemperature: real, avgHumidity: real, totalPrecipitation: real): (r: PestRisk)
    ensures r == Tools.AssessPestDiseaseRisk(avgTemperature, avgHumidity, totalPrecipitation)
  {
    if avgHumidity > 80.0 && totalPrecipitation > 20.0 then HighDiseaseRisk
    else if avgTemperature > 25.0 && avgHumidity < 50.0 then ModeratePestRisk
    else LowToModerateRisk
  }

  function AnalyzeForecast(fs: seq<Observation>): (r: Result<Tools.ForecastAnalysis, string>)
    ensures r == Tools.AnalyzeForecast(fs)
  {
    if fs == [] then Err("No forecast data available")
    else
      var total := TotalPrecipitation(fs);
      var avgTemperature := Tools.Average(TotalTemperature(fs), |fs|);
      var avgHumidity := Tools.Average(TotalHumidity(fs), |fs|);
      Ok(Tools.ForecastAnalysis(
        total, avgTemperature, avgHumidity,
        |GoodWorkDays(fs)|,
        if total > 15.0 then LowPriority else HighPriority,
        PlantingForecastAdvice(fs),
        AssessPestDiseaseRisk(avgTemperature, avgHumidity, total)))
  }
}

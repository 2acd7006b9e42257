/**
 * The agricultural assessment helpers of the weather tools: threshold ladders
 * over one observation, soil bands, and the forecast summary.
 */
module WeatherTools {
  import opened Outcomes
  import opened Models
  import opened WeatherLabels

  /** `_assess_planting_conditions`: cold, then hot, then wet, then dry soil
      (a zero moisture reading counts as no reading), else good. */
  function AssessPlantingConditions(w: Observation): (a: PlantingAssessment)
    ensures a == TooCold <==> w.temperature < 10.0
    ensures a == TooHot <==> 10.0 <= w.temperature && w.temperature > 35.0
    ensures a == TooWet <==> 10.0 <= w.temperature <= 35.0 && w.precipitation > 10.0
    ensures a == SoilTooDry <==> 10.0 <= w.temperature <= 35.0 && w.precipitation <= 10.0
                                 && Truthy(w.soilMoisture) && w.soilMoisture.value < 30.0
    ensures a == GoodPlanting ==> 10.0 <= w.temperature <= 35.0 && w.precipitation <= 10.0
  {
    if w.temperature < 10.0 then TooCold
    else if w.temperature > 35.0 then TooHot
    else if w.precipitation > 10.0 then TooWet
    else if Truthy(w.soilMoisture) && w.soilMoisture.value < 30.0 then SoilTooDry
    else GoodPlanting
  }

  /** `_assess_irrigation_need`: a truthy moisture below 40 asks for irrigation;
      otherwise more than 5 mm of rain makes it unnecessary. */
  function AssessIrrigationNeed(w: Observation): (n: IrrigationNeed)
    ensures n == IrrigationRecommended <==> Truthy(w.soilMoisture) && w.soilMoisture.value < 40.0
    ensures n == NoIrrigationNeeded <==> !(Truthy(w.soilMoisture) && w.soilMoisture.value < 40.0) && w.precipitation > 5.0
  {
    if Truthy(w.soilMoisture) && w.soilMoisture.value < 40.0 then IrrigationRecommended
    else if w.precipitation > 5.0 then NoIrrigationNeeded
    else MonitorSoilMoisture
  }

  /** `_assess_field_work_conditions`: wet above 2 mm, then windy above 15 m/s. */
  function AssessFieldWorkConditions(w: Observation): (f: FieldWork)
    ensures f == NotSuitableWet <==> w.precipitation > 2.0
    ensures f == CautionHighWinds <==> w.precipitation <= 2.0 && w.windSpeed > 15.0
    ensures f == SuitableForWork <==> w.precipitation <= 2.0 && w.windSpeed <= 15.0
  {
    if w.precipitation > 2.0 then NotSuitableWet
    else if w.windSpeed > 15.0 then CautionHighWinds
    else SuitableForWork
  }

  /** A soil moisture of 0.0 is read exactly like a missing one by the planting
      and irrigation ladders. */
  lemma ZeroMoistureIsMissing(w: Observation)
    ensures AssessPlantingConditions(w.(soilMoisture := Some(0.0))) == AssessPlantingConditions(w.(soilMoisture := None))
    ensures AssessIrrigationNeed(w.(soilMoisture := Some(0.0))) == AssessIrrigationNeed(w.(soilMoisture := None))
  {
  }

  /** Irrigation is recommended whenever the planting ladder blames dry soil. */
  lemma DrySoilNeedsIrrigation(w: Observation)
    requires AssessPlantingConditions(w) == SoilTooDry
    ensures AssessIrrigationNeed(w) == IrrigationRecommended
  {
  }

  /** `_assess_soil_temperature`: five bands split at 5, 10, 15 and 25 with strict `<`. */
  function AssessSoilTemperature(t: real): (b: SoilTemperatureBand)
    ensures b == ColdSoil <==> t < 5.0
    ensures b == CoolSoil <==> 5.0 <= t < 10.0
    ensures b == ModerateSoil <==> 10.0 <= t < 15.0
    ensures b == WarmSoil <==> 15.0 <= t < 25.0
    ensures b == HotSoil <==> 25.0 <= t
  {
    if t < 5.0 then ColdSoil
    else if t < 10.0 then CoolSoil
    else if t < 15.0 then ModerateSoil
    else if t < 25.0 then WarmSoil
    else HotSoil
  }

  /** Warmer soil never falls in a colder band. */
  lemma SoilTemperatureMonotone(t1: real, t2: real)
    requires t1 <= t2
    ensures AssessSoilTemperature(t1).Rank() <= AssessSoilTemperature(t2).Rank()
  {
  }

  /** `_assess_soil_moisture`: five bands split at 20, 40, 70 and 85 with strict `<`. */
  function AssessSoilMoisture(m: real): (b: SoilMoistureBand)
    ensures b == DrySoil <==> m < 20.0
    ensures b == LowMoisture <==> 20.0 <= m < 40.0
    ensures b == GoodMoisture <==> 40.0 <= m < 70.0
    ensures b == HighMoisture <==> 70.0 <= m < 85.0
    ensures b == Waterlogged <==> 85.0 <= m
  {
    if m < 20.0 then DrySoil
    else if m < 40.0 then LowMoisture
    else if m < 70.0 then GoodMoisture
    else if m < 85.0 then HighMoisture
    else Waterlogged
  }

  /** Wetter soil never falls in a drier band. */
  lemma SoilMoistureMonotone(m1: real, m2: real)
    requires m1 <= m2
    ensures AssessSoilMoisture(m1).Rank() <= AssessSoilMoisture(m2).Rank()
  {
  }

  /** The soil reading dictionary; a missing key reads as 0. */
  datatype SoilData = SoilData(temperature: Option<real>, moisture: Option<real>)

  function OrZero(x: Option<real>): real {
    if x.Some? then x.value else 0.0
  }

  /** `_assess_overall_soil_conditions`: waiting (cold or dry) takes priority
      over the heat-and-moisture stress case. */
  function AssessOverallSoilConditions(soil: SoilData): (o: OverallSoil)
    ensures o == WaitForBetterConditions <==> OrZero(soil.temperature) < 10.0 || OrZero(soil.moisture) < 30.0
    ensures o == MonitorStress <==> !(OrZero(soil.temperature) < 10.0 || OrZero(soil.moisture) < 30.0)
                                    && OrZero(soil.temperature) > 25.0 && OrZero(soil.moisture) > 80.0
  {
    var temp := OrZero(soil.temperature);
    var moisture := OrZero(soil.moisture);
    if temp < 10.0 || moisture < 30.0 then WaitForBetterConditions
    else if temp > 25.0 && moisture > 80.0 then MonitorStress
    else GoodForOperations
  }

  /** A reading with either value missing always says to wait. */
  lemma MissingSoilDataWaits(soil: SoilData)
    requires soil.temperature.None? || soil.moisture.None?
    ensures AssessOverallSoilConditions(soil) == WaitForBetterConditions
  {
  }

  /** The planting assessment of `get_soil_conditions`. */
  datatype SoilAssessment = SoilAssessment(
    temperatureSuitable: SoilTemperatureBand,
    moistureSuitable: SoilMoistureBand,
    overallConditions: OverallSoil)

  /** `get_soil_conditions`: the two bands of the readings (missing as 0) and the overall verdict. */
  function AssessSoilConditions(soil: SoilData): (a: SoilAssessment)
    ensures a.temperatureSuitable == AssessSoilTemperature(OrZero(soil.temperature))
    ensures a.moistureSuitable == AssessSoilMoisture(OrZero(soil.moisture))
    ensures a.overallConditions == WaitForBetterConditions ==>
              a.temperatureSuitable.Rank() <= CoolSoil.Rank() || a.moistureSuitable.Rank() <= LowMoisture.Rank()
  {
    SoilAssessment(AssessSoilTemperature(OrZero(soil.temperature)), AssessSoilMoisture(OrZero(soil.moisture)),
                   AssessOverallSoilConditions(soil))
  }

  // ---------------------------------------------------------------------------
  // Forecast analysis

  predicate GoodWorkDay(w: Observation) {
    w.precipitation < 2.0 && w.windSpeed < 15.0
  }

  /** The entries with under 2 mm of rain and under 15 m/s of wind, in order. */
  function GoodWorkDays(fs: seq<Observation>): (r: seq<Observation>)
    ensures |r| <= |fs|
    ensures forall w :: w in r ==> w in fs && GoodWorkDay(w)
    ensures forall i :: 0 <= i < |fs| && GoodWorkDay(fs[i]) ==> fs[i] in r
    ensures r == [] <==> forall i :: 0 <= i < |fs| ==> !GoodWorkDay(fs[i])
  {
    if fs == [] then []
    else (if GoodWorkDay(fs[0]) then [fs[0]] else []) + GoodWorkDays(fs[1..])
  }

  /** Every kept entry is kept as often as it occurs, so the count of the
      result is the number of qualifying entries. */
  lemma {:induction false} GoodWorkDaysMultiplicity(fs: seq<Observation>)
    ensures forall w :: multiset(GoodWorkDays(fs))[w] == if GoodWorkDay(w) then multiset(fs)[w] else 0
  {
    if fs != [] {
      GoodWorkDaysMultiplicity(fs[1..]);
      assert fs == [fs[0]] + fs[1..];
    }
  }

  predicate SuitablePlantingDay(w: Observation) {
    10.0 <= w.temperature <= 30.0 && w.precipitation < 5.0
  }

  /** The entries between 10 and 30 °C with under 5 mm of rain, in order. */
  function SuitablePlantingDays(fs: seq<Observation>): (r: seq<Observation>)
    ensures |r| <= |fs|
    ensures forall w :: w in r ==> w in fs && SuitablePlantingDay(w)
    ensures forall i :: 0 <= i < |fs| && SuitablePlantingDay(fs[i]) ==> fs[i] in r
    ensures r == [] <==> forall i :: 0 <= i < |fs| ==> !SuitablePlantingDay(fs[i])
  {
    if fs == [] then []
    else (if SuitablePlantingDay(fs[0]) then [fs[0]] else []) + SuitablePlantingDays(fs[1..])
  }

  /** Every kept entry is kept as often as it occurs, so the count of the
      result is the number of qualifying entries. */
  lemma {:induction false} SuitablePlantingDaysMultiplicity(fs: seq<Observation>)
    ensures forall w :: multiset(SuitablePlantingDays(fs))[w] == if SuitablePlantingDay(w) then multiset(fs)[w] else 0
  {
    if fs != [] {
      SuitablePlantingDaysMultiplicity(fs[1..]);
      assert fs == [fs[0]] + fs[1..];
    }
  }

  /** The suitable days of two stretches of forecast are those of each, in order. */
  lemma {:induction false} SuitablePlantingDaysAppend(a: seq<Observation>, b: seq<Observation>)
    ensures SuitablePlantingDays(a + b) == SuitablePlantingDays(a) + SuitablePlantingDays(b)
  {
    if a != [] {
      var head := if SuitablePlantingDay(a[0]) then [a[0]] else [];
      assert (a + b)[0] == a[0] && (a + b)[1..] == a[1..] + b;
      assert SuitablePlantingDays(a + b) == head + SuitablePlantingDays(a[1..] + b);
      SuitablePlantingDaysAppend(a[1..], b);
      assert SuitablePlantingDays(a) == head + SuitablePlantingDays(a[1..]);
    } else {
      assert a + b == b;
    }
  }

  /** `_get_planting_forecast_advice`: three or more suitable days make a good
      window, one or two limited opportunities, none a wait. */
  function PlantingForecastAdvice(fs: seq<Observation>): (a: PlantingAdvice)
    ensures a == GoodWindow <==> |SuitablePlantingDays(fs)| >= 3
    ensures a == LimitedOpportunities <==> 1 <= |SuitablePlantingDays(fs)| <= 2
    ensures a == WaitForPlanting <==> forall i :: 0 <= i < |fs| ==> !SuitablePlantingDay(fs[i])
  {
    var n := |SuitablePlantingDays(fs)|;
    if n >= 3 then GoodWindow else if n >= 1 then LimitedOpportunities else WaitForPlanting
  }

  /** A longer forecast never gives worse planting advice. */
  lemma PlantingAdviceMonotone(fs: seq<Observation>, more: seq<Observation>)
    ensures PlantingForecastAdvice(fs).Rank() <= PlantingForecastAdvice(fs + more).Rank()
  {
    SuitablePlantingDaysAppend(fs, more);
  }

  /** `_assess_pest_disease_risk`: very humid and wet is high, warm and dry is moderate. */
  function AssessPestDiseaseRisk(avgTemperature: real, avgHumidity: real, totalPrecipitation: real): (r: PestRisk)
    ensures r == HighDiseaseRisk <==> avgHumidity > 80.0 && totalPrecipitation > 20.0
    ensures r == ModeratePestRisk <==> !(avgHumidity > 80.0 && totalPrecipitation > 20.0) && avgTemperature > 25.0 && avgHumidity < 50.0
  {
    if avgHumidity > 80.0 && totalPrecipitation > 20.0 then HighDiseaseRisk
    else if avgTemperature > 25.0 && avgHumidity < 50.0 then ModeratePestRisk
    else LowToModerateRisk
  }

  /** The two risk conditions never hold together (humidity cannot be both above
      80 and below 50), so the order of the ladder's first two rungs is immaterial. */
  lemma PestRiskOrderImmaterial(avgTemperature: real, avgHumidity: real, totalPrecipitation: real)
    ensures AssessPestDiseaseRisk(avgTemperature, avgHumidity, totalPrecipitation) ==
            (if avgTemperature > 25.0 && avgHumidity < 50.0 then ModeratePestRisk
             else if avgHumidity > 80.0 && totalPrecipitation > 20.0 then HighDiseaseRisk
             else LowToModerateRisk)
  {
  }

  /** The summary and recommendations of `_analyze_forecast_for_agriculture`. */
  datatype ForecastAnalysis = ForecastAnalysis(
    totalPrecipitation: real,
    averageTemperature: real,
    averageHumidity: real,
    optimalWorkDays: nat,
    irrigationPriority: IrrigationPriority,
    plantingAdvice: PlantingAdvice,
    pestDiseaseRisk: PestRisk)

  const NoForecastData := "No forecast data available"

  /** `_analyze_forecast_for_agriculture`: an empty forecast is an error;
      otherwise the totals and averages, the count of good work days, a low
      irrigation priority iff more than 15 mm of rain, and the two advices. */
  function AnalyzeForecast(fs: seq<Observation>): (r: Result<ForecastAnalysis, string>)
    ensures r.Err? <==> fs == []
    ensures r.Err? ==> r.error == NoForecastData
    ensures r.Ok? ==> r.value.optimalWorkDays == |GoodWorkDays(fs)| <= |fs|
    ensures r.Ok? ==> r.value.totalPrecipitation == TotalPrecipitation(fs)
    ensures r.Ok? ==> r.value.averageTemperature == Average(TotalTemperature(fs), |fs|)
    ensures r.Ok? ==> r.value.averageHumidity == Average(TotalHumidity(fs), |fs|)
    ensures r.Ok? ==> (r.value.irrigationPriority == LowPriority <==> TotalPrecipitation(fs) > 15.0)
    ensures r.Ok? ==> r.value.plantingAdvice == PlantingForecastAdvice(fs)
    ensures r.Ok? ==> r.value.pestDiseaseRisk == AssessPestDiseaseRisk(r.value.averageTemperature, r.value.averageHumidity, r.value.totalPrecipitation)
  {
    if fs == [] then Err(NoForecastData)
    else
      var total := TotalPrecipitation(fs);
      var avgTemperature := Average(TotalTemperature(fs), |fs|);
      var avgHumidity := Average(TotalHumidity(fs), |fs|);
      Ok(ForecastAnalysis(
        total, avgTemperature, avgHumidity,
        |GoodWorkDays(fs)|,
        if total > 15.0 then LowPriority else HighPriority,
        PlantingForecastAdvice(fs),
        AssessPestDiseaseRisk(avgTemperature, avgHumidity, total)))
  }

  /** The mean of `n` values summing to `total`. */
  function Average(total: real, n: nat): (a: real)
    requires n > 0
    ensures a * (n as real) == total
  {
    total / (n as real)
  }

  /** In a valid forecast the average humidity, as reported, lies in [0, 100]. */
  lemma AverageHumidityBounded(fs: seq<Observation>)
    requires fs != []
    requires forall i :: 0 <= i < |fs| ==> ValidObservation(fs[i])
    ensures 0.0 <= Average(TotalHumidity(fs), |fs|) <= 100.0
  {
    TotalHumidityBounded(fs);
    AverageBetween(TotalHumidity(fs), |fs|, 0.0, 100.0);
  }

  /** A mean lies between bounds that every value respects. */
  lemma AverageBetween(total: real, n: nat, lo: real, hi: real)
    requires n > 0
    requires lo * (n as real) <= total <= hi * (n as real)
    ensures lo <= Average(total, n) <= hi
  {
  }

  lemma {:induction false} TotalHumidityBounded(fs: seq<Observation>)
    requires forall i :: 0 <= i < |fs| ==> ValidObservation(fs[i])
    ensures 0.0 <= TotalHumidity(fs) <= 100.0 * (|fs| as real)
  {
    if fs != [] {
      TotalHumidityBounded(fs[..|fs| - 1]);
    }
  }
}

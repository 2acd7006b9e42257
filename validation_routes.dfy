/**
 * The recommendation and urgency rules inside the validation routes. Each
 * route receives a query its schema has already accepted.
 */
module ValidationRoutes {
  import opened Outcomes
  import opened Models
  import opened AdvancedValidation

  // ---------------------------------------------------------------------------
  // Soil analysis

  datatype SoilAdvice = Lime | Sulfur | OrganicMatter {
    function Text(): string {
      match this
      case Lime => "Consider lime application to raise soil pH"
      case Sulfur => "Consider sulfur application to lower soil pH"
      case OrganicMatter => "Add organic matter through cover crops or compost"
    }
  }

  /** `validate_soil_analysis`: a pH advice (lime below 6.0, sulfur above 7.5,
      neither in between), then the organic-matter advice below 3.0. */
  method ValidateSoilAnalysis(q: SoilAnalysisQuery) returns (recommendations: seq<SoilAdvice>)
    ensures Lime in recommendations <==> q.phLevel < 6.0
    ensures Sulfur in recommendations <==> q.phLevel > 7.5
    ensures OrganicMatter in recommendations <==> q.organicMatter < 3.0
    ensures !(Lime in recommendations && Sulfur in recommendations)
    ensures |recommendations| <= 2
    ensures |recommendations| == (if q.phLevel < 6.0 || q.phLevel > 7.5 then 1 else 0) + (if q.organicMatter < 3.0 then 1 else 0)
    ensures OrganicMatter in recommendations ==> recommendations[|recommendations| - 1] == OrganicMatter
  {
    recommendations := [];
    if q.phLevel < 6.0 {
      recommendations := recommendations + [Lime];
    } else if q.phLevel > 7.5 {
      recommendations := recommendations + [Sulfur];
    }
    if q.organicMatter < 3.0 {
      recommendations := recommendations + [OrganicMatter];
    }
  }

  // ---------------------------------------------------------------------------
  // Pest control

  datatype PestUrgency = LowUrgency | MediumUrgency | HighUrgency {
    function Text(): string {
      match this
      case LowUrgency => "low"
      case MediumUrgency => "medium"
      case HighUrgency => "high"
    }
  }

  /** The treatment urgency of an infestation level: low up to 2, medium at 3, high above. */
  function PestUrgencyOf(level: int): (u: PestUrgency)
    ensures u == LowUrgency <==> level <= 2
    ensures u == MediumUrgency <==> level == 3
    ensures u == HighUrgency <==> level >= 4
  {
    if level <= 2 then LowUrgency else if level == 3 then MediumUrgency else HighUrgency
  }

  /** The answer of the pest-control route. */
  datatype PestResponse = PestResponse(urgency: PestUrgency, description: string)

  /** `validate_pest_control`: the urgency of the stored level and its description, echoed. */
  function ValidatePestControl(info: InfestationInfo): (r: PestResponse)
    ensures r.description == info.description
    ensures r.urgency == PestUrgencyOf(info.level)
  {
    PestResponse(if info.level <= 2 then LowUrgency else if info.level == 3 then MediumUrgency else HighUrgency,
                 info.description)
  }

  /** Over the levels the schema admits, urgency never decreases with the level,
      and the level-3 query of the pest test is of medium urgency. */
  lemma PestUrgencyMonotone(a: int, b: int)
    requires 1 <= a <= b <= 5
    ensures PestUrgencyOf(a) == HighUrgency ==> PestUrgencyOf(b) == HighUrgency
    ensures PestUrgencyOf(b) == LowUrgency ==> PestUrgencyOf(a) == LowUrgency
    ensures ValidatePestControl(ValidateInfestation(3).value).urgency == MediumUrgency
  {
  }

  // ---------------------------------------------------------------------------
  // Irrigation schedule

  /** `validate_irrigation_schedule`: the urgency the query's validator stored, unchanged. */
  method ValidateIrrigationSchedule(q: IrrigationScheduleQuery) returns (urgency: string)
    ensures urgency == q.urgency
  {
    urgency := q.urgency;
  }

  /** A query accepted by its schema reaches the route with the ladder's urgency. */
  method IrrigationRouteReportsLadder(soilMoisture: real, expectedRainfall: real, temperature: real, humidity: real, windSpeed: real)
    returns (urgency: Option<string>)
    ensures urgency.Some? <==> IrrigationScheduleQuery.FieldsValid(soilMoisture, expectedRainfall, windSpeed)
    ensures urgency.Some? ==> urgency.value == UrgencyOf(soilMoisture, expectedRainfall, temperature, humidity).Text()
  {
    var r := IrrigationScheduleQuery.Validate("corn", "vegetative", soilMoisture, expectedRainfall, temperature, humidity, windSpeed);
    if r.Ok? {
      var u := ValidateIrrigationSchedule(r.value);
      urgency := Some(u);
    } else {
      urgency := None;
    }
  }

  // ---------------------------------------------------------------------------
  // Harvest timing

  datatype HarvestNote = Suitable | MoistureNote(grainMoisture: real) | RainNote(rainfallForecast: real)

  /** `validate_harvest_timing` (route): the gates run again; a rejection becomes
      an error, otherwise the notes start with "suitable", then a moisture note
      iff the grain moisture is truthy, then a rain note iff rain is forecast. */
  method ValidateHarvestTimingRoute(q: HarvestTimingQuery) returns (r: Result<seq<HarvestNote>, Reason>)
    ensures r.Err? <==> ValidateHarvestTiming(q).Fail?
    ensures r.Err? ==> r.error == ValidateHarvestTiming(q).error
    ensures r.Ok? ==> 1 <= |r.value| <= 3 && r.value[0] == Suitable
    ensures r.Ok? ==> (MoistureNote(if q.grainMoisture.Some? then q.grainMoisture.value else 0.0) in r.value <==> Truthy(q.grainMoisture))
    ensures r.Ok? ==> (RainNote(q.rainfallForecast) in r.value <==> q.rainfallForecast > 0.0)
    ensures r.Ok? ==> |r.value| == 1 + (if Truthy(q.grainMoisture) then 1 else 0) + (if q.rainfallForecast > 0.0 then 1 else 0)
    ensures r.Ok? && Truthy(q.grainMoisture) ==> r.value[1] == MoistureNote(q.grainMoisture.value)
    ensures r.Ok? && q.rainfallForecast > 0.0 ==> r.value[|r.value| - 1] == RainNote(q.rainfallForecast)
  {
    var check := ValidateHarvestTiming(q);
    if check.Fail? {
      return Err(check.error);
    }
    var recommendations := [Suitable];
    if Truthy(q.grainMoisture) {
      recommendations := recommendations + [MoistureNote(q.grainMoisture.value)];
    }
    if q.rainfallForecast > 0.0 {
      recommendations := recommendations + [RainNote(q.rainfallForecast)];
    }
    r := Ok(recommendations);
  }
}

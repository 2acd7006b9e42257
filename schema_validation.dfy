/**
 * The request schemas' range and ordering checks, and the normalisation of
 * the climate-zone name.
 */
module SchemaValidation {
  import opened Outcomes
  import opened Models
  import opened Text
  import OrderedDicts
  import KnowledgeService

  /** Why a schema rejects its input: a field outside its declared bounds, or a
      validator's own rejection. */
  datatype SchemaReason =
    | OutOfBounds(field: string)
    | EndBeforeStart | HarvestInPast
    | TemperatureOutOfRange
    | UnknownClimateZone
  {
    /** The message a validator raises (declared bounds carry the library's own text). */
    function Message(): string
      requires !OutOfBounds?
    {
      match this
      case EndBeforeStart => "End date must be after start date"
      case HarvestInPast => "Target harvest date must be in the future"
      case TemperatureOutOfRange => "Temperature must be between -50°C and 60°C"
      case UnknownClimateZone => "Climate zone must be one of: mediterranean, continental, tropical, semi_arid, humid_subtropical"
    }
  }

  /** `LocationQuery`: both coordinates are checked, bounds inclusive; the
      errors come in field order. */
  function ValidateLocation(latitude: real, longitude: real): (issues: seq<SchemaReason>)
    ensures issues == [] <==> -90.0 <= latitude <= 90.0 && -180.0 <= longitude <= 180.0
    ensures OutOfBounds("latitude") in issues <==> !(-90.0 <= latitude <= 90.0)
    ensures OutOfBounds("longitude") in issues <==> !(-180.0 <= longitude <= 180.0)
  {
    (if -90.0 <= latitude <= 90.0 then [] else [OutOfBounds("latitude")])
    + (if -180.0 <= longitude <= 180.0 then [] else [OutOfBounds("longitude")])
  }

  /** `validate_dates`: an end before the start is rejected; equal dates pass,
      and the check is skipped when either date is missing. */
  function ValidateDates(startDate: Option<Instant>, endDate: Option<Instant>): (r: Outcome<SchemaReason>)
    ensures r.Fail? <==> startDate.Some? && endDate.Some? && endDate.value < startDate.value
    ensures r.Fail? ==> r.error == EndBeforeStart
  {
    if startDate.Some? && endDate.Some? && endDate.value < startDate.value then Fail(EndBeforeStart) else Pass
  }

  /** `validate_harvest_date`: a target before now is rejected; a missing one passes. */
  function ValidateHarvestDate(targetHarvestDate: Option<Instant>, now: Instant): (r: Outcome<SchemaReason>)
    ensures r.Fail? <==> targetHarvestDate.Some? && targetHarvestDate.value < now
    ensures r.Fail? ==> r.error == HarvestInPast
  {
    if targetHarvestDate.Some? && targetHarvestDate.value < now then Fail(HarvestInPast) else Pass
  }

  /** `validate_temperature`: [-50, 60], bounds inclusive. */
  function ValidateTemperature(temperature: real): (r: Outcome<SchemaReason>)
    ensures r == Pass <==> -50.0 <= temperature <= 60.0
    ensures r.Fail? ==> r.error == TemperatureOutOfRange
  {
    if temperature < -50.0 || temperature > 60.0 then Fail(TemperatureOutOfRange) else Pass
  }

  /** `ProtectionMeasuresQuery`: the temperature check and the humidity bound [0, 100], in field order. */
  function ValidateConditions(temperature: real, humidity: real): (issues: seq<SchemaReason>)
    ensures issues == [] <==> -50.0 <= temperature <= 60.0 && 0.0 <= humidity <= 100.0
    ensures TemperatureOutOfRange in issues <==> !(-50.0 <= temperature <= 60.0)
    ensures OutOfBounds("humidity") in issues <==> !(0.0 <= humidity <= 100.0)
  {
    (match ValidateTemperature(temperature) case Pass => [] case Fail(reason) => [reason])
    + (if 0.0 <= humidity <= 100.0 then [] else [OutOfBounds("humidity")])
  }

  /** The zones a techniques query may name. */
  const ValidZones: seq<string> := ["mediterranean", "continental", "tropical", "semi_arid", "humid_subtropical"]

  /** `validate_climate_zone`: accepted iff the lower-cased name is a listed
      zone, and the stored value is that lower-cased name. */
  function ValidateClimateZone(zone: string): (r: Result<string, SchemaReason>)
    ensures r.Ok? <==> Lower(zone) in ValidZones
    ensures r.Ok? ==> r.value == Lower(zone) && IsLower(r.value)
    ensures r.Err? ==> r.error == UnknownClimateZone
  {
    LowerIsLower(zone);
    var lowered := Lower(zone);
    if lowered !in ValidZones then Err(UnknownClimateZone) else Ok(lowered)
  }

  /** Validating a stored zone again accepts it unchanged. */
  lemma ClimateZoneIdempotent(zone: string)
    requires ValidateClimateZone(zone).Ok?
    ensures ValidateClimateZone(ValidateClimateZone(zone).value) == ValidateClimateZone(zone)
  {
    LowerIsLower(zone);
  }

  /** The accepted zones are exactly those the knowledge base has modifications
      for, so an accepted zone always has modifications merged in. */
  lemma ValidZonesHaveModifications()
    ensures OrderedDicts.Keys(KnowledgeService.ClimateModifications) == ValidZones
  {
  }
}

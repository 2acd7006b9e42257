/**
 * The agronomic query validators: closed enumerations, field bounds, and the
 * rule checks each query runs after its fields are accepted.
 */
module AdvancedValidation {
  import opened Outcomes
  import opened Models

  // ---------------------------------------------------------------------------
  // Enumerations

  datatype SoilType = Clay | ClayLoam | Loam | SandyLoam | Sandy | SiltLoam | SiltyClay {
    function Value(): string {
      match this
      case Clay => "clay"
      case ClayLoam => "clay_loam"
      case Loam => "loam"
      case SandyLoam => "sandy_loam"
      case Sandy => "sandy"
      case SiltLoam => "silt_loam"
      case SiltyClay => "silty_clay"
    }
  }

  /** Köppen classes; the sub-arctic value is spelled "subarctic". */
  datatype ClimateZone = Mediterranean | Continental | Tropical | SemiArid | HumidSubtropical | Oceanic | Subarctic {
    function Value(): string {
      match this
      case Mediterranean => "mediterranean"
      case Continental => "continental"
      case Tropical => "tropical"
      case SemiArid => "semi_arid"
      case HumidSubtropical => "humid_subtropical"
      case Oceanic => "oceanic"
      case Subarctic => "subarctic"
    }
  }

  datatype IrrigationMethod = Drip | Sprinkler | Flood | CenterPivot | Subsurface {
    function Value(): string {
      match this
      case Drip => "drip"
      case Sprinkler => "sprinkler"
      case Flood => "flood"
      case CenterPivot => "center_pivot"
      case Subsurface => "subsurface"
    }
  }

  /** Parsing a soil type accepts exactly the enumeration values. */
  function ParseSoilType(s: string): (r: Option<SoilType>)
    ensures r.Some? ==> r.value.Value() == s
  {
    if s == "clay" then Some(Clay)
    else if s == "clay_loam" then Some(ClayLoam)
    else if s == "loam" then Some(Loam)
    else if s == "sandy_loam" then Some(SandyLoam)
    else if s == "sandy" then Some(Sandy)
    else if s == "silt_loam" then Some(SiltLoam)
    else if s == "silty_clay" then Some(SiltyClay)
    else None
  }

  /** Parsing a climate zone accepts exactly the enumeration values. */
  function ParseClimateZone(s: string): (r: Option<ClimateZone>)
    ensures r.Some? ==> r.value.Value() == s
  {
    if s == "mediterranean" then Some(Mediterranean)
    else if s == "continental" then Some(Continental)
    else if s == "tropical" then Some(Tropical)
    else if s == "semi_arid" then Some(SemiArid)
    else if s == "humid_subtropical" then Some(HumidSubtropical)
    else if s == "oceanic" then Some(Oceanic)
    else if s == "subarctic" then Some(Subarctic)
    else None
  }

  /** Parsing an irrigation method accepts exactly the enumeration values. */
  function ParseIrrigationMethod(s: string): (r: Option<IrrigationMethod>)
    ensures r.Some? ==> r.value.Value() == s
  {
    if s == "drip" then Some(Drip)
    else if s == "sprinkler" then Some(Sprinkler)
    else if s == "flood" then Some(Flood)
    else if s == "center_pivot" then Some(CenterPivot)
    else if s == "subsurface" then Some(Subsurface)
    else None
  }

  /** Every enumeration member parses back from its value, so values are distinct;
      "sub_arctic" is not a climate zone. */
  lemma EnumRoundTrips(soil: SoilType, zone: ClimateZone, irrigation: IrrigationMethod)
    ensures ParseSoilType(soil.Value()) == Some(soil)
    ensures ParseClimateZone(zone.Value()) == Some(zone)
    ensures ParseIrrigationMethod(irrigation.Value()) == Some(irrigation)
    ensures ParseClimateZone("sub_arctic") == None
  {
  }

  // ---------------------------------------------------------------------------
  // Rejections

  /** The messages the validators raise. */
  datatype Reason =
    | PlantingDateTooOld | PlantingDateTooFar
    | WheatSoil | WheatTropical
    | CornSeason | CornWater
    | NitrogenHigh | PhosphorusHigh | PotassiumHigh
    | InsufficientDegreeDays | GrainMoistureHigh
  {
    function Message(): string {
      match this
      case PlantingDateTooOld => "Planting date cannot be more than a year in the past"
      case PlantingDateTooFar => "Planting date cannot be more than a year in the future"
      case WheatSoil => "Wheat prefers loamy or clay loam soils"
      case WheatTropical => "Wheat is not suitable for tropical climates"
      case CornSeason => "Corn requires longer growing seasons"
      case CornWater => "Corn requires either irrigation or sufficient rainfall"
      case NitrogenHigh => "Nitrogen level seems unreasonably high"
      case PhosphorusHigh => "Phosphorus level seems unreasonably high"
      case PotassiumHigh => "Potassium level seems unreasonably high"
      case InsufficientDegreeDays => "Insufficient growing degree days for corn harvest"
      case GrainMoistureHigh => "Grain moisture too high for wheat harvest"
    }
  }

  /** One entry of a validation error: a field outside its declared bounds, or a
      validator's rejection. */
  datatype Issue = OutOfBounds(field: string) | Violation(reason: Reason)

  // ---------------------------------------------------------------------------
  // Crop management

  const Year: int := 365 * Day

  /** `validate_planting_date`: at most a year either side of now; the past bound is checked first. */
  function ValidatePlantingDate(plantingDate: Instant, now: Instant): (r: Outcome<Reason>)
    ensures r == Pass <==> now - Year <= plantingDate <= now + Year
    ensures r == Fail(PlantingDateTooOld) <==> plantingDate < now - Year
    ensures r == Fail(PlantingDateTooFar) <==> now + Year < plantingDate
  {
    if plantingDate < now - Year then Fail(PlantingDateTooOld)
    else if plantingDate > now + Year then Fail(PlantingDateTooFar)
    else Pass
  }

  datatype CropManagementQuery = CropManagementQuery(
    cropType: string,
    plantingDate: Instant,
    fieldSize: real,
    previousCrop: Option<string>,
    soilType: SoilType,
    irrigationMethod: Option<IrrigationMethod>,
    climateZone: ClimateZone,
    expectedRainfall: Option<real>)

  /** What a validator run ends in when it may also crash with an unhandled exception. */
  datatype Verdict = Accepted | Rejected(reason: Reason) | Crashed

  /** `validate_crop_requirements` as written: with no irrigation method the
      corn branch compares `expected_rainfall` against 500 even when it is
      `None`, which raises a `TypeError` rather than a validation error. */
  function ValidateCropRequirementsAsWritten(q: CropManagementQuery): (v: Verdict)
    ensures v == Crashed <==>
      q.cropType == "corn" && q.climateZone !in {Subarctic, Mediterranean}
      && q.irrigationMethod.None? && q.expectedRainfall.None?
  {
    if q.cropType == "wheat" then
      if q.soilType in {Sandy, SiltyClay} then Rejected(WheatSoil)
      else if q.climateZone == Tropical then Rejected(WheatTropical)
      else Accepted
    else if q.cropType == "corn" then
      if q.climateZone in {Subarctic, Mediterranean} then Rejected(CornSeason)
      else if q.irrigationMethod.None? then
        match q.expectedRainfall
        case None => Crashed
        case Some(rain) => if rain < 500.0 then Rejected(CornWater) else Accepted
      else Accepted
    else Accepted
  }

  /** A corn query on clay loam in a continental zone with neither an irrigation
      method nor a rainfall figure crashes instead of being rejected. */
  lemma CornWithoutWaterDataCrashes(plantingDate: Instant)
    ensures ValidateCropRequirementsAsWritten(
      CropManagementQuery("corn", plantingDate, 10.0, None, ClayLoam, None, Continental, None)) == Crashed
  {
  }

  /** The crop rules with a missing rainfall figure counted as no rainfall, as
      the `getattr(..., 0)` default intends. Wheat checks soil before climate;
      corn checks season before water; other crops pass. */
  function ValidateCropRequirements(q: CropManagementQuery): (r: Outcome<Reason>)
    ensures q.cropType == "wheat" ==>
      (r == Fail(WheatSoil) <==> q.soilType in {Sandy, SiltyClay}) &&
      (r == Fail(WheatTropical) <==> q.soilType !in {Sandy, SiltyClay} && q.climateZone == Tropical)
    ensures q.cropType == "corn" ==>
      (r == Fail(CornSeason) <==> q.climateZone in {Subarctic, Mediterranean}) &&
      (r == Fail(CornWater) <==> q.climateZone !in {Subarctic, Mediterranean} && q.irrigationMethod.None?
                                 && (q.expectedRainfall.None? || q.expectedRainfall.value < 500.0))
    ensures q.cropType == "wheat" ==>
      (r == Pass <==> q.soilType !in {Sandy, SiltyClay} && q.climateZone != Tropical)
    ensures q.cropType == "corn" ==>
      (r == Pass <==> q.climateZone !in {Subarctic, Mediterranean}
                      && (q.irrigationMethod.Some? || (q.expectedRainfall.Some? && q.expectedRainfall.value >= 500.0)))
    ensures r.Fail? ==> q.cropType in {"wheat", "corn"}
  {
    if q.cropType == "wheat" then
      if q.soilType in {Sandy, SiltyClay} then Fail(WheatSoil)
      else if q.climateZone == Tropical then Fail(WheatTropical)
      else Pass
    else if q.cropType == "corn" then
      if q.climateZone in {Subarctic, Mediterranean} then Fail(CornSeason)
      else if q.irrigationMethod.None? && (q.expectedRainfall.None? || q.expectedRainfall.value < 500.0) then Fail(CornWater)
      else Pass
    else Pass
  }

  /** Wherever the written rule does not crash, the corrected rule reaches the
      same verdict; where it crashes, the corrected rule rejects for water. */
  lemma {:induction false} CropRequirementsAgree(q: CropManagementQuery)
    ensures ValidateCropRequirementsAsWritten(q) == Accepted <==> ValidateCropRequirements(q) == Pass
    ensures forall reason :: ValidateCropRequirementsAsWritten(q) == Rejected(reason) ==> ValidateCropRequirements(q) == Fail(reason)
    ensures ValidateCropRequirementsAsWritten(q) == Crashed ==> ValidateCropRequirements(q) == Fail(CornWater)
  {
    if q.cropType == "corn" && q.climateZone !in {Subarctic, Mediterranean} && q.irrigationMethod.None? {
      if q.expectedRainfall.Some? {
        assert ValidateCropRequirementsAsWritten(q) == (if q.expectedRainfall.value < 500.0 then Rejected(CornWater) else Accepted);
      }
    }
  }

  /** The field checks of a crop-management query, in field order: the planting
      window, a strictly positive field size, a non-negative rainfall if given. */
  function CropManagementFieldIssues(q: CropManagementQuery, now: Instant): (issues: seq<Issue>)
    ensures issues == [] <==>
      ValidatePlantingDate(q.plantingDate, now) == Pass && q.fieldSize > 0.0
      && (q.expectedRainfall.Some? ==> q.expectedRainfall.value >= 0.0)
    ensures |issues| <= 3
  {
    (match ValidatePlantingDate(q.plantingDate, now) case Fail(reason) => [Violation(reason)] case Pass => [])
    + (if q.fieldSize > 0.0 then [] else [OutOfBounds("field_size")])
    + (if q.expectedRainfall.Some? && q.expectedRainfall.value < 0.0 then [OutOfBounds("expected_rainfall")] else [])
  }

  /** Constructing a `CropManagementQuery`: every field error is collected; the
      crop rules run only once all fields are accepted. */
  function ValidateCropManagementQuery(q: CropManagementQuery, now: Instant): (r: Result<CropManagementQuery, seq<Issue>>)
    ensures r.Ok? <==> CropManagementFieldIssues(q, now) == [] && ValidateCropRequirements(q) == Pass
    ensures r.Ok? ==> r.value == q
    ensures r.Err? ==> r.error != []
    ensures r.Err? && CropManagementFieldIssues(q, now) != [] ==> r.error == CropManagementFieldIssues(q, now)
    ensures CropManagementFieldIssues(q, now) == [] && ValidateCropRequirements(q).Fail? ==>
              r == Err([Violation(ValidateCropRequirements(q).error)])
    ensures CropManagementFieldIssues(q, now) == [] && ValidateCropRequirementsAsWritten(q) == Crashed ==>
              r == Err([Violation(CornWater)])
  {
    var issues := CropManagementFieldIssues(q, now);
    if issues != [] then Err(issues)
    else match ValidateCropRequirements(q)
      case Pass => Ok(q)
      case Fail(reason) => Err([Violation(reason)])
  }

  /** The cases the query's test exercises: loam wheat in a continental zone is
      accepted and sandy wheat is rejected for its soil; drip-irrigated corn with
      200 mm of rain is accepted and sub-arctic corn is rejected for its season. */
  lemma CropManagementExamples(now: Instant)
    ensures ValidateCropManagementQuery(CropManagementQuery("wheat", now + 30 * Day, 10.5, None, Loam, None, Continental, Some(300.0)), now).Ok?
    ensures ValidateCropManagementQuery(CropManagementQuery("wheat", now + 30 * Day, 10.5, None, Sandy, None, Continental, Some(300.0)), now)
            == Err([Violation(WheatSoil)])
    ensures ValidateCropManagementQuery(CropManagementQuery("corn", now + 30 * Day, 20.0, None, ClayLoam, Some(Drip), HumidSubtropical, Some(200.0)), now).Ok?
    ensures ValidateCropManagementQuery(CropManagementQuery("corn", now + 30 * Day, 20.0, None, ClayLoam, Some(Drip), Subarctic, Some(200.0)), now)
            == Err([Violation(CornSeason)])
  {
  }

  // ---------------------------------------------------------------------------
  // Soil analysis

  datatype SoilAnalysisQuery = SoilAnalysisQuery(
    phLevel: real,
    organicMatter: real,
    nitrogen: real,
    phosphorus: real,
    potassium: real,
    soilMoisture: real)

  /** The declared bounds, in field order. */
  function SoilAnalysisFieldIssues(q: SoilAnalysisQuery): (issues: seq<Issue>)
    ensures issues == [] <==>
      0.0 <= q.phLevel <= 14.0 && 0.0 <= q.organicMatter <= 100.0 && q.nitrogen >= 0.0
      && q.phosphorus >= 0.0 && q.potassium >= 0.0 && 0.0 <= q.soilMoisture <= 100.0
  {
    (if 0.0 <= q.phLevel <= 14.0 then [] else [OutOfBounds("ph_level")])
    + (if 0.0 <= q.organicMatter <= 100.0 then [] else [OutOfBounds("organic_matter")])
    + (if q.nitrogen >= 0.0 then [] else [OutOfBounds("nitrogen")])
    + (if q.phosphorus >= 0.0 then [] else [OutOfBounds("phosphorus")])
    + (if q.potassium >= 0.0 then [] else [OutOfBounds("potassium")])
    + (if 0.0 <= q.soilMoisture <= 100.0 then [] else [OutOfBounds("soil_moisture")])
  }

  /** Every cap the nutrient readings exceed, in the order N, P, K. */
  function NpkViolations(q: SoilAnalysisQuery): (vs: seq<Reason>)
    ensures NitrogenHigh in vs <==> q.nitrogen > 500.0
    ensures PhosphorusHigh in vs <==> q.phosphorus > 300.0
    ensures PotassiumHigh in vs <==> q.potassium > 800.0
    ensures |vs| <= 3
  {
    (if q.nitrogen > 500.0 then [NitrogenHigh] else [])
    + (if q.phosphorus > 300.0 then [PhosphorusHigh] else [])
    + (if q.potassium > 800.0 then [PotassiumHigh] else [])
  }

  /** `check_npk_levels`: caps checked in the order N, P, K; the first exceeded cap is reported. */
  function CheckNpkLevels(q: SoilAnalysisQuery): (r: Outcome<Reason>)
    ensures r == Pass <==> q.nitrogen <= 500.0 && q.phosphorus <= 300.0 && q.potassium <= 800.0
  {
    if q.nitrogen > 500.0 then Fail(NitrogenHigh)
    else if q.phosphorus > 300.0 then Fail(PhosphorusHigh)
    else if q.potassium > 800.0 then Fail(PotassiumHigh)
    else Pass
  }

  /** Only the first violation is reported: the check fails exactly when some cap
      is exceeded, with the earliest of them. */
  lemma CheckNpkReportsFirstViolation(q: SoilAnalysisQuery)
    ensures CheckNpkLevels(q) == if NpkViolations(q) == [] then Pass else Fail(NpkViolations(q)[0])
  {
  }

  /** Constructing a `SoilAnalysisQuery`: the field bounds, then the nutrient caps. */
  function ValidateSoilAnalysisQuery(q: SoilAnalysisQuery): (r: Result<SoilAnalysisQuery, seq<Issue>>)
    ensures r.Ok? <==> SoilAnalysisFieldIssues(q) == [] && NpkViolations(q) == []
    ensures r.Ok? ==> r.value == q
    ensures r.Err? && SoilAnalysisFieldIssues(q) == [] ==> r.error == [Violation(NpkViolations(q)[0])]
    ensures SoilAnalysisFieldIssues(q) != [] ==> r == Err(SoilAnalysisFieldIssues(q))
  {
    var issues := SoilAnalysisFieldIssues(q);
    if issues != [] then Err(issues)
    else match CheckNpkLevels(q)
      case Pass => Ok(q)
      case Fail(reason) => Err([Violation(reason)])
  }

  /** Readings exactly at the caps are accepted; 600 of nitrogen is rejected. */
  lemma SoilAnalysisExamples()
    ensures ValidateSoilAnalysisQuery(SoilAnalysisQuery(6.5, 3.5, 500.0, 300.0, 800.0, 60.0)).Ok?
    ensures ValidateSoilAnalysisQuery(SoilAnalysisQuery(6.5, 3.5, 600.0, 45.0, 200.0, 60.0)) == Err([Violation(NitrogenHigh)])
  {
  }

  // ---------------------------------------------------------------------------
  // Pest control

  /** The value the infestation level is replaced with. */
  datatype InfestationInfo = InfestationInfo(level: int, description: string)

  function InfestationDescription(level: int): string
    requires 1 <= level <= 5
  {
    match level
    case 1 => "Minor presence - Monitoring required"
    case 2 => "Light infestation - Consider treatment"
    case 3 => "Moderate infestation - Treatment recommended"
    case 4 => "Severe infestation - Immediate treatment required"
    case 5 => "Critical infestation - Emergency measures needed"
  }

  /** `validate_infestation` behind the field's 1..5 bound: a level in range is
      replaced by itself and its description. */
  function ValidateInfestation(level: int): (r: Result<InfestationInfo, Issue>)
    ensures r.Ok? <==> 1 <= level <= 5
    ensures r.Ok? ==> r.value.level == level && r.value.description == InfestationDescription(level)
    ensures r.Err? ==> r.error == OutOfBounds("infestation_level")
  {
    if 1 <= level <= 5 then Ok(InfestationInfo(level, InfestationDescription(level)))
    else Err(OutOfBounds("infestation_level"))
  }

  /** Distinct levels carry distinct descriptions; level 3's ends in "Treatment recommended". */
  lemma InfestationDescriptions(a: int, b: int)
    requires 1 <= a <= 5 && 1 <= b <= 5
    ensures InfestationDescription(a) == InfestationDescription(b) <==> a == b
    ensures var d := InfestationDescription(3); d[|d| - 21..] == "Treatment recommended"
  {
  }

  // ---------------------------------------------------------------------------
  // Irrigation schedule

  datatype Urgency = High | Medium | Low {
    function Text(): string {
      match this
      case High => "High - Immediate irrigation needed"
      case Medium => "Medium - Monitor conditions"
      case Low => "Low - Adequate moisture"
    }
  }

  /** The urgency ladder: dry soil with little rain is high when it is also hot
      and dry air, medium otherwise; anything else is low. */
  function UrgencyOf(soilMoisture: real, expectedRainfall: real, temperature: real, humidity: real): (u: Urgency)
    ensures u == High <==> soilMoisture < 30.0 && expectedRainfall < 10.0 && temperature > 30.0 && humidity < 50.0
    ensures u == Medium <==> soilMoisture < 30.0 && expectedRainfall < 10.0 && !(temperature > 30.0 && humidity < 50.0)
    ensures u == Low <==> !(soilMoisture < 30.0 && expectedRainfall < 10.0)
  {
    if soilMoisture < 30.0 && expectedRainfall < 10.0 then
      if temperature > 30.0 && humidity < 50.0 then High else Medium
    else Low
  }

  /** The three urgency texts are distinct and each starts with its level's name. */
  lemma UrgencyTexts(a: Urgency, b: Urgency)
    ensures a.Text() == b.Text() <==> a == b
    ensures High.Text()[..4] == "High" && Medium.Text()[..6] == "Medium" && Low.Text()[..3] == "Low"
  {
  }

  /** An irrigation-schedule query; `urgency` is the field the model validator fills in. */
  class IrrigationScheduleQuery {
    const cropType: string
    const growthStage: string
    const soilMoisture: real
    const expectedRainfall: real
    const temperature: real
    const humidity: real
    const windSpeed: real
    var urgency: string

    /** The declared bounds: soil moisture in [0, 100], rainfall and wind non-negative. */
    static predicate FieldsValid(soilMoisture: real, expectedRainfall: real, windSpeed: real) {
      0.0 <= soilMoisture <= 100.0 && expectedRainfall >= 0.0 && windSpeed >= 0.0
    }

    constructor (cropType: string, growthStage: string, soilMoisture: real, expectedRainfall: real,
                 temperature: real, humidity: real, windSpeed: real)
      ensures this.cropType == cropType && this.growthStage == growthStage
      ensures this.soilMoisture == soilMoisture && this.expectedRainfall == expectedRainfall
      ensures this.temperature == temperature && this.humidity == humidity && this.windSpeed == windSpeed
      ensures urgency == ""
    {
      this.cropType := cropType;
      this.growthStage := growthStage;
      this.soilMoisture := soilMoisture;
      this.expectedRainfall := expectedRainfall;
      this.temperature := temperature;
      this.humidity := humidity;
      this.windSpeed := windSpeed;
      urgency := "";
    }

    /** `check_irrigation_needs`: clears the urgency, then sets it from the ladder. */
    method CheckIrrigationNeeds()
      modifies this
      ensures urgency == UrgencyOf(soilMoisture, expectedRainfall, temperature, humidity).Text()
    {
      urgency := "";
      if soilMoisture < 30.0 && expectedRainfall < 10.0 {
        if temperature > 30.0 && humidity < 50.0 {
          urgency := High.Text();
        } else {
          urgency := Medium.Text();
        }
      } else {
        urgency := Low.Text();
      }
    }

    /** Constructing the query: a field outside its bounds is an error; otherwise
        the model validator runs and stores the urgency. */
    static method Validate(cropType: string, growthStage: string, soilMoisture: real, expectedRainfall: real,
                           temperature: real, humidity: real, windSpeed: real)
      returns (r: Result<IrrigationScheduleQuery, seq<Issue>>)
      ensures r.Ok? <==> FieldsValid(soilMoisture, expectedRainfall, windSpeed)
      ensures r.Ok? ==> fresh(r.value) && r.value.cropType == cropType && r.value.growthStage == growthStage
                        && r.value.soilMoisture == soilMoisture && r.value.expectedRainfall == expectedRainfall
                        && r.value.temperature == temperature && r.value.humidity == humidity
                        && r.value.windSpeed == windSpeed
                        && r.value.urgency == UrgencyOf(soilMoisture, expectedRainfall, temperature, humidity).Text()
      ensures r.Err? ==> r.error != []
    {
      if !FieldsValid(soilMoisture, expectedRainfall, windSpeed) {
        var issues: seq<Issue> := [];
        if !(0.0 <= soilMoisture <= 100.0) { issues := issues + [OutOfBounds("soil_moisture")]; }
        if expectedRainfall < 0.0 { issues := issues + [OutOfBounds("expected_rainfall")]; }
        if windSpeed < 0.0 { issues := issues + [OutOfBounds("wind_speed")]; }
        r := Err(issues);
      } else {
        var q := new IrrigationScheduleQuery(cropType, growthStage, soilMoisture, expectedRainfall, temperature, humidity, windSpeed);
        q.CheckIrrigationNeeds();
        r := Ok(q);
      }
    }
  }

  /** The case the query's test exercises: moisture 25, rain 5, 32 °C, 45 % is high. */
  lemma UrgencyExamples()
    ensures UrgencyOf(25.0, 5.0, 32.0, 45.0) == High
    ensures UrgencyOf(25.0, 5.0, 20.0, 45.0) == Medium
    ensures UrgencyOf(80.0, 5.0, 32.0, 45.0) == Low
  {
  }

  // ---------------------------------------------------------------------------
  // Harvest timing

  datatype HarvestTimingQuery = HarvestTimingQuery(
    cropType: string,
    plantingDate: Instant,
    growingDegreeDays: real,
    grainMoisture: Option<real>,
    rainfallForecast: real)

  /** `validate_harvest_timing`: corn needs 2700 degree days; wheat with a truthy
      grain moisture above 18 is rejected (a missing or zero moisture skips it). */
  function ValidateHarvestTiming(q: HarvestTimingQuery): (r: Outcome<Reason>)
    ensures r == Fail(InsufficientDegreeDays) <==> q.cropType == "corn" && q.growingDegreeDays < 2700.0
    ensures r == Fail(GrainMoistureHigh) <==> q.cropType == "wheat" && Truthy(q.grainMoisture) && q.grainMoisture.value > 18.0
    ensures r == Pass <==> !(q.cropType == "corn" && q.growingDegreeDays < 2700.0)
                           && !(q.cropType == "wheat" && Truthy(q.grainMoisture) && q.grainMoisture.value > 18.0)
  {
    if q.cropType == "corn" && q.growingDegreeDays < 2700.0 then Fail(InsufficientDegreeDays)
    else if Truthy(q.grainMoisture) && q.cropType == "wheat" && q.grainMoisture.value > 18.0 then Fail(GrainMoistureHigh)
    else Pass
  }

  /** The declared bounds, in field order. */
  function HarvestTimingFieldIssues(q: HarvestTimingQuery): (issues: seq<Issue>)
    ensures issues == [] <==>
      q.growingDegreeDays >= 0.0 && (q.grainMoisture.Some? ==> 0.0 <= q.grainMoisture.value <= 100.0) && q.rainfallForecast >= 0.0
  {
    (if q.growingDegreeDays >= 0.0 then [] else [OutOfBounds("growing_degree_days")])
    + (if q.grainMoisture.Some? && !(0.0 <= q.grainMoisture.value <= 100.0) then [OutOfBounds("grain_moisture")] else [])
    + (if q.rainfallForecast >= 0.0 then [] else [OutOfBounds("rainfall_forecast")])
  }

  /** Constructing a `HarvestTimingQuery`: the field bounds, then the harvest gates. */
  function ValidateHarvestTimingQuery(q: HarvestTimingQuery): (r: Result<HarvestTimingQuery, seq<Issue>>)
    ensures r.Ok? <==> HarvestTimingFieldIssues(q) == [] && ValidateHarvestTiming(q) == Pass
    ensures r.Ok? ==> r.value == q
    ensures r.Err? && HarvestTimingFieldIssues(q) == [] ==> r.error == [Violation(ValidateHarvestTiming(q).error)]
    ensures HarvestTimingFieldIssues(q) != [] ==> r == Err(HarvestTimingFieldIssues(q))
  {
    var issues := HarvestTimingFieldIssues(q);
    if issues != [] then Err(issues)
    else match ValidateHarvestTiming(q)
      case Pass => Ok(q)
      case Fail(reason) => Err([Violation(reason)])
  }

  /** Wheat at 15 % grain moisture is accepted and at 20 % rejected; a zero
      reading is treated as missing, so even wheat at 0 % skips the moisture gate;
      corn below 2700 degree days is rejected. */
  lemma HarvestTimingExamples(plantingDate: Instant)
    ensures ValidateHarvestTimingQuery(HarvestTimingQuery("wheat", plantingDate, 2000.0, Some(15.0), 0.0)).Ok?
    ensures ValidateHarvestTimingQuery(HarvestTimingQuery("wheat", plantingDate, 2000.0, Some(20.0), 0.0)) == Err([Violation(GrainMoistureHigh)])
    ensures ValidateHarvestTiming(HarvestTimingQuery("wheat", plantingDate, 2000.0, Some(0.0), 0.0)) == Pass
    ensures ValidateHarvestTiming(HarvestTimingQuery("corn", plantingDate, 2699.0, None, 0.0)) == Fail(InsufficientDegreeDays)
  {
  }
}

/**
 * The shared data model: crop and growth-stage enumerations, the weather
 * observation record with its field bounds, and the clock used for dates.
 */
module Models {
  import opened Outcomes

  /** Supported crop types, in the enumeration's declaration order. */
  datatype CropType = Corn | Sunflower | Wheat {
    /** The enumeration value (`CropType.CORN.value == "corn"`). */
    function Name(): string {
      match this
      case Corn => "corn"
      case Sunflower => "sunflower"
      case Wheat => "wheat"
    }
  }

  /** Growth stages of a cereal crop; the declaration order is the life-cycle order. */
  datatype GrowthStage =
    | Germination | Emergence | Tillering | StemElongation
    | Heading | Flowering | GrainFilling | Maturity
  {
    /** Position of the stage in the life cycle. */
    function Index(): (i: nat)
      ensures i < 8
    {
      match this
      case Germination => 0
      case Emergence => 1
      case Tillering => 2
      case StemElongation => 3
      case Heading => 4
      case Flowering => 5
      case GrainFilling => 6
      case Maturity => 7
    }
  }

  /** Distinct stages occupy distinct positions, so `Index` orders the stages totally. */
  lemma StageIndexInjective(a: GrowthStage, b: GrowthStage)
    ensures a.Index() == b.Index() <==> a == b
  {
  }

  /**
   * Instants are whole seconds on one common clock; `datetime` values and
   * `timedelta(days=...)`/`timedelta(hours=...)` offsets are expressed in them.
   */
  type Instant = int
  const Day: int := 86400
  const Hour: int := 3600

  /** A point-in-time weather and soil reading (`WeatherCondition`). */
  datatype Observation = Observation(
    temperature: real,
    humidity: real,
    precipitation: real,
    windSpeed: real,
    windDirection: real,
    soilTemperature: Option<real>,
    soilMoisture: Option<real>,
    timestamp: Instant)

  /** The field bounds the record declares: humidity and soil moisture in [0, 100],
      precipitation and wind speed non-negative, wind direction in [0, 360]. */
  predicate ValidObservation(o: Observation) {
    && 0.0 <= o.humidity <= 100.0
    && 0.0 <= o.precipitation
    && 0.0 <= o.windSpeed
    && 0.0 <= o.windDirection <= 360.0
    && (o.soilMoisture.Some? ==> 0.0 <= o.soilMoisture.value <= 100.0)
  }

  /** Python truthiness of an optional float: `None` and `0.0` are both false. */
  predicate Truthy(x: Option<real>) {
    x.Some? && x.value != 0.0
  }

  /** `sum(c.precipitation for c in forecast)`. */
  function TotalPrecipitation(fs: seq<Observation>): real {
    if fs == [] then 0.0 else TotalPrecipitation(fs[..|fs| - 1]) + fs[|fs| - 1].precipitation
  }

  /** `sum(c.temperature for c in forecast)`. */
  function TotalTemperature(fs: seq<Observation>): real {
    if fs == [] then 0.0 else TotalTemperature(fs[..|fs| - 1]) + fs[|fs| - 1].temperature
  }

  /** `sum(c.humidity for c in forecast)`. */
  function TotalHumidity(fs: seq<Observation>): real {
    if fs == [] then 0.0 else TotalHumidity(fs[..|fs| - 1]) + fs[|fs| - 1].humidity
  }

  /** Precipitation is never negative in a valid forecast, so neither is its total. */
  lemma {:induction false} TotalPrecipitationNonNegative(fs: seq<Observation>)
    requires forall i :: 0 <= i < |fs| ==> ValidObservation(fs[i])
    ensures TotalPrecipitation(fs) >= 0.0
  {
    if fs != [] {
      TotalPrecipitationNonNegative(fs[..|fs| - 1]);
    }
  }
}

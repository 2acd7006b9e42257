/**
 * The weather service's forecast request size and its synthetic fallback
 * forecast, generated from a base observation in 3-hour steps.
 */
module WeatherService {
  import opened Outcomes
  import opened Models

  /** The `cnt` of a forecast request: 8 three-hour entries a day, at most 40. */
  function ForecastCount(days: int): (n: int)
    ensures n <= 40
    ensures n == days * 8 || n == 40
    ensures days <= 5 ==> n == days * 8
  {
    if days * 8 < 40 then days * 8 else 40
  }

  /** Python's `x % 360` on floats: the remainder is never negative, and
      `x` minus it is a whole number of turns. */
  function Mod360(x: real): (r: real)
    ensures 0.0 <= r < 360.0
    ensures ((x - r) / 360.0).Floor as real == (x - r) / 360.0
  {
    var k := (x / 360.0).Floor;
    assert (k as real) <= x / 360.0 < (k as real) + 1.0;
    assert (x - (x - (k as real) * 360.0)) / 360.0 == k as real;
    x - (k as real) * 360.0
  }

  function Clamp(lo: real, hi: real, x: real): (r: real)
    requires lo <= hi
    ensures lo <= r <= hi
    ensures lo <= x <= hi ==> r == x
  {
    if x < lo then lo else if x > hi then hi else x
  }

  /** The process's string hash of the location and the entry index; it is
      randomised per process, so the model takes it as a parameter. */
  type LocationHash = (real, real, int) -> int

  /** Entry `i` of the fallback forecast. */
  function FallbackEntry(base: Observation, latitude: real, longitude: real, hash: LocationHash, now: Instant, i: nat): (w: Observation)
    ensures 30.0 <= w.humidity <= 90.0
    ensures w.precipitation == (if i % 7 == 0 then 2.0 else 0.0)
    ensures w.windSpeed >= 0.0
    ensures w.windDirection == Mod360(base.windDirection + (5 * i) as real)
    ensures w.soilTemperature == Some(w.temperature - 2.0)
    ensures w.soilMoisture.Some? && 20.0 <= w.soilMoisture.value <= 80.0
    ensures w.soilMoisture == Some(Clamp(20.0, 80.0, (if Truthy(base.soilMoisture) then base.soilMoisture.value else 45.0)
                                                     + ((i % 4 - 2) as real) * 5.0))
    ensures w.timestamp == now + 3 * i * Hour
    ensures base.temperature - 10.5 <= w.temperature <= base.temperature + 8.0
  {
    var tempVariation := ((i % 8 - 4) * 2) as real;
    var randomVariation := ((hash(latitude, longitude, i) % 10 - 5) as real) * 0.5;
    var baseMoisture := if Truthy(base.soilMoisture) then base.soilMoisture.value else 45.0;
    Observation(
      base.temperature + tempVariation + randomVariation,
      Clamp(30.0, 90.0, base.humidity + ((i % 3 - 1) as real) * 5.0),
      if i % 7 != 0 then 0.0 else 2.0,
      if base.windSpeed + ((i % 5 - 2) as real) * 1.0 < 0.0 then 0.0 else base.windSpeed + ((i % 5 - 2) as real) * 1.0,
      Mod360(base.windDirection + (5 * i) as real),
      Some(base.temperature + tempVariation + randomVariation - 2.0),
      Some(Clamp(20.0, 80.0, baseMoisture + ((i % 4 - 2) as real) * 5.0)),
      now + 3 * i * Hour)
  }

  /** `_get_fallback_forecast`: one entry per 3-hour step over `days` days. */
  method FallbackForecast(base: Observation, latitude: real, longitude: real, days: int, hash: LocationHash, now: Instant)
    returns (forecast: seq<Observation>)
    ensures |forecast| == if days > 0 then days * 8 else 0
    ensures forall i :: 0 <= i < |forecast| ==> forecast[i] == FallbackEntry(base, latitude, longitude, hash, now, i)
  {
    forecast := [];
    var count := if days > 0 then days * 8 else 0;
    var i := 0;
    while i < count
      invariant 0 <= i <= count
      invariant |forecast| == i
      invariant forall j :: 0 <= j < i ==> forecast[j] == FallbackEntry(base, latitude, longitude, hash, now, j)
    {
      var tempVariation := ((i % 8 - 4) * 2) as real;
      var randomVariation := ((hash(latitude, longitude, i) % 10 - 5) as real) * 0.5;
      var windSpeed := base.windSpeed + ((i % 5 - 2) as real) * 1.0;
      if windSpeed < 0.0 {
        windSpeed := 0.0;
      }
      var baseMoisture := if Truthy(base.soilMoisture) then base.soilMoisture.value else 45.0;
      var entry := Observation(
        base.temperature + tempVariation + randomVariation,
        Clamp(30.0, 90.0, base.humidity + ((i % 3 - 1) as real) * 5.0),
        if i % 7 != 0 then 0.0 else 2.0,
        windSpeed,
        Mod360(base.windDirection + (5 * i) as real),
        Some(base.temperature + tempVariation + randomVariation - 2.0),
        Some(Clamp(20.0, 80.0, baseMoisture + ((i % 4 - 2) as real) * 5.0)),
        now + 3 * i * Hour);
      forecast := forecast + [entry];
      i := i + 1;
    }
  }

  /** Every fallback entry satisfies the observation record's bounds, whatever
      the base observation. */
  lemma FallbackEntriesValid(base: Observation, latitude: real, longitude: real, hash: LocationHash, now: Instant, i: nat)
    ensures ValidObservation(FallbackEntry(base, latitude, longitude, hash, now, i))
  {
  }

  /** Consecutive entries are three hours apart, so a day of entries spans 24 hours. */
  lemma FallbackEntriesThreeHoursApart(base: Observation, latitude: real, longitude: real, hash: LocationHash, now: Instant, i: nat)
    ensures FallbackEntry(base, latitude, longitude, hash, now, i + 1).timestamp
            == FallbackEntry(base, latitude, longitude, hash, now, i).timestamp + 3 * Hour
    ensures FallbackEntry(base, latitude, longitude, hash, now, i + 8).timestamp
            == FallbackEntry(base, latitude, longitude, hash, now, i).timestamp + Day
  {
  }
}

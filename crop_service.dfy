/**
 * Crop management: the growth-period and optimal-condition tables, the
 * planting schedule (date arithmetic and the growth timeline) and the
 * analysis of current growing conditions against a crop's optimal ranges.
 */
module CropService {
  import opened Outcomes
  import opened Models

  /** A stage's expected duration, as (minimum days, maximum days). */
  datatype StageRange = StageRange(minDays: nat, maxDays: nat)

  /** One entry of a crop's growth-period table, in table order. */
  datatype StagePeriod = StagePeriod(stage: GrowthStage, range: StageRange)

  /** A table lookup that misses: the crop has no configured growth periods (a `KeyError`). */
  datatype Fault = ConfigurationFault(crop: CropType)

  /** The growth periods configured for corn, germination first. */
  const CornPeriods: seq<StagePeriod> := [
    StagePeriod(Germination, StageRange(5, 7)),
    StagePeriod(Emergence, StageRange(7, 10)),
    StagePeriod(Tillering, StageRange(20, 30)),
    StagePeriod(StemElongation, StageRange(15, 20)),
    StagePeriod(Heading, StageRange(15, 20)),
    StagePeriod(Flowering, StageRange(10, 15)),
    StagePeriod(GrainFilling, StageRange(35, 45)),
    StagePeriod(Maturity, StageRange(20, 25))
  ]

  /** Every range is non-empty with positive bounds, and the stages follow the life-cycle order. */
  predicate WellFormedPeriods(p: seq<StagePeriod>) {
    && (forall i :: 0 <= i < |p| ==> 0 < p[i].range.minDays <= p[i].range.maxDays)
    && (forall i, j :: 0 <= i < j < |p| ==> p[i].stage.Index() < p[j].stage.Index())
  }

  /** `_crop_growth_periods[crop]`: only corn is configured; any other crop misses. */
  function GrowthPeriods(crop: CropType): (r: Option<seq<StagePeriod>>)
    ensures r.Some? <==> crop == Corn
    ensures r.Some? ==> |r.value| == 8 && WellFormedPeriods(r.value)
  {
    if crop == Corn then Some(CornPeriods) else None
  }

  /** A closed interval [lo, hi] of an environmental variable. */
  datatype Range = Range(lo: real, hi: real)

  /** `_optimal_conditions[crop]`: temperature (°C), soil moisture (%) and soil pH ranges. */
  datatype OptimalConditions = OptimalConditions(temperature: Range, soilMoisture: Range, soilPh: Range)

  function Optimal(crop: CropType): (r: OptimalConditions)
    ensures r.temperature.lo < r.temperature.hi
    ensures r.soilMoisture.lo < r.soilMoisture.hi
    ensures r.soilPh.lo < r.soilPh.hi
  {
    match crop
    case Corn => OptimalConditions(Range(20.0, 30.0), Range(50.0, 70.0), Range(6.0, 7.0))
    case Wheat => OptimalConditions(Range(15.0, 25.0), Range(40.0, 60.0), Range(6.0, 7.0))
    case Sunflower => OptimalConditions(Range(18.0, 28.0), Range(45.0, 65.0), Range(6.0, 7.5))
  }

  // ---------------------------------------------------------------------------
  // Growing-period arithmetic

  /** `sum(max(period) for period in periods)`: the conservative total growing days. */
  function TotalDays(p: seq<StagePeriod>): nat {
    if p == [] then 0 else TotalDays(p[..|p| - 1]) + p[|p| - 1].range.maxDays
  }

  /** `(min_days + max_days) // 2`, the duration the timeline shows for a stage. */
  function AverageDays(r: StageRange): (d: nat)
    ensures r.minDays <= r.maxDays ==> r.minDays <= d <= r.maxDays
  {
    (r.minDays + r.maxDays) / 2
  }

  /** The sum of the displayed (average) durations. */
  function TimelineDays(p: seq<StagePeriod>): nat {
    if p == [] then 0 else TimelineDays(p[..|p| - 1]) + AverageDays(p[|p| - 1].range)
  }

  /** Corn's conservative total is 172 days and its timeline spans 147 days. */
  lemma CornDurations()
    ensures TotalDays(CornPeriods) == 172
    ensures TimelineDays(CornPeriods) == 147
  {
    var p := CornPeriods;
    assert p[..0] == [];
    assert p[..1][..0] == p[..0];
    assert TotalDays(p[..1]) == 7 && TimelineDays(p[..1]) == 6;
    assert p[..2][..1] == p[..1];
    assert TotalDays(p[..2]) == 17 && TimelineDays(p[..2]) == 14;
    assert p[..3][..2] == p[..2];
    assert TotalDays(p[..3]) == 47 && TimelineDays(p[..3]) == 39;
    assert p[..4][..3] == p[..3];
    assert TotalDays(p[..4]) == 67 && TimelineDays(p[..4]) == 56;
    assert p[..5][..4] == p[..4];
    assert TotalDays(p[..5]) == 87 && TimelineDays(p[..5]) == 73;
    assert p[..6][..5] == p[..5];
    assert TotalDays(p[..6]) == 102 && TimelineDays(p[..6]) == 85;
    assert p[..7][..6] == p[..6];
    assert TotalDays(p[..7]) == 147 && TimelineDays(p[..7]) == 125;
    assert p[..8] == p && p[..7] == p[..|p| - 1];
  }

  /** Because every average is at most its maximum, the timeline never outlasts the total. */
  lemma {:induction false} TimelineWithinTotal(p: seq<StagePeriod>)
    requires forall i :: 0 <= i < |p| ==> p[i].range.minDays <= p[i].range.maxDays
    ensures TimelineDays(p) <= TotalDays(p)
  {
    if p != [] {
      TimelineWithinTotal(p[..|p| - 1]);
    }
  }

  // ---------------------------------------------------------------------------
  // Growth timeline

  /** One row of the growth timeline. */
  datatype TimelineEntry = TimelineEntry(stage: GrowthStage, startDate: Instant, endDate: Instant, durationDays: nat)

  /** The timeline built forward from `start`: each stage runs for its average
      duration and the next stage starts where it ended. */
  function Timeline(p: seq<StagePeriod>, start: Instant): seq<TimelineEntry> {
    if p == [] then []
    else
      var last := p[|p| - 1];
      var cursor := start + TimelineDays(p[..|p| - 1]) * Day;
      Timeline(p[..|p| - 1], start) + [TimelineEntry(last.stage, cursor, cursor + AverageDays(last.range) * Day, AverageDays(last.range))]
  }

  /** Entry k of the timeline: stage k of the table, starting after the first k
      average durations and lasting its own average. */
  lemma {:induction false} TimelineAt(p: seq<StagePeriod>, start: Instant, k: nat)
    requires k < |p|
    ensures |Timeline(p, start)| == |p|
    ensures Timeline(p, start)[k] == TimelineEntry(p[k].stage,
                                                  start + TimelineDays(p[..k]) * Day,
                                                  start + TimelineDays(p[..k + 1]) * Day,
                                                  AverageDays(p[k].range))
  {
    TimelineLength(p, start);
    var n := |p| - 1;
    assert p[..n + 1] == p;
    if k < n {
      TimelineAt(p[..n], start, k);
      assert p[..n][..k] == p[..k] && p[..n][..k + 1] == p[..k + 1];
    }
  }

  lemma {:induction false} TimelineLength(p: seq<StagePeriod>, start: Instant)
    ensures |Timeline(p, start)| == |p|
  {
    if p != [] {
      TimelineLength(p[..|p| - 1], start);
    }
  }

  /** Appending a stage to the table appends its entry to the timeline, starting
      where the earlier stages end. */
  lemma TimelineSnoc(p: seq<StagePeriod>, start: Instant, i: nat)
    requires i < |p|
    ensures TimelineDays(p[..i + 1]) == TimelineDays(p[..i]) + AverageDays(p[i].range)
    ensures Timeline(p[..i + 1], start) == Timeline(p[..i], start) +
              [TimelineEntry(p[i].stage, start + TimelineDays(p[..i]) * Day,
                             start + TimelineDays(p[..i]) * Day + AverageDays(p[i].range) * Day,
                             AverageDays(p[i].range))]
  {
    assert p[..i + 1][..i] == p[..i];
    assert p[..i + 1][i] == p[i];
  }

  /** Entry k carries stage k and its average duration, and ends that many days after it starts. */
  lemma TimelineEntryFacts(p: seq<StagePeriod>, start: Instant, k: nat)
    requires k < |p|
    ensures |Timeline(p, start)| == |p|
    ensures Timeline(p, start)[k].stage == p[k].stage
    ensures Timeline(p, start)[k].durationDays == AverageDays(p[k].range)
    ensures Timeline(p, start)[k].endDate == Timeline(p, start)[k].startDate + Timeline(p, start)[k].durationDays * Day
  {
    TimelineAt(p, start, k);
    TimelineSnoc(p, start, k);
  }

  /** Entry k ends where entry k + 1 starts. */
  lemma TimelineLinked(p: seq<StagePeriod>, start: Instant, k: nat)
    requires k + 1 < |p|
    ensures |Timeline(p, start)| == |p|
    ensures Timeline(p, start)[k].endDate == Timeline(p, start)[k + 1].startDate
  {
    TimelineAt(p, start, k);
    TimelineAt(p, start, k + 1);
  }

  /** The timeline is contiguous: it starts at the planting date, each stage
      starts where the previous one ended, each ends its duration after it
      starts, and the stages follow the table's order. */
  lemma TimelineContiguous(p: seq<StagePeriod>, start: Instant)
    ensures |Timeline(p, start)| == |p|
    ensures |p| > 0 ==> Timeline(p, start)[0].startDate == start
    ensures forall k :: 0 <= k < |p| ==>
              && Timeline(p, start)[k].stage == p[k].stage
              && Timeline(p, start)[k].durationDays == AverageDays(p[k].range)
              && Timeline(p, start)[k].endDate == Timeline(p, start)[k].startDate + Timeline(p, start)[k].durationDays * Day
    ensures forall k :: 0 <= k < |p| - 1 ==> Timeline(p, start)[k].endDate == Timeline(p, start)[k + 1].startDate
    ensures |p| > 0 ==> Timeline(p, start)[|p| - 1].endDate == start + TimelineDays(p) * Day
  {
    TimelineLength(p, start);
    forall k | 0 <= k < |p|
      ensures Timeline(p, start)[k].stage == p[k].stage
      ensures Timeline(p, start)[k].durationDays == AverageDays(p[k].range)
      ensures Timeline(p, start)[k].endDate == Timeline(p, start)[k].startDate + Timeline(p, start)[k].durationDays * Day
    {
      TimelineEntryFacts(p, start, k);
    }
    forall k | 0 <= k < |p| - 1 ensures Timeline(p, start)[k].endDate == Timeline(p, start)[k + 1].startDate {
      TimelineLinked(p, start, k);
    }
    if |p| > 0 {
      TimelineAt(p, start, 0);
      assert p[..0] == [];
      TimelineAt(p, start, |p| - 1);
      assert p[..|p|] == p;
    }
  }

  /** The loop of `_calculate_growth_timeline` over any period table: each stage
      runs for `(min+max)//2` days from the current date, which then advances. */
  method BuildTimeline(p: seq<StagePeriod>, start: Instant) returns (timeline: seq<TimelineEntry>)
    ensures timeline == Timeline(p, start)
  {
    timeline := [];
    var currentDate := start;
    var i := 0;
    while i < |p|
      invariant 0 <= i <= |p|
      invariant timeline == Timeline(p[..i], start)
      invariant currentDate == start + TimelineDays(p[..i]) * Day
    {
      var avgDays := (p[i].range.minDays + p[i].range.maxDays) / 2;
      var stageEnd := currentDate + avgDays * Day;
      timeline := timeline + [TimelineEntry(p[i].stage, currentDate, stageEnd, avgDays)];
      currentDate := stageEnd;
      TimelineSnoc(p, start, i);
      i := i + 1;
    }
    assert p[..i] == p;
  }

  /** `_calculate_growth_timeline`: walks the crop's stages forward from `start`. */
  method CalculateGrowthTimeline(crop: CropType, start: Instant) returns (r: Result<seq<TimelineEntry>, Fault>)
    ensures r.Err? <==> GrowthPeriods(crop).None?
    ensures r.Err? ==> r.error == ConfigurationFault(crop)
    ensures r.Ok? ==> r.value == Timeline(GrowthPeriods(crop).value, start)
  {
    var periods := GrowthPeriods(crop);
    if periods.None? {
      return Err(ConfigurationFault(crop));
    }
    var timeline := BuildTimeline(periods.value, start);
    return Ok(timeline);
  }

  // ---------------------------------------------------------------------------
  // Planting schedule

  /** The result of `get_optimal_planting_schedule`. */
  datatype Schedule = Schedule(
    optimalPlantingDate: Instant,
    targetHarvestDate: Instant,
    growthTimeline: seq<TimelineEntry>,
    totalGrowingDays: nat)

  /** `get_optimal_planting_schedule`: with no target harvest date the target is
      `now` plus the conservative total; planting is the target minus that total,
      and the timeline runs forward from the planting date. */
  method GetOptimalPlantingSchedule(crop: CropType, now: Instant, targetHarvestDate: Option<Instant>)
    returns (r: Result<Schedule, Fault>)
    ensures r.Err? <==> crop != Corn
    ensures r.Err? ==> r.error == ConfigurationFault(crop)
    ensures r.Ok? ==>
              var p := GrowthPeriods(crop).value;
              var s := r.value;
              && s.totalGrowingDays == TotalDays(p)
              && s.targetHarvestDate == (if targetHarvestDate.Some? then targetHarvestDate.value else now + TotalDays(p) * Day)
              && s.optimalPlantingDate + s.totalGrowingDays * Day == s.targetHarvestDate
              && (targetHarvestDate.None? ==> s.optimalPlantingDate == now)
              && s.growthTimeline == Timeline(p, s.optimalPlantingDate)
  {
    var periods := GrowthPeriods(crop);
    if periods.None? {
      return Err(ConfigurationFault(crop));
    }
    var target: Instant;
    if targetHarvestDate.None? {
      var growingDays := TotalDays(periods.value);
      target := now + growingDays * Day;
    } else {
      target := targetHarvestDate.value;
    }
    var totalDays := TotalDays(periods.value);
    var plantingDate := target - totalDays * Day;
    var timeline := CalculateGrowthTimeline(crop, plantingDate);
    return Ok(Schedule(plantingDate, target, timeline.value, totalDays));
  }

  /** For corn the schedule spans 172 days, its timeline ends 147 days after
      planting, so the last stage ends 25 days before the target harvest date. */
  lemma CornScheduleEndsBeforeHarvest(plantingDate: Instant)
    ensures |Timeline(CornPeriods, plantingDate)| == 8
    ensures Timeline(CornPeriods, plantingDate)[7].endDate == plantingDate + 147 * Day
    ensures Timeline(CornPeriods, plantingDate)[7].endDate + 25 * Day == plantingDate + TotalDays(CornPeriods) * Day
  {
    TimelineContiguous(CornPeriods, plantingDate);
    CornDurations();
  }

  /** For any well-formed table the last stage ends no later than the target
      harvest date `planting + TotalDays * Day`. */
  lemma TimelineEndsByHarvest(p: seq<StagePeriod>, plantingDate: Instant)
    requires WellFormedPeriods(p) && |p| > 0
    ensures |Timeline(p, plantingDate)| == |p|
    ensures Timeline(p, plantingDate)[|p| - 1].endDate <= plantingDate + TotalDays(p) * Day
  {
    TimelineContiguous(p, plantingDate);
    TimelineWithinTotal(p);
  }

  // ---------------------------------------------------------------------------
  // Growing-condition analysis

  datatype TemperatureStatus = TemperatureOptimal | TooCold | TooHot
  datatype MoistureStatus = MoistureOptimal | TooDry | TooWet | MoistureUnknown

  /** One recommendation line: the non-optimal status it reports. */
  datatype Recommendation =
    | TemperatureAdvice(temperature: TemperatureStatus)  // "Temperature is ... Consider protective measures."
    | MoistureAdvice(moisture: MoistureStatus)           // "Soil moisture is ... Adjust irrigation accordingly."

  /** Three-way bucketing of the air temperature against the crop's range. */
  function TemperatureStatusOf(crop: CropType, t: real): (s: TemperatureStatus)
    ensures s == TemperatureOptimal <==> Optimal(crop).temperature.lo <= t <= Optimal(crop).temperature.hi
    ensures s == TooCold <==> t < Optimal(crop).temperature.lo
    ensures s == TooHot <==> t > Optimal(crop).temperature.hi
  {
    var r := Optimal(crop).temperature;
    if r.lo <= t <= r.hi then TemperatureOptimal else if t < r.lo then TooCold else TooHot
  }

  /** Four-way bucketing of the soil moisture; `unknown` when there is no reading. */
  function MoistureStatusOf(crop: CropType, m: Option<real>): (s: MoistureStatus)
    ensures s == MoistureUnknown <==> m.None?
    ensures s == MoistureOptimal <==> m.Some? && Optimal(crop).soilMoisture.lo <= m.value <= Optimal(crop).soilMoisture.hi
    ensures s == TooDry <==> m.Some? && m.value < Optimal(crop).soilMoisture.lo
    ensures s == TooWet <==> m.Some? && m.value > Optimal(crop).soilMoisture.hi
  {
    if m.None? then MoistureUnknown
    else
      var r := Optimal(crop).soilMoisture;
      if r.lo <= m.value <= r.hi then MoistureOptimal else if m.value < r.lo then TooDry else TooWet
  }

  /** The result of `analyze_growing_conditions`. */
  datatype Analysis = Analysis(
    temperatureStatus: TemperatureStatus,
    moistureStatus: MoistureStatus,
    recommendations: seq<Recommendation>,
    optimalConditions: OptimalConditions)

  /** `analyze_growing_conditions`: buckets temperature and soil moisture and
      appends one recommendation per non-optimal, known status. The soil-pH
      range is returned with the table but never evaluated. */
  method AnalyzeGrowingConditions(crop: CropType, weather: Observation) returns (a: Analysis)
    ensures a.temperatureStatus == TemperatureStatusOf(crop, weather.temperature)
    ensures a.moistureStatus == MoistureStatusOf(crop, weather.soilMoisture)
    ensures a.optimalConditions == Optimal(crop)
    ensures |a.recommendations| <= 2
    ensures TemperatureAdvice(a.temperatureStatus) in a.recommendations <==> a.temperatureStatus != TemperatureOptimal
    ensures MoistureAdvice(a.moistureStatus) in a.recommendations <==>
              a.moistureStatus != MoistureOptimal && a.moistureStatus != MoistureUnknown
    ensures forall rec :: rec in a.recommendations ==>
              (rec.TemperatureAdvice? && rec.temperature == a.temperatureStatus) ||
              (rec.MoistureAdvice? && rec.moisture == a.moistureStatus)
    ensures a.recommendations == [] <==>
              a.temperatureStatus == TemperatureOptimal &&
              (a.moistureStatus == MoistureOptimal || a.moistureStatus == MoistureUnknown)
    ensures |a.recommendations| == 2 ==> a.recommendations[0].TemperatureAdvice? && a.recommendations[1].MoistureAdvice?
  {
    var optimal := Optimal(crop);
    var tempStatus := TemperatureStatusOf(crop, weather.temperature);
    var moistureStatus := MoistureUnknown;
    if weather.soilMoisture.Some? {
      moistureStatus := MoistureStatusOf(crop, weather.soilMoisture);
    }
    var recommendations: seq<Recommendation> := [];
    if tempStatus != TemperatureOptimal {
      recommendations := recommendations + [TemperatureAdvice(tempStatus)];
    }
    if moistureStatus != MoistureOptimal && moistureStatus != MoistureUnknown {
      recommendations := recommendations + [MoistureAdvice(moistureStatus)];
    }
    return Analysis(tempStatus, moistureStatus, recommendations, optimal);
  }
}

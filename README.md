# Agriculture advisor: rule tables and decision ladders

This project models the decision logic of an agriculture advisory service and
proves properties of it. The service is a REST API plus an MCP tool server. Its
logic is a set of constant tables and threshold ladders:

- **Crop management** (`CropService`): the growth-period and optimal-condition
  tables, the planting schedule worked back from a target harvest date, the
  stage-by-stage growth timeline, and the analysis of current conditions
  against a crop's optimal ranges.
- **Knowledge base** (`KnowledgeService`): disease-risk windows per crop,
  protection measures by growth stage, and farming-technique trees with
  climate-zone modifications merged in by a per-section shallow `update`.
  Python's ordered dictionaries are association lists (`OrderedDicts`).
- **Query validators** (`AdvancedValidation`, `SchemaValidation`): closed
  enumerations, field bounds and the rule checks each agronomic query runs:
  - the planting window;
  - wheat and corn soil and climate rules;
  - N/P/K caps;
  - infestation descriptions;
  - irrigation urgency;
  - harvest gates;
  - coordinate, date, temperature and climate-zone checks.

  The irrigation query is a class whose model validator assigns its `urgency`
  field.
- **Validation routes** (`ValidationRoutes`): the soil, pest, irrigation and
  harvest recommendation rules inside the route bodies.
- **Weather assessment** (`WeatherTools`, `WeatherToolsNew`,
  `WeatherResources`, `WeatherLabels`):
  - the planting, irrigation, field-work and soil ladders;
  - the forecast summary;
  - planting advice and pest risk;
  - the crop-specific planting recommendation;
  - the crop calendar.

  The second tools file is an identical copy. It is defined afresh and proved
  equal to the first, function by function.
- **Planting advice** (`McpServer`): crop × soil compatibility, crop × season
  notes, and the assembled advice result.
- **Weather service** (`WeatherService`): the forecast request size and the
  synthetic fallback forecast generated from a base observation.

Instants are whole seconds on one clock (`Models.Day`, `Models.Hour`). "Now" is
a parameter. Python's truthiness of an optional float is modelled explicitly:
`None` and `0.0` are both false. Label and message texts are datatype
constructors whose `Text()` or `Message()` gives the exact string.

Sunflower has two different soil minimums. The planting-advice table gives
10 °C (src/mcp_server.py:61). The crop calendar and the planting recommendation
use 12 °C (src/resources/weather_resources.py:134, :225).
`McpServer.SoilMinimumsAcrossTables` records this. The model keeps both values
as written.

## Model

| member | source | states |
|---|---|---|
| Models.StageIndexInjective | app/core/models/crop.py:14-23 | each growth stage has its own position in the life-cycle order |
| Models.TotalPrecipitationNonNegative | app/core/models/weather.py:11 | in a forecast of valid observations, total precipitation is never negative |
| Text.Lower | app/core/schemas/validation.py:80 | lower-casing keeps the length and folds each ASCII capital to its small letter |
| Text.LowerIsLower | app/core/schemas/validation.py:80-86 | a lower-cased string has no capital letters, and lower-casing it again changes nothing |
| Text.LowerOfLower | app/core/services/knowledge_service.py:570 | a string without capitals is its own lower-case form |
| OrderedDicts.Keys | app/core/services/knowledge_service.py:573 | the key list has one key per pair, in insertion order |
| OrderedDicts.IndexOf | app/core/services/knowledge_service.py:574 | returns the first position of the key, or none exactly when the key is absent |
| OrderedDicts.Get | app/core/services/knowledge_service.py:567 | a lookup succeeds exactly when the key is present |
| OrderedDicts.Put | app/core/services/knowledge_service.py:576-577 | `d[k] = v` maps k to v and leaves every other key unchanged; a present key keeps its place, a new key is appended; keys stay unique |
| OrderedDicts.GetLast | app/core/services/knowledge_service.py:575 | in a dict with unique keys, a lookup finds the last pair or searches the earlier pairs |
| OrderedDicts.UpdateGet | app/core/services/knowledge_service.py:575 | after `d.update(u)`, a key of u maps to u's value and every other key keeps d's |
| OrderedDicts.UpdateKeepsKeys | app/core/services/knowledge_service.py:575 | `update` keeps d's keys in their places as a prefix, and a key is in the result iff it is in d or in u, so only u's new keys are appended |
| OrderedDicts.UpdateUnique | app/core/services/knowledge_service.py:575 | `update` keeps keys unique |
| CropService.GrowthPeriods | app/core/services/crop_service.py:14-26 | only corn has growth periods; its table has the 8 stages in life-cycle order with 0 < min ≤ max |
| CropService.Optimal | app/core/services/crop_service.py:28-44 | every optimal range (temperature, soil moisture, pH) is non-empty |
| CropService.AverageDays | app/core/services/crop_service.py:137 | `(min+max)//2` lies between the stage's minimum and maximum |
| CropService.CornDurations | app/core/services/crop_service.py:15-23 | corn's conservative total is 172 days and its timeline spans 147 days |
| CropService.TimelineWithinTotal | app/core/services/crop_service.py:66-67 | since each average is at most its maximum, the timeline's days never exceed the total growing days |
| CropService.TimelineAt | app/core/services/crop_service.py:136-147 | entry k is table stage k; it starts after the first k average durations and lasts its own average |
| CropService.TimelineLength | app/core/services/crop_service.py:136-147 | the timeline has one entry per configured stage |
| CropService.TimelineContiguous | app/core/services/crop_service.py:133-147 | the timeline starts at the planting date; each stage starts where the previous ended and ends its duration after its start; stages keep table order; the last ends after the summed average days |
| CropService.BuildTimeline | app/core/services/crop_service.py:133-149 | the loop over any period table returns exactly the timeline: each stage runs `(min+max)//2` days from where the previous ended |
| CropService.CalculateGrowthTimeline | app/core/services/crop_service.py:125-149 | the loop builds exactly the contiguous timeline of the crop's table; a crop without growth periods is a configuration fault (the `KeyError`) |
| CropService.GetOptimalPlantingSchedule | app/core/services/crop_service.py:46-82 | total days is the sum of stage maxima; the target defaults to now plus the total; planting plus total equals the target, so with no target planting is now; the timeline runs from the planting date; wheat and sunflower fault |
| CropService.CornScheduleEndsBeforeHarvest | app/core/services/crop_service.py:66-71 | corn's last stage ends 147 days after planting, 25 days before the target harvest date |
| CropService.TimelineEndsByHarvest | app/core/services/crop_service.py:66-71 | for any well-formed table, the last stage ends no later than the target harvest date |
| CropService.TemperatureStatusOf | app/core/services/crop_service.py:96-98 | optimal iff min ≤ t ≤ max, too cold iff t < min, too hot iff t > max |
| CropService.MoistureStatusOf | app/core/services/crop_service.py:100-105 | unknown iff there is no soil-moisture reading; otherwise optimal, too dry or too wet iff the reading is inside, below or above the range |
| CropService.AnalyzeGrowingConditions | app/core/services/crop_service.py:84-123 | one recommendation for each non-optimal known status, temperature first; none iff temperature is optimal and moisture is optimal or unknown; the pH range is returned but never checked |
| KnowledgeService.FiringIndices | app/core/services/knowledge_service.py:152-157 | the indices of the rules whose windows both contain the readings, each once and increasing |
| KnowledgeService.MatchingRisks | app/core/services/knowledge_service.py:150-166 | a rule's risk is reported iff the rule fires, only firing rules are reported, each report is "high" and echoes t and h, and there are at most as many reports as rules |
| KnowledgeService.MatchingRisksInOrder | app/core/services/knowledge_service.py:150-166 | one report per firing rule, in table order: report k is the risk of the k-th firing rule |
| KnowledgeService.GetDiseaseRisks | app/core/services/knowledge_service.py:141-168 | the loop returns the risks of the crop's firing rules in table order; sunflower has no table and gets none |
| KnowledgeService.RiskReportedIff | app/core/services/knowledge_service.py:156-157 | with distinct disease names, a disease is reported iff both readings lie in its inclusive windows |
| KnowledgeService.DiseaseExamples | app/core/services/knowledge_service.py:12-107 | corn at 25 °C and 90 % fires all three corn diseases; wheat at 15 °C and 60 % fires black rust and powdery mildew (lower bounds inclusive) but not smut |
| KnowledgeService.GetProtectionMeasures | app/core/services/knowledge_service.py:170-206 | disease and weed control get their two measures iff the stage is emergence or tillering, pest control iff emergence or flowering; otherwise the lists are empty; crop and conditions are not read |
| KnowledgeService.MergeModifications | app/core/services/knowledge_service.py:573-577 | the merge loop yields the fold of per-section merges over the modifications, in order |
| KnowledgeService.ApplyClimateModifications | app/core/services/knowledge_service.py:569-577 | a zone listed in the table has its modifications merged into the tree; an unlisted zone leaves the tree unchanged |
| KnowledgeService.GetFarmingTechniques | app/core/services/knowledge_service.py:208-579 | the result depends only on the crop and the lower-cased zone, never on the soil type; an unregistered zone returns the base tree unchanged |
| KnowledgeService.MergeGet | app/core/services/knowledge_service.py:573-577 | a modification section the base has is shallow-updated, one it lacks is added whole, and a base section not modified is unchanged |
| KnowledgeService.MergedSectionGet | app/core/services/knowledge_service.py:574-575 | inside a merged section, a sub-key set by the modification takes its value and every other sub-key keeps the base value |
| KnowledgeService.MergeKeepsModifiedKeys | app/core/services/knowledge_service.py:573-577 | every section the modifications name is present after the merge |
| KnowledgeService.ZoneMatchIsCaseInsensitive | app/core/services/knowledge_service.py:570-571 | zone names that differ only in case give the same techniques |
| KnowledgeService.ContinentalCornExample | app/core/services/knowledge_service.py:468-488 | continental corn, in any case: planting timing becomes the modification's text, the base seed depth survives, and a winter-protection section is added |
| AdvancedValidation.ParseSoilType | app/core/schemas/advanced_validation.py:7-15 | a parsed soil type has exactly the given value |
| AdvancedValidation.ParseClimateZone | app/core/schemas/advanced_validation.py:18-26 | a parsed climate zone has exactly the given value |
| AdvancedValidation.ParseIrrigationMethod | app/core/schemas/advanced_validation.py:29-35 | a parsed irrigation method has exactly the given value |
| AdvancedValidation.EnumRoundTrips | app/core/schemas/advanced_validation.py:7-35 | every member parses back from its value, so values are distinct; "sub_arctic" is not a zone, "subarctic" is |
| AdvancedValidation.ValidatePlantingDate | app/core/schemas/advanced_validation.py:49-58 | accepted iff now − 365 d ≤ d ≤ now + 365 d; the too-old message iff before the window, the too-far message iff after it |
| AdvancedValidation.ValidateCropRequirementsAsWritten | app/core/schemas/advanced_validation.py:60-79 | the rule as written crashes iff the crop is corn, the zone is neither subarctic nor mediterranean, and both irrigation method and rainfall are missing |
| AdvancedValidation.CornWithoutWaterDataCrashes | app/core/schemas/advanced_validation.py:75 | a continental corn query with no irrigation method and no rainfall crashes |
| AdvancedValidation.ValidateCropRequirements | app/core/schemas/advanced_validation.py:60-79 | wheat: soil rejected iff sandy or silty clay, then tropical rejected, accepted iff neither; corn: season rejected iff subarctic or mediterranean, then water rejected iff no irrigation and rainfall missing or below 500, accepted iff neither; other crops always pass |
| AdvancedValidation.CropRequirementsAgree | app/core/schemas/advanced_validation.py:72-77 | where the written rule does not crash, the corrected rule reaches the same verdict; where it crashes, the corrected rule rejects for water |
| AdvancedValidation.CropManagementFieldIssues | app/core/schemas/advanced_validation.py:40-58 | no issue iff the planting date is in its window, the field size is positive and any rainfall is non-negative |
| AdvancedValidation.ValidateCropManagementQuery | app/core/schemas/advanced_validation.py:38-79 | accepted iff all fields pass and the corrected crop rules pass; field errors come before rule errors; with the fields valid, a failing crop rule is reported with its own reason; an accepted query is unchanged; where the written rule would crash, the water rejection is returned instead |
| AdvancedValidation.CropManagementExamples | tests/test_api/test_validation.py:15-50 | loam continental wheat accepted, sandy wheat rejected for soil, drip-irrigated corn with 200 mm accepted, subarctic corn rejected for season |
| AdvancedValidation.SoilAnalysisFieldIssues | app/core/schemas/advanced_validation.py:83-89 | no issue iff pH in [0,14], organic matter and soil moisture in [0,100], and N, P, K non-negative |
| AdvancedValidation.NpkViolations | app/core/schemas/advanced_validation.py:94-100 | lists each exceeded cap (N > 500, P > 300, K > 800) and no other |
| AdvancedValidation.CheckNpkLevels | app/core/schemas/advanced_validation.py:91-100 | passes iff no cap is exceeded; values at the caps pass |
| AdvancedValidation.CheckNpkReportsFirstViolation | app/core/schemas/advanced_validation.py:94-100 | only the first exceeded cap, in N, P, K order, is reported |
| AdvancedValidation.ValidateSoilAnalysisQuery | app/core/schemas/advanced_validation.py:82-100 | accepted iff all bounds hold and no cap is exceeded; a bound that fails makes the field-issue list the error; when all bounds hold, the first nutrient violation is the error |
| AdvancedValidation.SoilAnalysisExamples | tests/test_api/test_validation.py:52-69 | readings at the caps are accepted; 600 of nitrogen is rejected for nitrogen |
| AdvancedValidation.ValidateInfestation | app/core/schemas/advanced_validation.py:106-123 | a level is accepted iff it is in 1..5, and it is replaced by itself and its description |
| AdvancedValidation.InfestationDescriptions | app/core/schemas/advanced_validation.py:114-123 | distinct levels have distinct descriptions; level 3's ends in "Treatment recommended" |
| AdvancedValidation.UrgencyOf | app/core/schemas/advanced_validation.py:140-148 | high iff moisture < 30, rain < 10, temp > 30 and humidity < 50; medium iff dry and rainless without that heat; low otherwise |
| AdvancedValidation.UrgencyTexts | app/core/schemas/advanced_validation.py:143-148 | the three urgency texts are distinct and each starts with its level |
| AdvancedValidation.IrrigationScheduleQuery.CheckIrrigationNeeds | app/core/schemas/advanced_validation.py:137-149 | the validator sets the urgency field to the ladder's text |
| AdvancedValidation.IrrigationScheduleQuery.Validate | app/core/schemas/advanced_validation.py:126-149 | a query is built iff its bounded fields are in range; the built query carries all seven inputs and the ladder's urgency |
| AdvancedValidation.UrgencyExamples | tests/test_api/test_validation.py:86-99 | moisture 25, rain 5, 32 °C, 45 % is high; a cool day is medium; wet soil is low |
| AdvancedValidation.ValidateHarvestTiming | app/core/schemas/advanced_validation.py:159-167 | corn is rejected iff degree days < 2700; wheat iff its grain moisture is truthy and above 18; a missing or zero moisture skips the check |
| AdvancedValidation.HarvestTimingFieldIssues | app/core/schemas/advanced_validation.py:153-157 | no issue iff degree days and rainfall are non-negative and any grain moisture lies in [0,100] |
| AdvancedValidation.ValidateHarvestTimingQuery | app/core/schemas/advanced_validation.py:151-167 | accepted iff all bounds hold and the harvest gate passes; a bound that fails makes the field-issue list the error; when all bounds hold, the gate's reason is the error |
| AdvancedValidation.HarvestTimingExamples | tests/test_api/test_validation.py:101-116 | wheat at 15 % accepted, at 20 % rejected, at 0 % unchecked; corn at 2699 degree days rejected |
| SchemaValidation.ValidateLocation | app/core/schemas/validation.py:7-24 | no issue iff latitude in [−90,90] and longitude in [−180,180], bounds inclusive; each coordinate is reported iff out of range |
| SchemaValidation.ValidateDates | app/core/schemas/validation.py:34-39 | rejected iff both dates are given and the end is before the start; equal dates pass |
| SchemaValidation.ValidateHarvestDate | app/core/schemas/validation.py:48-52 | rejected iff a target is given and it is before now |
| SchemaValidation.ValidateTemperature | app/core/schemas/validation.py:64-68 | accepted iff −50 ≤ t ≤ 60 |
| SchemaValidation.ValidateConditions | app/core/schemas/validation.py:55-68 | no issue iff the temperature check passes and humidity is in [0,100]; each is reported iff it fails |
| SchemaValidation.ValidateClimateZone | app/core/schemas/validation.py:77-86 | accepted iff the lower-cased name is one of the five zones; the stored value is that lower-cased name |
| SchemaValidation.ClimateZoneIdempotent | app/core/schemas/validation.py:80-86 | validating a stored zone again accepts it unchanged |
| SchemaValidation.ValidZonesHaveModifications | app/core/schemas/validation.py:79-82 | the accepted zones are exactly the zones the knowledge base has modifications for, in the same order |
| ValidationRoutes.ValidateSoilAnalysis | app/api/routes/validation.py:33-50 | lime iff pH < 6.0, sulfur iff pH > 7.5, never both; organic-matter advice iff organic matter < 3.0, and it comes last; exactly one item per firing advice, so the list is fixed |
| ValidationRoutes.PestUrgencyOf | app/api/routes/validation.py:58-59 | low iff level ≤ 2, medium iff level 3, high iff level ≥ 4 |
| ValidationRoutes.ValidatePestControl | app/api/routes/validation.py:53-70 | the response echoes the stored description and carries the level's urgency |
| ValidationRoutes.PestUrgencyMonotone | app/api/routes/validation.py:58-59 | over levels 1..5 urgency never decreases with the level; the level-3 query is medium |
| ValidationRoutes.ValidateIrrigationSchedule | app/api/routes/validation.py:73-84 | the route returns the urgency the query stored, unchanged |
| ValidationRoutes.IrrigationRouteReportsLadder | app/api/routes/validation.py:76-78 | a query its schema accepts reaches the route with the ladder's urgency; a rejected one never does |
| ValidationRoutes.ValidateHarvestTimingRoute | app/api/routes/validation.py:87-107 | a failing gate becomes the error; otherwise "suitable" comes first, then a moisture note iff grain moisture is truthy, then a rain note last iff rain > 0, so 1 to 3 notes |
| WeatherTools.AssessPlantingConditions | src/tools/weather_tools.py:162-173 | too cold iff t < 10; too hot iff t > 35; too wet iff the temperature is fine and rain > 10; dry iff also a truthy moisture < 30; good only within those limits |
| WeatherTools.AssessIrrigationNeed | src/tools/weather_tools.py:175-182 | recommended iff a truthy moisture is below 40; not needed iff not that and rain > 5 |
| WeatherTools.AssessFieldWorkConditions | src/tools/weather_tools.py:184-191 | unsuitable iff rain > 2; caution iff dry enough and wind > 15; suitable otherwise |
| WeatherTools.ZeroMoistureIsMissing | src/tools/weather_tools.py:170-177 | a soil moisture of 0.0 gives the same planting and irrigation verdicts as no reading |
| WeatherTools.DrySoilNeedsIrrigation | src/tools/weather_tools.py:170-178 | when planting is blocked by dry soil, irrigation is recommended |
| WeatherTools.AssessSoilTemperature | src/tools/weather_tools.py:193-204 | exactly one of five bands split at 5, 10, 15 and 25, with strict `<` |
| WeatherTools.SoilTemperatureMonotone | src/tools/weather_tools.py:193-204 | warmer soil never falls in a colder band |
| WeatherTools.AssessSoilMoisture | src/tools/weather_tools.py:206-217 | exactly one of five bands split at 20, 40, 70 and 85, with strict `<` |
| WeatherTools.SoilMoistureMonotone | src/tools/weather_tools.py:206-217 | wetter soil never falls in a drier band |
| WeatherTools.AssessOverallSoilConditions | src/tools/weather_tools.py:219-229 | wait iff temp < 10 or moisture < 30 (missing values read as 0); heat-and-moisture stress iff not waiting and temp > 25 and moisture > 80 |
| WeatherTools.MissingSoilDataWaits | src/tools/weather_tools.py:221-222 | a reading missing either value always says to wait |
| WeatherTools.AssessSoilConditions | src/tools/weather_tools.py:149-153 | the assessment carries both bands of the readings; a wait verdict comes with a cold or dry band |
| WeatherTools.GoodWorkDays | src/tools/weather_tools.py:244-247 | keeps exactly the entries with rain < 2 and wind < 15, so never more than the forecast; empty iff no such entry |
| WeatherTools.GoodWorkDaysMultiplicity | src/tools/weather_tools.py:244-247 | each good entry is kept as often as it occurs and no other entry is kept, so the reported number of work days is the number of good entries |
| WeatherTools.SuitablePlantingDays | src/tools/weather_tools.py:267-270 | keeps exactly the entries with 10 ≤ t ≤ 30 and rain < 5; empty iff no such entry |
| WeatherTools.SuitablePlantingDaysMultiplicity | src/tools/weather_tools.py:266-277 | each suitable entry is kept as often as it occurs and no other entry is kept, so the ≥ 3 and ≥ 1 thresholds count suitable entries |
| WeatherTools.SuitablePlantingDaysAppend | src/tools/weather_tools.py:267-270 | the suitable days of two stretches of forecast are those of each, in order |
| WeatherTools.PlantingForecastAdvice | src/tools/weather_tools.py:265-277 | good iff at least 3 suitable days, limited iff 1 or 2, wait iff no entry is suitable |
| WeatherTools.PlantingAdviceMonotone | src/tools/weather_tools.py:265-277 | a longer forecast never gives worse planting advice |
| WeatherTools.AssessPestDiseaseRisk | src/tools/weather_tools.py:279-286 | high disease risk iff humidity > 80 and rain > 20; moderate pest risk iff not that and temp > 25 and humidity < 50 |
| WeatherTools.PestRiskOrderImmaterial | src/tools/weather_tools.py:281-284 | the two risk rungs never both hold, so their order does not matter |
| WeatherTools.AnalyzeForecast | src/tools/weather_tools.py:231-263 | error iff the forecast is empty; otherwise the total rain, the two averages, work days ≤ entries, low irrigation priority iff rain > 15, and the two advices of those figures |
| WeatherTools.Average | src/tools/weather_tools.py:239-242 | the average times the count is the total |
| WeatherTools.AverageHumidityBounded | src/tools/weather_tools.py:241-242 | in a valid forecast the average humidity lies in [0,100] |
| WeatherTools.AverageBetween | src/tools/weather_tools.py:239-242 | a mean lies between bounds every value respects |
| WeatherTools.TotalHumidityBounded | src/tools/weather_tools.py:241-242 | the humidity total of n valid entries lies in [0, 100·n] |
| WeatherToolsNew.AssessPlantingConditions | src/tools/weather_tools_new.py:162-173 | equals the first copy's planting ladder on every observation |
| WeatherToolsNew.AssessIrrigationNeed | src/tools/weather_tools_new.py:175-182 | equals the first copy's irrigation ladder, zero-moisture truthiness included |
| WeatherToolsNew.AssessFieldWorkConditions | src/tools/weather_tools_new.py:184-191 | equals the first copy's field-work ladder |
| WeatherToolsNew.AssessSoilTemperature | src/tools/weather_tools_new.py:193-204 | equals the first copy's soil-temperature bands |
| WeatherToolsNew.AssessSoilMoisture | src/tools/weather_tools_new.py:206-217 | equals the first copy's soil-moisture bands |
| WeatherToolsNew.AssessOverallSoilConditions | src/tools/weather_tools_new.py:219-229 | equals the first copy's overall soil verdict |
| WeatherToolsNew.GoodWorkDays | src/tools/weather_tools_new.py:244-247 | equals the first copy's work-day filter |
| WeatherToolsNew.SuitablePlantingDays | src/tools/weather_tools_new.py:267-270 | equals the first copy's planting-day filter |
| WeatherToolsNew.PlantingForecastAdvice | src/tools/weather_tools_new.py:265-277 | equals the first copy's planting advice, with thresholds 3 and 1 |
| WeatherToolsNew.AssessPestDiseaseRisk | src/tools/weather_tools_new.py:279-286 | equals the first copy's pest-risk ladder, in the same order |
| WeatherToolsNew.AnalyzeForecast | src/tools/weather_tools_new.py:231-263 | equals the first copy's forecast analysis, including the empty-forecast error |
| WeatherResources.AssessPlantingConditions | src/resources/weather_resources.py:171-182 | equals the tools' planting ladder |
| WeatherResources.AssessIrrigationNeed | src/resources/weather_resources.py:185-192 | equals the tools' irrigation ladder |
| WeatherResources.AssessFieldWorkConditions | src/resources/weather_resources.py:195-202 | equals the tools' field-work ladder |
| WeatherResources.SoilTemperatureOrEstimate | src/resources/weather_resources.py:207-208 | a truthy soil reading is used as is; a missing or zero one is estimated as air temperature − 2 |
| WeatherResources.GetPlantingRecommendation | src/resources/weather_resources.py:205-232 | corn waits iff soil < 10, else too hot iff t > 30, else good; wheat waits iff soil < 4, else excellent iff 15 ≤ t ≤ 25, else acceptable; sunflower waits iff soil < 12, else ideal iff 20 ≤ t ≤ 28, else acceptable; "monitor" iff the lower-cased name is none of the three |
| WeatherResources.CornEstimateExample | src/resources/weather_resources.py:207-212 | without a soil reading, "CORN" at 11 °C air waits, since the soil is estimated at 9 °C |
| WeatherResources.CropCalendar | src/resources/weather_resources.py:118-139 | wheat and sunflower (any case) get their own entries; any other name gets corn's |
| WeatherResources.CalendarKeys | src/resources/weather_resources.py:118-137 | the calendar has exactly the corn, wheat and sunflower entries |
| WeatherResources.CalendarMatchesRecommendation | src/resources/weather_resources.py:121-134 | each crop's calendar soil requirement names the threshold its planting recommendation waits for |
| WeatherResources.ForecastIrrigationNeeds | src/resources/weather_resources.py:88-92 | irrigation needs are low iff total rain exceeds 15 mm |
| WeatherResources.OutlookAgreesWithTools | src/resources/weather_resources.py:88-92 | the resource's outlook is low exactly when the tools' forecast analysis gives low priority |
| McpServer.SoilCompatibility | src/mcp_server.py:92-114 | an entry for every crop and soil; rated excellent iff the soil is loam, poor iff it is wheat on sandy soil |
| McpServer.SeasonalNotes | src/mcp_server.py:117-136 | a note for every crop and season; "Not recommended" iff the season is fall and the crop is not wheat |
| McpServer.CropAdviceFor | src/mcp_server.py:47-66 | the minimum soil temperature is 4 for wheat and 10 for corn and sunflower |
| McpServer.SoilMinimumsAcrossTables | src/mcp_server.py:49-61 | the advice and the calendar agree on the soil minimum for corn and wheat; for sunflower the advice's 10 is below the calendar's 12 |
| McpServer.GetCropPlantingAdvice | src/mcp_server.py:68-88 | echoes crop, soil, season and location; takes the crop's minimum; the compatibility and seasonal fields are the helpers' texts; always the same four next steps |
| WeatherService.ForecastCount | src/services/weather_service.py:78 | `min(days*8, 40)`: never above 40, and days·8 when days ≤ 5 |
| WeatherService.Mod360 | src/services/weather_service.py:205 | the remainder lies in [0,360) and differs from the input by whole turns |
| WeatherService.Clamp | src/services/weather_service.py:200-201 | the result lies in the bounds, and a value already inside is kept |
| WeatherService.FallbackEntry | src/services/weather_service.py:192-211 | humidity in [30,90]; rain 2.0 iff i mod 7 = 0; wind ≥ 0; direction (base + 5i) mod 360; soil temp = air − 2; soil moisture is the base reading (45 when missing or zero) plus (i mod 4 − 2)·5, clamped to [20,80]; stamped 3i hours after now; temperature within [base − 10.5, base + 8] |
| WeatherService.FallbackForecast | src/services/weather_service.py:186-217 | the loop builds days·8 entries (none for days ≤ 0), entry i being the i-th fallback entry |
| WeatherService.FallbackEntriesValid | src/services/weather_service.py:194-211 | every fallback entry satisfies the observation record's bounds, whatever the base |
| WeatherService.FallbackEntriesThreeHoursApart | src/services/weather_service.py:210 | consecutive entries are 3 hours apart, so 8 entries span a day |

## Left out

- Network I/O is not modelled: the HTTP clients, health checks and API calls of both weather services. So are the FastAPI routers, dependency injection, status mapping and MCP decorators.
- The agent wrapper (app/core/agent/interface.py) returns canned strings and carries no rules.
- Configuration read from environment variables is not modelled.
- `_get_fallback_weather` is not modelled: it uses `math.sin`, `round` and the wall clock. `_get_fallback_soil_data` is a constant dictionary.
- Python's per-process `hash()` of the location is an uninterpreted parameter (`WeatherService.LocationHash`).
- Every call to the clock is one `now` parameter, so two calls in one request read the same instant.
- The unused forecast fetch at the start of the planting schedule is dropped.
- `round(x, 1)`, f-string assembly, and the daily grouping and emoji text of the forecast resource are not modelled.
- Text.Lower: folds ASCII letters only; Python's `str.lower` also folds other Unicode letters.
- The `.isoformat()` call on the fallback soil timestamp, which is already a string, is not modelled (src/tools/weather_tools.py:147).
- WeatherTools.AssessSoilConditions: a missing key reads as 0, as `.get(key, 0)` does; a key present with a `None` value, which would raise on comparison, is not distinguished from a missing one.
- WeatherTools.AnalyzeForecast: the averages are exact; the one-decimal rounding of the reported summary is not modelled.
- WeatherToolsNew.AnalyzeForecast: reuses the first copy's `ForecastAnalysis` record and `Average`, since the two files declare the same summary.
- AdvancedValidation.ValidateCropManagementQuery: composes the corrected crop rule, so a corn query with no irrigation method, no expected rainfall and a zone other than subarctic or mediterranean is rejected for water, where the written code raises an unhandled `TypeError`; `ValidateCropRequirementsAsWritten` keeps the crash.
- AdvancedValidation.ValidateCropManagementQuery: a field outside its declared bounds is reported by field name, not with the validation library's message text. The same holds for the soil, pest, irrigation and harvest queries and `SchemaValidation.OutOfBounds`.
- AdvancedValidation.ValidateCropRequirements: the crop-management route's canned response strings (app/api/routes/validation.py:21-31) are not modelled.
- ValidationRoutes.ValidatePestControl: the f-string recommendation texts of the pest and irrigation routes are not modelled; the urgency and the echoed values are.
- CropService.AnalyzeGrowingConditions: recommendations are constructors carrying their status; the surrounding sentence is the fixed text around it.
- McpServer.GetCropPlantingAdvice: the minimum soil temperature is the number, not its formatted "10Â°C" text.
- The crop and soil arguments of the MCP tool are closed datatypes. An unknown name, which raises a `KeyError` in the source, is outside the model's domain.
- `isinstance` checks and pydantic coercion of input types are not modelled; inputs arrive already typed.
- src/models/weather.py is not part of this model; the observation record follows app/core/models/weather.py.

## Findings

| source | as written | input that shows it | evidently intended | confidence | as-written member | corrected member |
|---|---|---|---|---|---|---|
| app/core/schemas/advanced_validation.py:75 | with no irrigation method, the corn rule compares `expected_rainfall` with 500; `getattr(self, "expected_rainfall", 0)` never falls back to 0 because the field always exists and may be `None` | corn, clay loam, continental, no irrigation method, no expected rainfall: `None < 500` raises `TypeError` instead of a validation error | a missing rainfall counts as none, so the query is rejected with "Corn requires either irrigation or sufficient rainfall" | not executed | AdvancedValidation.CornWithoutWaterDataCrashes | AdvancedValidation.ValidateCropRequirements |

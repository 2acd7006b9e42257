/**
 * The knowledge base: per-crop disease-risk windows, stage-based protection
 * measures, and the farming-technique trees with their climate-zone
 * modifications merged in per top-level section.
 */
module KnowledgeService {
  import opened Outcomes
  import opened Models
  import opened Text
  import opened OrderedDicts

  // ---------------------------------------------------------------------------
  // Disease risks

  /** One disease of a crop: its temperature (°C) and humidity (%) windows,
      inclusive at both ends, and its descriptive texts. */
  datatype DiseaseRule = DiseaseRule(
    name: string,
    tempMin: real, tempMax: real,
    humidityMin: real, humidityMax: real,
    riskDescription: string,
    symptoms: seq<string>,
    management: seq<string>)

  /** `_disease_risk_factors`: wheat and corn have three diseases each; sunflower has no entry. */
  const DiseaseRiskFactors: map<CropType, seq<DiseaseRule>> := map[Wheat := WheatDiseases, Corn := CornDiseases]

  const WheatDiseases: seq<DiseaseRule> := [
    DiseaseRule("black_rust", 15.0, 25.0, 60.0, 100.0,
      "High risk when temperature is between 15-25°C with high humidity",
      ["Reddish-brown pustules on leaves and stems", "Black teliospores form late in season", "Reduced grain fill and yield"],
      ["Plant resistant varieties", "Early planting to avoid peak disease period", "Monitor and apply fungicides when necessary"]),
    DiseaseRule("smut", 16.0, 22.0, 70.0, 100.0,
      "Risk increases with high humidity and moderate temperatures",
      ["Black spores replace grain in heads", "Fishy smell in infected grain", "Reduced grain quality"],
      ["Use certified disease-free seed", "Treat seeds with fungicide", "Practice crop rotation"]),
    DiseaseRule("powdery_mildew", 15.0, 22.0, 50.0, 100.0,
      "Common in dense canopies with high humidity",
      ["White powdery growth on leaves", "Yellowing and death of leaves", "Reduced photosynthesis"],
      ["Use resistant varieties", "Maintain good air circulation", "Apply fungicides preventively in high-risk conditions"])
  ]

  const CornDiseases: seq<DiseaseRule> := [
    DiseaseRule("northern_leaf_blight", 18.0, 27.0, 70.0, 100.0,
      "Favored by moderate temperatures and high humidity",
      ["Long, cigar-shaped lesions", "Grayish-green to brown color", "Lesions begin on lower leaves"],
      ["Plant resistant hybrids", "Rotate crops", "Apply fungicides at early infection"]),
    DiseaseRule("gray_leaf_spot", 22.0, 30.0, 85.0, 100.0,
      "Severe in areas with high humidity and warm temperatures",
      ["Rectangular lesions between leaf veins", "Gray to tan color", "Lesions expand and coalesce"],
      ["Use resistant hybrids", "Practice crop rotation", "Consider fungicide application"]),
    DiseaseRule("common_rust", 16.0, 25.0, 75.0, 100.0,
      "Develops rapidly in cool, moist conditions",
      ["Small, circular pustules on leaves", "Reddish-brown color", "Pustules on both leaf surfaces"],
      ["Plant resistant hybrids", "Monitor fields regularly", "Apply fungicides if detected early"])
  ]

  /** A risk reported for a firing rule; the risk level is always "high". */
  datatype RiskResult = RiskResult(
    disease: string,
    riskLevel: string,
    description: string,
    temperature: real,
    humidity: real)

  /** A rule fires when temperature AND humidity both fall in its inclusive windows. */
  predicate Fires(rule: DiseaseRule, temperature: real, humidity: real) {
    rule.tempMin <= temperature <= rule.tempMax && rule.humidityMin <= humidity <= rule.humidityMax
  }

  function RiskFor(rule: DiseaseRule, temperature: real, humidity: real): RiskResult {
    RiskResult(rule.name, "high", rule.riskDescription, temperature, humidity)
  }

  /** The indices of the firing rules, increasing: each firing rule once, in table order. */
  function FiringIndices(rules: seq<DiseaseRule>, temperature: real, humidity: real): (idx: seq<nat>)
    ensures forall k :: 0 <= k < |idx| ==> idx[k] < |rules| && Fires(rules[idx[k]], temperature, humidity)
    ensures forall k, l :: 0 <= k < l < |idx| ==> idx[k] < idx[l]
    ensures forall i :: 0 <= i < |rules| && Fires(rules[i], temperature, humidity) ==> i in idx
  {
    if rules == [] then []
    else
      var pre := FiringIndices(rules[..|rules| - 1], temperature, humidity);
      assert forall i :: 0 <= i < |rules| - 1 ==> rules[..|rules| - 1][i] == rules[i];
      if Fires(rules[|rules| - 1], temperature, humidity) then pre + [|rules| - 1] else pre
  }

  /** The risks of the firing rules, in table order. */
  function MatchingRisks(rules: seq<DiseaseRule>, temperature: real, humidity: real): (rs: seq<RiskResult>)
    ensures |rs| <= |rules|
    ensures forall r :: r in rs ==> r.riskLevel == "high" && r.temperature == temperature && r.humidity == humidity
    ensures forall r :: r in rs ==> exists i :: 0 <= i < |rules| && Fires(rules[i], temperature, humidity) && r == RiskFor(rules[i], temperature, humidity)
    ensures forall i :: 0 <= i < |rules| && Fires(rules[i], temperature, humidity) ==> RiskFor(rules[i], temperature, humidity) in rs
  {
    if rules == [] then []
    else
      var pre := MatchingRisks(rules[..|rules| - 1], temperature, humidity);
      var last := rules[|rules| - 1];
      assert forall i :: 0 <= i < |rules| - 1 ==> rules[..|rules| - 1][i] == rules[i];
      if Fires(last, temperature, humidity) then pre + [RiskFor(last, temperature, humidity)] else pre
  }

  /** Each firing rule is reported once, in table order: report k is the risk
      of the k-th firing rule. */
  lemma {:induction false} MatchingRisksInOrder(rules: seq<DiseaseRule>, temperature: real, humidity: real)
    ensures |MatchingRisks(rules, temperature, humidity)| == |FiringIndices(rules, temperature, humidity)|
    ensures forall k :: 0 <= k < |FiringIndices(rules, temperature, humidity)| ==>
              MatchingRisks(rules, temperature, humidity)[k]
              == RiskFor(rules[FiringIndices(rules, temperature, humidity)[k]], temperature, humidity)
  {
    if rules != [] {
      var pre, last := rules[..|rules| - 1], rules[|rules| - 1];
      MatchingRisksInOrder(pre, temperature, humidity);
      var idx, rs := FiringIndices(pre, temperature, humidity), MatchingRisks(pre, temperature, humidity);
      var all, ars := FiringIndices(rules, temperature, humidity), MatchingRisks(rules, temperature, humidity);
      RisksSnoc(rules, temperature, humidity);
      forall k | 0 <= k < |idx|
        ensures ars[k] == RiskFor(rules[all[k]], temperature, humidity)
      {
        assert all[k] == idx[k] < |pre|;
        assert pre[idx[k]] == rules[idx[k]];
      }
    }
  }

  /** One more rule adds its index and its risk at the end, when it fires. */
  lemma RisksSnoc(rules: seq<DiseaseRule>, temperature: real, humidity: real)
    requires rules != []
    ensures var pre, last := rules[..|rules| - 1], rules[|rules| - 1];
      if Fires(last, temperature, humidity) then
        FiringIndices(rules, temperature, humidity) == FiringIndices(pre, temperature, humidity) + [|rules| - 1]
        && MatchingRisks(rules, temperature, humidity) == MatchingRisks(pre, temperature, humidity) + [RiskFor(last, temperature, humidity)]
      else
        FiringIndices(rules, temperature, humidity) == FiringIndices(pre, temperature, humidity)
        && MatchingRisks(rules, temperature, humidity) == MatchingRisks(pre, temperature, humidity)
  {
  }

  /** The rule table of a crop, empty when the crop has none. */
  function DiseaseRules(crop: CropType): seq<DiseaseRule> {
    if crop in DiseaseRiskFactors then DiseaseRiskFactors[crop] else []
  }

  /** `get_disease_risks`: every rule of the crop is tried in table order and each firing rule is appended. */
  method GetDiseaseRisks(crop: CropType, temperature: real, humidity: real) returns (risks: seq<RiskResult>)
    ensures risks == MatchingRisks(DiseaseRules(crop), temperature, humidity)
    ensures crop == Sunflower ==> risks == []
  {
    risks := [];
    if crop in DiseaseRiskFactors {
      var rules := DiseaseRiskFactors[crop];
      var i := 0;
      while i < |rules|
        invariant 0 <= i <= |rules|
        invariant risks == MatchingRisks(rules[..i], temperature, humidity)
      {
        var factors := rules[i];
        if factors.tempMin <= temperature <= factors.tempMax && factors.humidityMin <= humidity <= factors.humidityMax {
          risks := risks + [RiskResult(factors.name, "high", factors.riskDescription, temperature, humidity)];
        }
        assert rules[..i + 1][..i] == rules[..i];
        i := i + 1;
      }
      assert rules[..i] == rules;
    }
  }

  /** A disease is reported exactly when both readings lie in its windows,
      boundaries included; the report echoes the readings. */
  lemma {:induction false} RiskReportedIff(rules: seq<DiseaseRule>, rule: DiseaseRule, temperature: real, humidity: real)
    requires rule in rules
    requires forall i, j :: 0 <= i < j < |rules| ==> rules[i].name != rules[j].name
    ensures RiskFor(rule, temperature, humidity) in MatchingRisks(rules, temperature, humidity)
            <==> rule.tempMin <= temperature <= rule.tempMax && rule.humidityMin <= humidity <= rule.humidityMax
  {
    var rs := MatchingRisks(rules, temperature, humidity);
    if RiskFor(rule, temperature, humidity) in rs {
      var i :| 0 <= i < |rules| && Fires(rules[i], temperature, humidity) && RiskFor(rule, temperature, humidity) == RiskFor(rules[i], temperature, humidity);
      var j :| 0 <= j < |rules| && rules[j] == rule;
      assert rules[i].name == rules[j].name;
      assert i == j;
    }
  }

  /** Corn at 25°C and 90% humidity: all three corn diseases fire. At 15°C and
      60% wheat gets black rust and powdery mildew (lower bounds are inclusive)
      but not smut. */
  lemma DiseaseExamples()
    ensures |MatchingRisks(DiseaseRules(Corn), 25.0, 90.0)| == 3
    ensures MatchingRisks(DiseaseRules(Wheat), 15.0, 60.0) ==
              [RiskFor(DiseaseRules(Wheat)[0], 15.0, 60.0), RiskFor(DiseaseRules(Wheat)[2], 15.0, 60.0)]
  {
    CornDiseasesAt25And90();
    WheatDiseasesAt15And60();
  }

  lemma CornDiseasesAt25And90()
    ensures |MatchingRisks(DiseaseRules(Corn), 25.0, 90.0)| == 3
  {
    var c := CornDiseases;
    assert DiseaseRules(Corn) == c;
    assert Fires(c[0], 25.0, 90.0) && Fires(c[1], 25.0, 90.0) && Fires(c[2], 25.0, 90.0);
    assert c[..1][..0] == [] && c[..2][..1] == c[..1] && c[..3][..2] == c[..2] && c[..3] == c;
    assert |MatchingRisks(c[..1], 25.0, 90.0)| == 1;
    assert |MatchingRisks(c[..2], 25.0, 90.0)| == 2;
  }

  lemma WheatDiseasesAt15And60()
    ensures MatchingRisks(DiseaseRules(Wheat), 15.0, 60.0) ==
              [RiskFor(DiseaseRules(Wheat)[0], 15.0, 60.0), RiskFor(DiseaseRules(Wheat)[2], 15.0, 60.0)]
  {
    var w := WheatDiseases;
    assert DiseaseRules(Wheat) == w;
    assert Fires(w[0], 15.0, 60.0) && !Fires(w[1], 15.0, 60.0) && Fires(w[2], 15.0, 60.0);
    assert w[..1][..0] == [] && w[..2][..1] == w[..1] && w[..3][..2] == w[..2] && w[..3] == w;
    assert MatchingRisks(w[..1], 15.0, 60.0) == [RiskFor(w[0], 15.0, 60.0)];
    assert MatchingRisks(w[..2], 15.0, 60.0) == [RiskFor(w[0], 15.0, 60.0)];
  }

  // ---------------------------------------------------------------------------
  // Protection measures

  // Strings of `_protection_strategies` that the stage rules use.
  const CropRotation := "Rotate crops to break disease cycles"
  const SeedTreatment := "Treat seeds with fungicides before planting"
  const BeneficialInsects := "Encourage natural predators"
  const Insecticides := "Apply insecticides when pest thresholds are exceeded"
  const Tillage := "Implement appropriate tillage practices"
  const Herbicides := "Use selective herbicides appropriate for the crop"

  /** The three recommendation lists; every result carries all three keys. */
  datatype ProtectionMeasures = ProtectionMeasures(
    diseaseControl: seq<string>,
    pestControl: seq<string>,
    weedControl: seq<string>)

  /** `get_protection_measures`: stage-membership rules. Disease and weed control
      trigger at emergence and tillering, pest control at emergence and flowering;
      the crop type and the conditions are not consulted. */
  method GetProtectionMeasures(crop: CropType, stage: GrowthStage) returns (m: ProtectionMeasures)
    ensures m.diseaseControl == (if stage in {Emergence, Tillering} then [CropRotation, SeedTreatment] else [])
    ensures m.pestControl == (if stage in {Emergence, Flowering} then [BeneficialInsects, Insecticides] else [])
    ensures m.weedControl == (if stage in {Emergence, Tillering} then [Tillage, Herbicides] else [])
  {
    var diseaseControl: seq<string> := [];
    var pestControl: seq<string> := [];
    var weedControl: seq<string> := [];
    if stage == Emergence || stage == Tillering {
      diseaseControl := diseaseControl + [CropRotation, SeedTreatment];
    }
    if stage == Emergence || stage == Flowering {
      pestControl := pestControl + [BeneficialInsects, Insecticides];
    }
    if stage == Emergence || stage == Tillering {
      weedControl := weedControl + [Tillage, Herbicides];
    }
    m := ProtectionMeasures(diseaseControl, pestControl, weedControl);
  }

  // ---------------------------------------------------------------------------
  // Farming techniques

  /** A value of the technique trees: a text, a list of texts, or a nested dict. */
  datatype Value = Text(text: string) | Items(items: seq<string>) | Nested(entries: Dict<Value>)

  /** A top-level section (soil_preparation, planting, ...) is a dict. */
  type Section = Dict<Value>

  /** The technique tree of a crop: section name to section. */
  type Techniques = Dict<Section>

  /** `base_techniques[crop]`: the base tree of each crop. */
  function BaseTechniques(crop: CropType): Techniques {
    match crop
    case Sunflower => SunflowerTechniques
    case Corn => CornTechniques
    case Wheat => WheatTechniques
  }

  /** The sunflower base tree. */
  const SunflowerTechniques: Techniques := [
    ("soil_preparation", [
      ("tillage_depth", Text("20-25cm")),
      ("primary_tillage", Text("Deep plowing in fall")),
      ("secondary_tillage", Text("Light cultivation before planting")),
      ("soil_requirements", Nested([
        ("optimal_ph", Text("6.0-7.5")),
        ("organic_matter", Text(">1.5%")),
        ("drainage", Text("Well-drained soils essential"))])),
      ("recommended_methods", Items([
        "Deep tillage to break hardpan",
        "Seedbed should be firm and level",
        "Avoid excessive tillage to prevent soil moisture loss"]))]),
    ("planting", [
      ("timing", Nested([
        ("soil_temperature", Text("Above 8°C (46°F)")),
        ("frost_risk", Text("After all danger of spring frost")),
        ("season", Text("Early spring to early summer"))])),
      ("seed_depth", Text("4-6cm")),
      ("row_spacing", Text("70-100cm")),
      ("plant_spacing", Text("20-30cm")),
      ("seeding_rate", Text("40,000-50,000 seeds/ha")),
      ("considerations", Items([
        "Plant when soil is moist but not wet",
        "Consider bee population for pollination",
        "Avoid planting in areas with bird pressure"]))]),
    ("fertilization", [
      ("base_application", Nested([
        ("npk_ratio", Text("20-40-40")),
        ("timing", Text("Pre-planting incorporation")),
        ("method", Text("Broadcast and incorporate"))])),
      ("nutrient_requirements", Nested([
        ("nitrogen", Text("60-100 kg/ha")),
        ("phosphorus", Text("40-80 kg/ha")),
        ("potassium", Text("40-80 kg/ha")),
        ("boron", Text("1-2 kg/ha if deficient"))])),
      ("timing", Items([
        "50% at planting",
        "50% at V4 stage (4 true leaves)"]))]),
    ("irrigation", [
      ("critical_periods", Items([
        "Germination to emergence",
        "Flowering",
        "Seed filling"])),
      ("water_requirements", Text("400-500mm total")),
      ("methods", Items([
        "Center pivot irrigation",
        "Drip irrigation for water conservation"])),
      ("management", Nested([
        ("early_stage", Text("Maintain consistent moisture")),
        ("flowering", Text("Critical irrigation period")),
        ("maturity", Text("Reduce irrigation for proper drying"))]))]),
    ("harvest", [
      ("timing", Nested([
        ("moisture_content", Text("Below 12%")),
        ("indicators", Items([
          "Back of head turns brown",
          "Bracts turn brown",
          "Seeds are firm and dark"]))])),
      ("methods", Items([
        "Combine harvesting",
        "Adjust combine settings to minimize damage"])),
      ("post_harvest", Items([
        "Quick drying if moisture is above 10%",
        "Clean storage facilities",
        "Monitor temperature and moisture during storage"]))])
  ]

  /** The corn base tree, one named section at a time. */
  const CornTechniques: Techniques := [
    ("soil_preparation", CornSoilPreparation),
    ("planting", CornPlanting),
    ("fertilization", CornFertilization),
    ("irrigation", CornIrrigation)
  ]

  /** The sections of the corn base tree. */
  const CornSoilPreparation: Section := [
    ("tillage_depth", Text("20-30cm")),
    ("primary_tillage", Text("Fall plowing recommended for heavy soils")),
    ("secondary_tillage", Text("Spring cultivation to prepare seedbed")),
    ("soil_requirements", Nested([
      ("optimal_ph", Text("6.0-7.0")),
      ("organic_matter", Text(">2%")),
      ("drainage", Text("Well-drained soils required"))])),
    ("recommended_methods", Items([
      "Deep plowing for heavy soils",
      "Conservation tillage for erosion-prone areas",
      "Minimum tillage in dry regions"]))
  ]

  const CornPlanting: Section := [
    ("timing", Nested([
      ("soil_temperature", Text("Above 10°C (50°F)")),
      ("frost_risk", Text("Plant after last spring frost"))])),
    ("seed_depth", Text("5-7cm")),
    ("row_spacing", Text("75-100cm")),
    ("plant_spacing", Text("15-20cm")),
    ("seeding_rate", Text("60,000-70,000 seeds/ha")),
    ("considerations", Items([
      "Ensure soil moisture is adequate",
      "Consider using starter fertilizer",
      "Check soil temperature at planting depth"]))
  ]

  const CornFertilization: Section := [
    ("base_application", Nested([
      ("npk_ratio", Text("15-15-15")),
      ("timing", Text("Pre-planting or at planting")),
      ("method", Text("Band placement 5cm below and beside seed"))])),
    ("nitrogen_management", Nested([
      ("total_n_required", Text("180-200 kg/ha")),
      ("split_applications", Items([
        "30% at planting",
        "40% at V6 stage",
        "30% at V12 stage"]))]))
  ]

  const CornIrrigation: Section := [
    ("critical_periods", Items([
      "Early vegetative growth",
      "Tasseling to silk emergence",
      "Grain filling"])),
    ("water_requirements", Text("500-800mm total")),
    ("methods", Items([
      "Center pivot irrigation",
      "Drip irrigation for water conservation",
      "Furrow irrigation in flat areas"])),
    ("scheduling", Nested([
      ("early_stage", Text("Light, frequent irrigation")),
      ("mid_season", Text("Heavy irrigation during critical periods")),
      ("late_season", Text("Reduced irrigation during maturity"))]))
  ]

  /** The wheat base tree. */
  const WheatTechniques: Techniques := [
    ("soil_preparation", [
      ("tillage_depth", Text("15-20cm")),
      ("primary_tillage", Text("Light cultivation for winter wheat")),
      ("secondary_tillage", Text("Seedbed preparation")),
      ("soil_requirements", Nested([
        ("optimal_ph", Text("6.0-7.0")),
        ("organic_matter", Text(">1.5%")),
        ("drainage", Text("Moderate to well-drained")),
        ("texture", Text("Medium to heavy soils preferred")),
        ("compaction", Text("Avoid soil compaction below 15cm"))])),
      ("seasonal_variations", Nested([
        ("winter_wheat", Nested([
          ("timing", Text("Early fall preparation")),
          ("depth", Text("Slightly shallower to prevent heaving"))])),
        ("spring_wheat", Nested([
          ("timing", Text("Early spring as soon as workable")),
          ("depth", Text("Standard depth for good root establishment"))]))])),
      ("recommended_methods", Items([
        "Minimum tillage for moisture conservation",
        "No-till in suitable conditions",
        "Conventional tillage in wet areas",
        "Strip tillage for erosion control",
        "Vertical tillage for residue management"]))]),
    ("planting", [
      ("timing", Nested([
        ("winter_wheat", Text("Early fall, 6 weeks before frost")),
        ("spring_wheat", Text("Early spring, soil temp above 4°C"))])),
      ("seed_depth", Text("3-5cm")),
      ("row_spacing", Text("15-20cm")),
      ("seeding_rate", Text("180-250 kg/ha")),
      ("considerations", Items([
        "Ensure good seed-to-soil contact",
        "Plant winter wheat at proper depth for winter protection",
        "Avoid planting too deep"]))]),
    ("fertilization", [
      ("base_application", Nested([
        ("npk_ratio", Text("18-46-0")),
        ("timing", Text("At planting")),
        ("method", Text("Drill with seed or broadcast"))])),
      ("nitrogen_management", Nested([
        ("total_n_required", Text("100-150 kg/ha")),
        ("split_applications", Items([
          "40% at planting",
          "60% at tillering"]))]))]),
    ("irrigation", [
      ("critical_periods", Items([
        "Tillering",
        "Stem elongation",
        "Grain filling"])),
      ("water_requirements", Text("450-650mm total")),
      ("methods", Items([
        "Sprinkler irrigation",
        "Flood irrigation in level fields"])),
      ("scheduling", Nested([
        ("early_stage", Text("Regular light irrigation")),
        ("mid_season", Text("Increased irrigation during heading")),
        ("late_season", Text("Reduced irrigation during ripening"))]))])
  ]

  /** `climate_modifications`: zone name to the sections it modifies or adds. */
  const ClimateModifications: Dict<Techniques> := [
    ("mediterranean", MediterraneanModifications),
    ("continental", ContinentalModifications),
    ("tropical", TropicalModifications),
    ("semi_arid", SemiAridModifications),
    ("humid_subtropical", HumidSubtropicalModifications)
  ]

  const MediterraneanModifications: Techniques := [
    ("irrigation", [
      ("frequency", Text("Increased during dry season")),
      ("water_conservation", Text("Critical consideration")),
      ("methods", Items([
        "Drip irrigation preferred",
        "Night irrigation to reduce evaporation",
        "Soil moisture monitoring essential"]))]),
    ("planting", [
      ("timing", Text("Early spring for maximum rainfall utilization")),
      ("varieties", Text("Drought-tolerant varieties recommended"))]),
    ("soil_management", [
      ("mulching", Text("Recommended for moisture conservation")),
      ("organic_matter", Text("Regular addition to improve water retention"))])]

  const ContinentalModifications: Techniques := [
    ("planting", [
      ("timing", Text("Adjusted for shorter growing season")),
      ("frost_protection", Text("Essential consideration")),
      ("methods", Items([
        "Use of frost-tolerant varieties",
        "Row covers for early planting",
        "Wind protection measures"]))]),
    ("soil_preparation", [
      ("timing", Text("Early spring as soon as workable")),
      ("methods", Text("Minimum tillage to preserve moisture"))]),
    ("winter_protection", [
      ("methods", Items([
        "Snow trapping techniques",
        "Winter cover crops",
        "Windbreaks"]))])]

  const TropicalModifications: Techniques := [
    ("disease_management", [
      ("focus", Text("Increased focus on fungal disease prevention")),
      ("methods", Items([
        "Regular fungicide applications",
        "Resistant varieties essential",
        "Increased plant spacing for airflow"]))]),
    ("irrigation", [
      ("focus", Text("Focus on drainage during wet season")),
      ("methods", Items([
        "Raised beds recommended",
        "Surface drainage systems",
        "Timing based on rainfall patterns"]))]),
    ("soil_management", [
      ("erosion_control", Text("Critical in high rainfall")),
      ("methods", Items([
        "Contour plowing",
        "Cover crops during rainy season",
        "Terracing where appropriate"]))])]

  const SemiAridModifications: Techniques := [
    ("water_management", [
      ("conservation", Text("Absolute priority")),
      ("methods", Items([
        "Drought-resistant varieties",
        "Mulching mandatory",
        "Deep tillage for moisture retention"]))]),
    ("soil_management", [
      ("focus", Text("Wind erosion control")),
      ("methods", Items([
        "Minimum tillage",
        "Stubble retention",
        "Windbreak establishment"]))]),
    ("planting", [
      ("timing", Text("Synchronized with rainfall patterns")),
      ("density", Text("Reduced for water conservation"))])]

  const HumidSubtropicalModifications: Techniques := [
    ("disease_management", [
      ("focus", Text("Year-round disease pressure")),
      ("methods", Items([
        "Resistant varieties",
        "Preventive fungicide program",
        "Cultural controls"]))]),
    ("soil_management", [
      ("drainage", Text("Essential consideration")),
      ("methods", Items([
        "Raised beds",
        "Subsurface drainage",
        "Regular soil testing"]))]),
    ("pest_management", [
      ("focus", Text("Year-round pest pressure")),
      ("methods", Items([
        "IPM strategies",
        "Regular monitoring",
        "Beneficial insect conservation"]))])]

  /** One step of the merge loop: a section already present is shallow-updated
      with `techniques[key].update(value)`; a new section is added wholesale. */
  function MergeSection(t: Techniques, key: string, value: Section): Techniques {
    match Get(t, key)
    case Some(section) => Put(t, key, Update(section, value))
    case None => Put(t, key, value)
  }

  /** The merge loop over every section of the modifications, in order. */
  function Merge(t: Techniques, mods: Techniques): Techniques {
    if mods == [] then t else MergeSection(Merge(t, mods[..|mods| - 1]), mods[|mods| - 1].0, mods[|mods| - 1].1)
  }

  /** A base tree with the modifications a table lists for `zone` merged in;
      a zone the table lacks leaves the tree unchanged. */
  function ZoneTechniques(base: Techniques, table: Dict<Techniques>, zone: string): Techniques {
    match Get(table, zone)
    case None => base
    case Some(mods) => Merge(base, mods)
  }

  /** The techniques returned for a crop and a zone name matched case-insensitively. */
  function TechniquesFor(crop: CropType, climateZone: string): Techniques {
    ZoneTechniques(BaseTechniques(crop), ClimateModifications, Lower(climateZone))
  }

  /** Merging one more section merges it into the tree merged so far. */
  lemma MergeSnoc(t: Techniques, mods: Techniques, i: nat)
    requires i < |mods|
    ensures Merge(t, mods[..i + 1]) == MergeSection(Merge(t, mods[..i]), mods[i].0, mods[i].1)
  {
    assert mods[..i + 1][..i] == mods[..i];
    assert mods[..i + 1][i] == mods[i];
  }

  /** The merge loop of `get_farming_techniques`, over any tree and modifications. */
  method MergeModifications(base: Techniques, climateMods: Techniques) returns (techniques: Techniques)
    ensures techniques == Merge(base, climateMods)
  {
    techniques := base;
    var i := 0;
    while i < |climateMods|
      invariant 0 <= i <= |climateMods|
      invariant techniques == Merge(base, climateMods[..i])
    {
      var (key, value) := climateMods[i];
      MergeSnoc(base, climateMods, i);
      var existing := Get(techniques, key);
      if existing.Some? {
        techniques := Put(techniques, key, Update(existing.value, value));
      } else {
        techniques := Put(techniques, key, value);
      }
      i := i + 1;
    }
    assert climateMods[..i] == climateMods;
  }

  /** The zone step of `get_farming_techniques`: look the zone up in the table
      and, when it is listed, merge its modifications into the tree. */
  method ApplyClimateModifications(base: Techniques, table: Dict<Techniques>, zone: string) returns (techniques: Techniques)
    ensures techniques == ZoneTechniques(base, table, zone)
    ensures !HasKey(table, zone) ==> techniques == base
  {
    techniques := base;
    var found := Get(table, zone);
    if found.Some? {
      techniques := MergeModifications(techniques, found.value);
    }
  }

  /** `get_farming_techniques`: the crop's base tree with the zone's
      modifications merged in. The soil type is accepted and never read. */
  method GetFarmingTechniques(crop: CropType, climateZone: string, soilType: string) returns (techniques: Techniques)
    ensures techniques == TechniquesFor(crop, climateZone)
    ensures !HasKey(ClimateModifications, Lower(climateZone)) ==> techniques == BaseTechniques(crop)
  {
    techniques := ApplyClimateModifications(BaseTechniques(crop), ClimateModifications, Lower(climateZone));
  }

  /** What the merge does to each top-level key: a key of the modifications
      that the base has is shallow-updated, one it lacks is added wholesale,
      and a base key the modifications do not mention is unchanged. */
  lemma {:induction false} MergeGet(t: Techniques, mods: Techniques, k: string)
    requires UniqueKeys(mods)
    ensures Get(Merge(t, mods), k) ==
              match Get(mods, k)
              case None => Get(t, k)
              case Some(m) => (match Get(t, k) case Some(b) => Some(Update(b, m)) case None => Some(m))
  {
    if mods != [] {
      var pre := mods[..|mods| - 1];
      assert UniqueKeys(pre);
      MergeGet(t, pre, k);
      GetLast(mods, k);
      if mods[|mods| - 1].0 == k {
        assert !HasKey(pre, k);
      }
    }
  }

  /** Within a section present in both trees, a sub-key the modification sets
      takes the modification's value and every other sub-key keeps the base's:
      the update is shallow, so nested values are replaced, not merged. */
  lemma MergedSectionGet(t: Techniques, mods: Techniques, k: string, sub: string)
    requires UniqueKeys(mods)
    requires HasKey(t, k) && HasKey(mods, k) && UniqueKeys(Get(mods, k).value)
    ensures HasKey(Merge(t, mods), k)
    ensures Get(Get(Merge(t, mods), k).value, sub) ==
              if HasKey(Get(mods, k).value, sub) then Get(Get(mods, k).value, sub) else Get(Get(t, k).value, sub)
  {
    MergeGet(t, mods, k);
    UpdateGet(Get(t, k).value, Get(mods, k).value, sub);
  }

  /** Zone names differ only in case give the same techniques. */
  lemma ZoneMatchIsCaseInsensitive(crop: CropType, z1: string, z2: string)
    requires Lower(z1) == Lower(z2)
    ensures TechniquesFor(crop, z1) == TechniquesFor(crop, z2)
  {
  }

  /** Continental corn, the zone written in any case: the planting section
      gets its nested timing replaced by a text but keeps its seed depth, and
      a winter-protection section is added. */
  lemma ContinentalCornExample(zone: string)
    requires Lower(zone) == "continental"
    ensures HasKey(TechniquesFor(Corn, zone), "winter_protection")
    ensures HasKey(TechniquesFor(Corn, zone), "planting")
    ensures Get(Get(TechniquesFor(Corn, zone), "planting").value, "timing") == Some(Text("Adjusted for shorter growing season"))
    ensures Get(Get(TechniquesFor(Corn, zone), "planting").value, "seed_depth") == Some(Text("5-7cm"))
  {
    ContinentalLookup();
    ContinentalCornTiming();
    ContinentalCornSeedDepth();
    ContinentalCornWinter();
  }

  lemma ContinentalLookup()
    ensures Get(ClimateModifications, "continental") == Some(ContinentalModifications)
  {
    assert ClimateModifications[0].0 == "mediterranean";
    assert ClimateModifications[1].0 == "continental";
  }

  lemma ContinentalCornTiming()
    ensures HasKey(Merge(BaseTechniques(Corn), ContinentalModifications), "planting")
    ensures Get(Get(Merge(BaseTechniques(Corn), ContinentalModifications), "planting").value, "timing") ==
              Some(Text("Adjusted for shorter growing season"))
  {
    CornPlantingSeedDepth();
    ContinentalPlantingKeys();
    ContinentalPlantingTiming();
    MergedSectionGet(BaseTechniques(Corn), ContinentalModifications, "planting", "timing");
  }

  lemma ContinentalPlantingTiming()
    ensures HasKey(ContinentalModifications, "planting")
    ensures Get(Get(ContinentalModifications, "planting").value, "timing") == Some(Text("Adjusted for shorter growing season"))
  {
    var mods := ContinentalModifications;
    assert mods[0].0 == "planting";
    var planting := mods[0].1;
    assert planting[0].0 == "timing";
  }

  lemma ContinentalCornSeedDepth()
    ensures HasKey(Merge(BaseTechniques(Corn), ContinentalModifications), "planting")
    ensures Get(Get(Merge(BaseTechniques(Corn), ContinentalModifications), "planting").value, "seed_depth") ==
              Some(Text("5-7cm"))
  {
    CornPlantingSeedDepth();
    ContinentalPlantingKeys();
    MergedSectionGet(BaseTechniques(Corn), ContinentalModifications, "planting", "seed_depth");
  }

  lemma CornPlantingSeedDepth()
    ensures HasKey(BaseTechniques(Corn), "planting")
    ensures Get(Get(BaseTechniques(Corn), "planting").value, "seed_depth") == Some(Text("5-7cm"))
  {
    assert CornTechniques[0].0 == "soil_preparation" && CornTechniques[1].0 == "planting";
    assert Get(CornTechniques, "planting") == Some(CornPlanting);
    assert CornPlanting[0].0 == "timing" && CornPlanting[1].0 == "seed_depth";
  }

  lemma ContinentalPlantingKeys()
    ensures UniqueKeys(ContinentalModifications) && HasKey(ContinentalModifications, "planting")
    ensures UniqueKeys(Get(ContinentalModifications, "planting").value)
    ensures !HasKey(Get(ContinentalModifications, "planting").value, "seed_depth")
  {
    var mods := ContinentalModifications;
    assert mods[0].0 == "planting" && mods[1].0 == "soil_preparation" && mods[2].0 == "winter_protection";
    var planting := mods[0].1;
    assert planting[0].0 == "timing" && planting[1].0 == "frost_protection" && planting[2].0 == "methods";
  }

  lemma ContinentalCornWinter()
    ensures HasKey(Merge(BaseTechniques(Corn), ContinentalModifications), "winter_protection")
  {
    ContinentalPlantingKeys();
    ContinentalWinterKey();
    MergeKeepsModifiedKeys(BaseTechniques(Corn), ContinentalModifications, "winter_protection");
  }

  lemma ContinentalWinterKey()
    ensures HasKey(ContinentalModifications, "winter_protection")
  {
    assert ContinentalModifications[2].0 == "winter_protection";
  }

  /** Every section the modifications name is present after the merge. */
  lemma MergeKeepsModifiedKeys(t: Techniques, mods: Techniques, k: string)
    requires UniqueKeys(mods) && HasKey(mods, k)
    ensures HasKey(Merge(t, mods), k)
  {
    MergeGet(t, mods, k);
  }
}

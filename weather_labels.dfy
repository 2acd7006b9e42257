/**
 * The assessment labels the weather helpers return, with their exact texts.
 * The tools, their copy and the resources return the same texts, so they
 * share these labels.
 */
module WeatherLabels {

  datatype PlantingAssessment = TooCold | TooHot | TooWet | SoilTooDry | GoodPlanting {
    function Text(): string {
      match this
      case TooCold => "Too cold for most crops"
      case TooHot => "Too hot for optimal planting"
      case TooWet => "Too wet for planting"
      case SoilTooDry => "Soil too dry, consider irrigation before planting"
      case GoodPlanting => "Good conditions for planting"
    }
  }

  datatype IrrigationNeed = IrrigationRecommended | NoIrrigationNeeded | MonitorSoilMoisture {
    function Text(): string {
      match this
      case IrrigationRecommended => "Irrigation recommended"
      case NoIrrigationNeeded => "No irrigation needed - recent precipitation"
      case MonitorSoilMoisture => "Monitor soil moisture"
    }
  }

  datatype FieldWork = NotSuitableWet | CautionHighWinds | SuitableForWork {
    function Text(): string {
      match this
      case NotSuitableWet => "Not suitable - wet conditions"
      case CautionHighWinds => "Caution - high winds"
      case SuitableForWork => "Suitable for field work"
    }
  }

  /** Soil temperature bands, coldest first. */
  datatype SoilTemperatureBand = ColdSoil | CoolSoil | ModerateSoil | WarmSoil | HotSoil {
    function Rank(): nat {
      match this
      case ColdSoil => 0
      case CoolSoil => 1
      case ModerateSoil => 2
      case WarmSoil => 3
      case HotSoil => 4
    }
    function Text(): string {
      match this
      case ColdSoil => "Too cold for most crops"
      case CoolSoil => "Cool - suitable for cool season crops only"
      case ModerateSoil => "Moderate - good for many crops"
      case WarmSoil => "Warm - excellent for most crops"
      case HotSoil => "Hot - monitor for heat stress"
    }
  }

  /** Soil moisture bands, driest first. */
  datatype SoilMoistureBand = DrySoil | LowMoisture | GoodMoisture | HighMoisture | Waterlogged {
    function Rank(): nat {
      match this
      case DrySoil => 0
      case LowMoisture => 1
      case GoodMoisture => 2
      case HighMoisture => 3
      case Waterlogged => 4
    }
    function Text(): string {
      match this
      case DrySoil => "Too dry - irrigation needed"
      case LowMoisture => "Low - consider irrigation"
      case GoodMoisture => "Good - suitable for planting"
      case HighMoisture => "High - monitor for excess moisture"
      case Waterlogged => "Waterlogged - wait for better drainage"
    }
  }

  datatype OverallSoil = WaitForBetterConditions | MonitorStress | GoodForOperations {
    function Text(): string {
      match this
      case WaitForBetterConditions => "Wait for better conditions"
      case MonitorStress => "Monitor for heat and moisture stress"
      case GoodForOperations => "Good conditions for farming operations"
    }
  }

  /** Planting advice over a forecast, best first. */
  datatype PlantingAdvice = GoodWindow | LimitedOpportunities | WaitForPlanting {
    function Rank(): nat {
      match this
      case GoodWindow => 2
      case LimitedOpportunities => 1
      case WaitForPlanting => 0
    }
    function Text(): string {
      match this
      case GoodWindow => "Good planting window identified"
      case LimitedOpportunities => "Limited planting opportunities"
      case WaitForPlanting => "Wait for better conditions"
    }
  }

  datatype PestRisk = HighDiseaseRisk | ModeratePestRisk | LowToModerateRisk {
    function Text(): string {
      match this
      case HighDiseaseRisk => "High - wet conditions favor disease development"
      case ModeratePestRisk => "Moderate - warm, dry conditions may increase pest activity"
      case LowToModerateRisk => "Low to moderate - monitor field conditions"
    }
  }

  datatype IrrigationPriority = LowPriority | HighPriority {
    function Text(): string {
      match this
      case LowPriority => "Low"
      case HighPriority => "High"
    }
  }
}

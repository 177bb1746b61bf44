/**
 The data model of the monitoring dashboard: one row of the readings table
 and the alert records derived from it.
 */
module Readings {

  import opened Wrappers

  /** One row of the readings table. `date` is the date string as loaded; the
      three climate metrics are mandatory columns, the five ecosystem metrics
      are columns the table may or may not have. */
  datatype Reading = Reading(
    date: string,
    temperature: real,
    humidity: real,
    aqi: real,
    soilMoisture: Option<real>,
    cropHealth: Option<real>,
    forestHealth: Option<real>,
    wildlifeIndex: Option<real>,
    waterQuality: Option<real>)

  /** The eight alert types, declared in the order the evaluator checks them. */
  datatype AlertType =
    | HighTemperature
    | LowHumidity
    | HighAqi
    | LowSoilMoisture
    | CropHealthRisk
    | ForestStress
    | WildlifeActivityLow
    | WaterQualityIssue

  /** An alert record: the triggering row's date, the alert type and the value
      of the metric that tripped the rule. */
  datatype Alert = Alert(date: string, kind: AlertType, value: real)

  /** The `type` string an alert record carries. */
  function TypeName(k: AlertType): string {
    match k
    case HighTemperature => "High Temperature"
    case LowHumidity => "Low Humidity"
    case HighAqi => "High AQI"
    case LowSoilMoisture => "Low Soil Moisture"
    case CropHealthRisk => "Crop Health Risk"
    case ForestStress => "Forest Stress"
    case WildlifeActivityLow => "Wildlife Activity Low"
    case WaterQualityIssue => "Water Quality Issue"
  }

  /** Distinct alert types carry distinct type strings, so comparing the
      strings tells the types apart. */
  lemma TypeNameInjective(k1: AlertType, k2: AlertType)
    ensures TypeName(k1) == TypeName(k2) ==> k1 == k2
  {
  }

  /** Position of a rule in the evaluator's fixed order. The evaluator walks
      the order by position (`AlertEvaluator.RuleAt`); this is the same order
      read from the other side, to compare two alerts by their types, and
      `AlertEvaluator.RuleAtRank` proves the two agree. */
  function Rank(k: AlertType): nat {
    match k
    case HighTemperature => 0
    case LowHumidity => 1
    case HighAqi => 2
    case LowSoilMoisture => 3
    case CropHealthRisk => 4
    case ForestStress => 5
    case WildlifeActivityLow => 6
    case WaterQualityIssue => 7
  }
}

# Environmental monitoring dashboard: alert and report core

This project is a Dafny model of the logic at the heart of a small
environmental-monitoring dashboard (`app.py`). The dashboard loads a table of
daily readings and derives four things from it:

- **Alerts.** One pass over the rows in table order. Each row is checked
  against eight threshold rules in a fixed order:
  - temperature above 35;
  - humidity below 30;
  - AQI of 150 or more;
  - then, only when the row has the column: soil moisture below 30, crop
    health below 70, forest health below 75, wildlife index below 65 and
    water quality below 75.

  Each rule that fires appends an alert record carrying the row's date, the
  type and the metric's value.
- **Daily reports.** The rows are grouped by their date string. Each group
  gets its mean temperature, mean humidity, mean AQI and maximum AQI. The
  report also holds the number of alerts carrying that date, which a counting
  loop gathers into a dictionary.
- **Dashboard tallies.** The number of "High Temperature", "Low Humidity" and
  "High AQI" alerts, counted by comparing type strings.
- **Risk bands.** A predicted AQI maps to GOOD (at most 50), MODERATE (at
  most 100), UNHEALTHY (at most 200) or HAZARDOUS.

The modules are:

- `Readings`: the data model.
  - A reading is a date string, three real climate metrics and five optional
    (`Option<real>`) ecosystem metrics.
  - An alert is a date, an `AlertType` and a value.
  - `TypeName` gives each type the string the source stores.
- `AlertEvaluator`: the rules.
  - The rules are a table: `RuleAt` gives the order, `Metric` the value a
    rule inspects, `Breaches` the threshold.
  - `AlertsOf(rows)` is the specification.
  - `GenerateAlerts` is the evaluator's loop over the rows. Its body
    (`CheckRow`) runs the source's eight guarded appends, grouped as in the
    source into climate, soil and crops, forest and wildlife, and water. It
    is proved equal to `AlertsOf(rows)`.
- `DailyAggregator`: the reports.
  - `DailyReports(rows, alerts)` is the specification.
  - `CountAlertsByDate` is the counting loop into a `map<string, nat>`.
  - `GenerateDailyReports` is the loop that builds one report per group key.
  - Grouping keys come out in ascending string order, as a sorted group-by
    yields them. `DateOrder` defines that order.
  - `RowsOn`, `TempSumOn`, `HumSumOn` and `AqiSumOn` count and sum each
    metric over the rows of the whole table with a given date. They are an
    independent reference for the group sizes and the report means.
- `Dashboard`: the type tallies.
- `Prediction`: the risk bands and their labels. `RiskOfAsWritten` is the
  label as the source spells it; `RiskOf` is the intended one.
- `Scenarios`: worked examples on concrete tables.

Dates are strings throughout. Two readings fall in the same group exactly when
their date strings are equal, because the source converts the date column to
strings before grouping. Calendar dates are never compared. Means and the
maximum are exact real numbers.

## Model

| member | source | states |
|---|---|---|
| AlertEvaluator.GenerateAlerts | app.py:25-99 | The alert list is exactly `AlertsOf(rows)`: each row's alerts in rule order, rows in table order. |
| AlertEvaluator.CheckRow | app.py:29-97 | The loop body appends exactly the row's alerts from all eight rules, in rule order, to the list built so far. |
| AlertEvaluator.CheckClimate | app.py:31-54 | Appends the temperature, humidity and AQI alerts that fire, in that order, with thresholds >35, <30 and >=150. |
| AlertEvaluator.CheckSoilAndCrops | app.py:56-71 | Appends the soil-moisture (<30) and crop-health (<70) alerts, each only when the row has the column. |
| AlertEvaluator.CheckForestAndWildlife | app.py:73-88 | Appends the forest-health (<75) and wildlife-index (<65) alerts, each only when the row has the column. |
| AlertEvaluator.CheckWater | app.py:90-97 | Appends the water-quality (<75) alert only when the row has the column. |
| AlertEvaluator.RuleAtRank | app.py:31-97 | The rule order is a bijection between positions 0-7 and the eight alert types. |
| AlertEvaluator.TriggeredSound | app.py:29-97 | Every alert from a range of rules carries the row's date, is of a type in that range whose metric is present and breaches its threshold, and carries that metric's value. |
| AlertEvaluator.TriggeredComplete | app.py:29-97 | Every rule in the range that fires on the row yields its alert. |
| AlertEvaluator.TriggeredOrdered | app.py:31-97 | The alerts of a range of rules appear in rule order. |
| AlertEvaluator.CountKindInRuleOrder | app.py:31-97 | In a list kept in rule order, each type occurs at most once. |
| AlertEvaluator.RowAlertsExact | app.py:32-97 | A row yields exactly one alert of a type when that type's rule fires, and none otherwise. |
| AlertEvaluator.RowAlertsSound | app.py:29-36 | Every alert of a row carries the row's date and the value of a metric whose rule fires. |
| AlertEvaluator.RowAlertsInRuleOrder | app.py:31-97 | A row's alerts appear in the fixed rule order. |
| AlertEvaluator.RowAlertsLength | app.py:31-97 | A row yields as many alerts as it satisfies rules. |
| AlertEvaluator.HighTemperatureRule | app.py:32-38 | A "High Temperature" alert with the row's date and temperature exists exactly when the temperature exceeds 35; at 35 or below there is none of that type. |
| AlertEvaluator.LowHumidityRule | app.py:40-46 | A "Low Humidity" alert with the row's date and humidity exists exactly when the humidity is below 30; at 30 or above there is none. |
| AlertEvaluator.HighAqiRuleInclusive | app.py:48-54 | An AQI of exactly 150 yields a "High AQI" alert; any AQI below 150 yields none. |
| AlertEvaluator.PresentMetricRule | app.py:57-97 | When the row has the metric, its alert is raised exactly when the value breaches the rule's threshold. |
| AlertEvaluator.MissingMetricSilent | app.py:57-97 | A row without an ecosystem column never raises that column's alert. |
| AlertEvaluator.CountKindConcat | app.py:28-99 | The count of a type over two lists joined is the sum of the two counts. |
| AlertEvaluator.AlertsOfConcat | app.py:28-99 | Row order is kept: the alerts of a table split in two are those of the first part, then those of the second. |
| AlertEvaluator.AlertsOfMember | app.py:28-99 | An alert belongs to the table's alerts exactly when it belongs to the alerts of one of its rows. |
| AlertEvaluator.AlertsOfSound | app.py:29-36 | Every alert comes from a row with the same date, whose metric of that type equals the alert's value and breaches its threshold. |
| AlertEvaluator.AlertsOfComplete | app.py:28-97 | Every rule that fires on any row yields its alert in the table's alerts. |
| AlertEvaluator.AlertsOfCountKind | app.py:28-99 | The table has exactly as many alerts of a type as rows on which that rule fires. |
| AlertEvaluator.AlertsOfLength | app.py:28-99 | The number of alerts is the sum over the rows of the number of rules each satisfies. |
| Readings.TypeNameInjective | app.py:35-94 | Distinct alert types carry distinct type strings. |
| DateOrder.InsertAscending | app.py:107 | Adding a date to an ascending, repeat-free key list keeps it ascending and adds exactly that date. |
| DateOrder.BelowTotal | app.py:107 | Any two distinct date strings are ordered, so the group keys can be sorted. |
| DailyAggregator.GroupKeys | app.py:107-113 | The group keys are ascending (hence distinct) and are exactly the table's dates. |
| DailyAggregator.Group | app.py:107-111 | A date's group holds only rows with that date and every such row, and is non-empty exactly when the table carries the date (multiplicities: `GroupMultiplicity`). |
| DailyAggregator.GroupMultiplicity | app.py:107-111 | A date's group holds each row with that date exactly as often as the table does, and no other row. |
| DailyAggregator.GroupSums | app.py:107-110 | A date's group has one entry per row with that date, and its temperature, humidity and AQI sums equal those metrics summed over the table's rows with that date. |
| DailyAggregator.ReportForMeanValues | app.py:107-112 | Each mean in a date's report is that metric's sum over the table's rows with the date, divided by the number of those rows (at least one). |
| DailyAggregator.Max | app.py:110 | The maximum is one of the values and no value exceeds it. |
| DailyAggregator.AlertsOn | app.py:116-119 | The per-date alert count is at most the number of alerts, and zero exactly when no alert carries the date. |
| DailyAggregator.CountAlertsByDate | app.py:116-119 | After the counting loop, the dictionary's keys are the dates carrying at least one alert, and a lookup with default 0 gives the number of alerts with that date. |
| DailyAggregator.GenerateDailyReports | app.py:105-133 | The reports built are exactly `DailyReports(rows, alerts)`. |
| DailyAggregator.ReportDates | app.py:121-125 | There are as many reports as group keys, and each report's date is the key in its position. |
| DailyAggregator.ReportsOnePerDate | app.py:107-113 | Report dates are strictly ascending (so none repeats) and are exactly the table's distinct dates; an empty table gives no reports. |
| DailyAggregator.DailyReportAt | app.py:121-131 | Each report is the report of its own date, a date the table carries. |
| DailyAggregator.ReportAlertCount | app.py:130 | A report's alert count equals the number of alerts carrying its date, and is 0 when none does. |
| DailyAggregator.ReportForMeans | app.py:107-112 | Bounds that hold for a metric in every row with a date hold for that date's mean of the metric. |
| DailyAggregator.GroupMaxAqi | app.py:110 | The maximum AQI of a date's group is the AQI of one of its rows and at least that of each. |
| DailyAggregator.ReportForMaxAqi | app.py:110-112 | The report's maximum AQI is attained by a row of that date, bounds every row of that date, and is not below the mean AQI. |
| DailyAggregator.MeanAtMost | app.py:108-110 | The mean does not exceed any bound that every value respects. |
| DailyAggregator.MeanAtLeast | app.py:108-110 | The mean is not below any bound that every value respects. |
| DailyAggregator.AlertsOnAllCovers | app.py:116-119 | Over distinct dates covering every alert's date, the per-date counts add up to the number of alerts. |
| DailyAggregator.AlertCountsConserved | app.py:116-130 | When every alert carries a date of the table, the reports' alert counts add up to the number of alerts. |
| DailyAggregator.EvaluatorAlertsConserved | app.py:116-130 | For the evaluator's own alerts, the reports' alert counts add up to the total number of alerts. |
| Dashboard.CountOfType | app.py:224-226 | A tally never exceeds the number of alerts, and is zero exactly when no alert has that type string. |
| Dashboard.CountOfTypeIsCountKind | app.py:224-226 | Counting by type string equals counting by alert type. |
| Dashboard.TalliesBounded | app.py:224-226 | The three tallies together never exceed the number of alerts. |
| Dashboard.TalliesOfTable | app.py:224-226 | Over the evaluator's alerts, each tally is the number of rows on which its rule fires. |
| Prediction.Classify | app.py:286-293 | GOOD exactly for AQI at most 50; MODERATE for (50, 100]; UNHEALTHY for (100, 200]; HAZARDOUS above 200. |
| Prediction.ClassifyIsFirstAdmitting | app.py:286-293 | The band is the least severe one whose inclusive upper bound admits the value, and HAZARDOUS only when none does. |
| Prediction.ClassifyMonotone | app.py:286-293 | A higher AQI never falls in a less severe band. |
| Prediction.ClassifyBoundaries | app.py:286-293 | 50 is GOOD and 50.01 MODERATE; 100 is MODERATE and 100.01 UNHEALTHY; 200 is UNHEALTHY and 200.01 HAZARDOUS. |
| Prediction.RiskOf | app.py:286-293 | The intended label is a band's label exactly when the predicted AQI falls in that band. |
| Prediction.RiskOfAsWritten | app.py:286-293 | The label the page shows, as the source spells it, is a band's label exactly when the predicted AQI falls in that band. |
| Prediction.RiskLabelsAsWrittenDistinct | app.py:287-293 | Distinct bands get distinct labels as the source spells them. |
| Prediction.RiskLabelsDistinct | app.py:287-293 | Distinct bands get distinct labels, and each label starts with its band's name. |
| Prediction.RiskLabelAsWrittenGarbled | app.py:287-293 | Each label as spelled in the source differs from the intended one: after the band name it holds only characters below U+2200, never the emoji. |
| Scenarios.HotRowAlerts | app.py:32-38 | A row at 36 degrees, humidity 40 and AQI 80 yields only a "High Temperature" alert with value 36. |
| Scenarios.DryRowAlerts | app.py:40-54 | A row at 20 degrees, humidity 25 and AQI 160 yields a "Low Humidity" alert with value 25, then a "High AQI" alert with value 160. |
| Scenarios.TwoRowDayAlerts | app.py:25-99 | The table of those two rows yields the three alerts in row order and rule order. |
| Scenarios.TwoRowDayGroups | app.py:107-113 | The two rows share one date, so there is one group key and its group holds both rows. |
| Scenarios.TwoRowDayStatistics | app.py:107-112 | That group's mean temperature is 28, mean humidity 32.5, mean AQI 120 and maximum AQI 160. |
| Scenarios.ThreeAlertsOnDay | app.py:116-119 | The three alerts of that day count as 3 for the day. |
| Scenarios.TwoRowDayReport | app.py:105-133 | That day's single report has means 28, 32.5 and 120, maximum AQI 160 and alert count 3. |
| Scenarios.TwoRowDay | app.py:25-133 | End to end, the evaluator's alerts for the two-row table feed into that single report. |
| Scenarios.EmptyTable | app.py:25-133 | An empty table yields no alerts, no reports and zero tallies. |

## Left out

- Alert messages (app.py:37, 45, 53, 62, 70, 79, 87, 96) are not modelled. They are text formatting of floats and carry no logic. An alert is (date, type, value).
- `round(..., 2)` on the report figures (app.py:126-129) is not modelled, because it is floating-point rounding. Means and the maximum are exact reals.
- Floating point is not modelled: values are unbounded reals.
  - A NaN in an optional column never trips a rule in the source, since comparisons with NaN are false. The model's `None` gives the same outcome.
  - pandas skips NaN when taking group means; the model does not represent NaN in the climate columns.
- Column presence (`"x" in row`) is a property of the whole table in the source, because every row has the same columns. The model lets each row carry or lack each ecosystem metric, which covers both table shapes.
- CSV loading and the conversion of the date column to strings (app.py:13-16) are not modelled. The model receives readings whose dates are already strings.
- The rest of the web application is not modelled: the Flask routes and templates, the dashboard's overall averages and latest values (app.py:146-160), the charts (app.py:164-220) and the HTML table (app.py:222).
- The regression model is not modelled: it is loaded and called from a library (app.py:19, 284). `Prediction.Classify` takes the predicted AQI as its input.
- `train_model.py` and `fix_dates.py` are not part of this model: the first is library training calls, the second a one-off date-format rewrite.
- Rounding of the predicted AQI for display (app.py:295) is not modelled.
- Dates are compared and grouped as strings, as the code does (app.py:16, 107); calendar-date comparison is not modelled. Report order is ascending string order.
- Running the evaluator and aggregator twice gives identical output. This holds by construction, because both are functions of their inputs, so it gets no lemma of its own.

## Findings

| source | as written | input that shows it | evidently intended | confidence | as-written member | corrected member |
|---|---|---|---|---|---|---|
| app.py:287-293 | The risk labels spell each emoji as the Windows-1252 reading of its UTF-8 bytes. GOOD is followed by U+00F0 U+0178 U+02DC U+0160, not U+1F60A. The skull label has also lost its last byte (0x8F, undefined in Windows-1252), so even re-encoding cannot restore U+FE0F. | Any predicted AQI, e.g. 42: the label is "GOOD " followed by those four Latin characters. | "GOOD 😊", "MODERATE 🙂", "UNHEALTHY 😷", "HAZARDOUS ☠️" | not executed; the characters are in the file as shown | Prediction.RiskLabelAsWritten (with Prediction.RiskLabelAsWrittenGarbled) | Prediction.RiskLabel (with Prediction.RiskLabelsDistinct) |

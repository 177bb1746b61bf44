/**
 The alert evaluator: one pass over the readings table that checks every row
 against eight threshold rules in a fixed order and emits one alert per rule
 that fires.

 The specification is table-driven (`RuleAt`, `Metric`, `Breaches`); the method
 `GenerateAlerts` is the evaluator's loop with its eight guarded appends, and is
 proved to produce exactly `AlertsOf(rows)`.
 */
module AlertEvaluator {

  import opened Wrappers
  import opened Readings
  import opened Sequences

  /** Number of threshold rules. */
  const RuleCount: nat := 8

  /** The rule checked in position `i` of the evaluator's fixed order; its
      inverse is `Readings.Rank` (see `RuleAtRank`). */
  function RuleAt(i: nat): AlertType
    requires i < RuleCount
  {
    if i == 0 then HighTemperature
    else if i == 1 then LowHumidity
    else if i == 2 then HighAqi
    else if i == 3 then LowSoilMoisture
    else if i == 4 then CropHealthRisk
    else if i == 5 then ForestStress
    else if i == 6 then WildlifeActivityLow
    else WaterQualityIssue
  }

  /** The value rule `k` inspects in row `r`; None when the row has no such column. */
  function Metric(r: Reading, k: AlertType): Option<real> {
    match k
    case HighTemperature => Some(r.temperature)
    case LowHumidity => Some(r.humidity)
    case HighAqi => Some(r.aqi)
    case LowSoilMoisture => r.soilMoisture
    case CropHealthRisk => r.cropHealth
    case ForestStress => r.forestHealth
    case WildlifeActivityLow => r.wildlifeIndex
    case WaterQualityIssue => r.waterQuality
  }

  /** The threshold table: whether value `v` trips rule `k`. */
  predicate Breaches(k: AlertType, v: real) {
    match k
    case HighTemperature => v > 35.0
    case LowHumidity => v < 30.0
    case HighAqi => v >= 150.0
    case LowSoilMoisture => v < 30.0
    case CropHealthRisk => v < 70.0
    case ForestStress => v < 75.0
    case WildlifeActivityLow => v < 65.0
    case WaterQualityIssue => v < 75.0
  }

  /** Rule `k` fires on row `r`: the metric is present and breaches its threshold. */
  predicate Fires(r: Reading, k: AlertType) {
    Metric(r, k).Some? && Breaches(k, Metric(r, k).value)
  }

  /** The alert rule `k` contributes for row `r`: one record or none. */
  function Emit(r: Reading, k: AlertType): seq<Alert> {
    if Fires(r, k) then [Alert(r.date, k, Metric(r, k).value)] else []
  }

  /** The alerts that the rules in positions `lo` to `hi - 1`, checked in order,
      produce for row `r`. */
  function Triggered(r: Reading, lo: nat, hi: nat): seq<Alert>
    requires lo <= hi <= RuleCount
    decreases hi
  {
    if hi == lo then [] else Triggered(r, lo, hi - 1) + Emit(r, RuleAt(hi - 1))
  }

  /** The alerts of one row: all eight rules in order. */
  function RowAlerts(r: Reading): seq<Alert> {
    Triggered(r, 0, RuleCount)
  }

  /** The alerts of a whole table, row after row. */
  function AlertsOf(rows: seq<Reading>): seq<Alert> {
    FlatMap(RowAlerts, rows)
  }

  /** Number of alerts of type `k`. */
  function CountKind(alerts: seq<Alert>, k: AlertType): (n: nat)
    ensures n <= |alerts|
    ensures n == 0 <==> forall a :: a in alerts ==> a.kind != k
  {
    if alerts == [] then 0
    else
      var prefix, last := alerts[..|alerts| - 1], alerts[|alerts| - 1];
      assert alerts == prefix + [last];
      CountKind(prefix, k) + (if last.kind == k then 1 else 0)
  }

  /** Number of rows on which rule `k` fires. */
  function RowsFiring(rows: seq<Reading>, k: AlertType): (n: nat)
    ensures n <= |rows|
    ensures n == 0 <==> forall r :: r in rows ==> !Fires(r, k)
  {
    if rows == [] then 0
    else
      var prefix, last := rows[..|rows| - 1], rows[|rows| - 1];
      assert rows == prefix + [last];
      RowsFiring(prefix, k) + (if Fires(last, k) then 1 else 0)
  }

  /** Number of rules among the first `n` that fire on row `r`. */
  function RulesSatisfied(r: Reading, n: nat): (c: nat)
    requires n <= RuleCount
    ensures c <= n
    ensures c == 0 <==> forall i :: 0 <= i < n ==> !Fires(r, RuleAt(i))
  {
    if n == 0 then 0
    else RulesSatisfied(r, n - 1) + (if Fires(r, RuleAt(n - 1)) then 1 else 0)
  }

  /** Sum over the rows of the number of rules each satisfies. */
  function TotalSatisfied(rows: seq<Reading>): nat {
    if rows == [] then 0
    else TotalSatisfied(rows[..|rows| - 1]) + RulesSatisfied(rows[|rows| - 1], RuleCount)
  }

  /** Alert types appear in strictly increasing rule order. */
  predicate InRuleOrder(alerts: seq<Alert>) {
    forall i, j :: 0 <= i < j < |alerts| ==> Rank(alerts[i].kind) < Rank(alerts[j].kind)
  }

  /** The evaluator: one pass over the rows, each row's alerts appended in turn. */
  method GenerateAlerts(rows: seq<Reading>) returns (alerts: seq<Alert>)
    ensures alerts == AlertsOf(rows)
  {
    alerts := [];
    for i := 0 to |rows|
      invariant alerts == AlertsOf(rows[..i])
    {
      alerts := CheckRow(alerts, rows[i]);
      assert rows[..i + 1][..i] == rows[..i];
    }
    assert rows[..|rows|] == rows;
  }

  /** The loop body of the evaluator: the rules of each group checked in turn. */
  method CheckRow(alerts: seq<Alert>, row: Reading) returns (out: seq<Alert>)
    ensures out == alerts + RowAlerts(row)
  {
    out := CheckClimate(alerts, row);
    out := CheckSoilAndCrops(out, row);
    out := CheckForestAndWildlife(out, row);
    out := CheckWater(out, row);
    ghost var climate, soil, forest, water :=
      Triggered(row, 0, 3), Triggered(row, 3, 5), Triggered(row, 5, 7), Triggered(row, 7, 8);
    TriggeredSplit(row, 0, 3, 5);
    TriggeredSplit(row, 0, 5, 7);
    TriggeredSplit(row, 0, 7, 8);
    AppendAssoc(alerts, climate, soil);
    AppendAssoc(alerts, climate + soil, forest);
    AppendAssoc(alerts, climate + soil + forest, water);
  }

  /** Climate and air: temperature, humidity and AQI, always checked. */
  method CheckClimate(alerts: seq<Alert>, row: Reading) returns (out: seq<Alert>)
    ensures out == alerts + Triggered(row, 0, 3)
  {
    var date := row.date;
    out := alerts;
    if row.temperature > 35.0 {
      out := out + [Alert(date, HighTemperature, row.temperature)];
    }
    if row.humidity < 30.0 {
      out := out + [Alert(date, LowHumidity, row.humidity)];
    }
    if row.aqi >= 150.0 {
      out := out + [Alert(date, HighAqi, row.aqi)];
    }
  }

  /** Soil and crops: checked only when the row has the column. */
  method CheckSoilAndCrops(alerts: seq<Alert>, row: Reading) returns (out: seq<Alert>)
    ensures out == alerts + Triggered(row, 3, 5)
  {
    var date := row.date;
    out := alerts;
    if row.soilMoisture.Some? && row.soilMoisture.value < 30.0 {
      out := out + [Alert(date, LowSoilMoisture, row.soilMoisture.value)];
    }
    if row.cropHealth.Some? && row.cropHealth.value < 70.0 {
      out := out + [Alert(date, CropHealthRisk, row.cropHealth.value)];
    }
  }

  /** Forest and wildlife: checked only when the row has the column. */
  method CheckForestAndWildlife(alerts: seq<Alert>, row: Reading) returns (out: seq<Alert>)
    ensures out == alerts + Triggered(row, 5, 7)
  {
    var date := row.date;
    out := alerts;
    if row.forestHealth.Some? && row.forestHealth.value < 75.0 {
      out := out + [Alert(date, ForestStress, row.forestHealth.value)];
    }
    if row.wildlifeIndex.Some? && row.wildlifeIndex.value < 65.0 {
      out := out + [Alert(date, WildlifeActivityLow, row.wildlifeIndex.value)];
    }
  }

  /** Water: checked only when the row has the column. */
  method CheckWater(alerts: seq<Alert>, row: Reading) returns (out: seq<Alert>)
    ensures out == alerts + Triggered(row, 7, 8)
  {
    var date := row.date;
    out := alerts;
    if row.waterQuality.Some? && row.waterQuality.value < 75.0 {
      out := out + [Alert(date, WaterQualityIssue, row.waterQuality.value)];
    }
  }

  // ---------------------------------------------------------------------------
  // The rule order

  /** `RuleAt` and `Rank` are inverse: each alert type has exactly one position. */
  lemma RuleAtRank(i: nat, k: AlertType)
    requires i < RuleCount
    ensures RuleAt(i) == k <==> Rank(k) == i
  {
  }

  /** Consecutive rule ranges concatenate. */
  lemma {:induction false} TriggeredSplit(r: Reading, lo: nat, mid: nat, hi: nat)
    requires lo <= mid <= hi <= RuleCount
    ensures Triggered(r, lo, hi) == Triggered(r, lo, mid) + Triggered(r, mid, hi)
    decreases hi
  {
    if hi == mid {
      assert Triggered(r, lo, mid) + [] == Triggered(r, lo, mid);
    } else {
      TriggeredSplit(r, lo, mid, hi - 1);
      AppendAssoc(Triggered(r, lo, mid), Triggered(r, mid, hi - 1), Emit(r, RuleAt(hi - 1)));
    }
  }

  // ---------------------------------------------------------------------------
  // One row

  /** Soundness: every alert that rules `lo` to `hi - 1` produce carries the
      row's date, is of a type in that range that fires on the row, and
      carries that metric's value. */
  lemma {:induction false} TriggeredSound(r: Reading, lo: nat, hi: nat, a: Alert)
    requires lo <= hi <= RuleCount
    requires a in Triggered(r, lo, hi)
    ensures a.date == r.date && lo <= Rank(a.kind) < hi && Fires(r, a.kind)
    ensures Metric(r, a.kind) == Some(a.value)
    decreases hi
  {
    if a in Triggered(r, lo, hi - 1) {
      TriggeredSound(r, lo, hi - 1, a);
    } else {
      assert a in Emit(r, RuleAt(hi - 1));
      RuleAtRank(hi - 1, a.kind);
    }
  }

  /** Completeness: a rule in the range that fires on the row produces its alert. */
  lemma {:induction false} TriggeredComplete(r: Reading, lo: nat, hi: nat, k: AlertType)
    requires lo <= hi <= RuleCount
    requires lo <= Rank(k) < hi && Fires(r, k)
    ensures Alert(r.date, k, Metric(r, k).value) in Triggered(r, lo, hi)
    decreases hi
  {
    RuleAtRank(hi - 1, k);
    if Rank(k) != hi - 1 {
      TriggeredComplete(r, lo, hi - 1, k);
    }
  }

  /** The alerts a row's rules produce appear in the rules' order. */
  lemma {:induction false} TriggeredOrdered(r: Reading, lo: nat, hi: nat)
    requires lo <= hi <= RuleCount
    ensures InRuleOrder(Triggered(r, lo, hi))
    decreases hi
  {
    if hi != lo {
      var prefix, last := Triggered(r, lo, hi - 1), Emit(r, RuleAt(hi - 1));
      TriggeredOrdered(r, lo, hi - 1);
      RuleAtRank(hi - 1, RuleAt(hi - 1));
      forall a, b | a in prefix && b in last
        ensures Rank(a.kind) < Rank(b.kind)
      {
        TriggeredSound(r, lo, hi - 1, a);
      }
      InRuleOrderAppend(prefix, last);
    }
  }

  /** Two runs in rule order, the first entirely before the second, join into one. */
  lemma InRuleOrderAppend(xs: seq<Alert>, ys: seq<Alert>)
    requires InRuleOrder(xs) && InRuleOrder(ys)
    requires forall a, b :: a in xs && b in ys ==> Rank(a.kind) < Rank(b.kind)
    ensures InRuleOrder(xs + ys)
  {
    var zs := xs + ys;
    forall i, j | 0 <= i < j < |zs|
      ensures Rank(zs[i].kind) < Rank(zs[j].kind)
    {
      if j < |xs| {
        assert zs[i] == xs[i] && zs[j] == xs[j];
      } else if i >= |xs| {
        assert zs[i] == ys[i - |xs|] && zs[j] == ys[j - |xs|];
      } else {
        assert zs[i] == xs[i] && zs[j] == ys[j - |xs|];
      }
    }
  }

  /** In alerts kept in rule order a type occurs at most once: its count is
      one when some alert has that type and zero otherwise. */
  lemma {:induction false} CountKindInRuleOrder(alerts: seq<Alert>, k: AlertType)
    requires InRuleOrder(alerts)
    ensures CountKind(alerts, k) == if exists i :: 0 <= i < |alerts| && alerts[i].kind == k then 1 else 0
  {
    if alerts != [] {
      var n := |alerts|;
      var prefix := alerts[..n - 1];
      assert InRuleOrder(prefix) by {
        forall i, j | 0 <= i < j < |prefix| ensures Rank(prefix[i].kind) < Rank(prefix[j].kind) {
          assert prefix[i] == alerts[i] && prefix[j] == alerts[j];
        }
      }
      CountKindInRuleOrder(prefix, k);
      if alerts[n - 1].kind == k {
        forall i | 0 <= i < |prefix| ensures prefix[i].kind != k {
          assert prefix[i] == alerts[i];
        }
      } else if exists i :: 0 <= i < n && alerts[i].kind == k {
        var i :| 0 <= i < n && alerts[i].kind == k;
        assert prefix[i] == alerts[i];
      }
    }
  }

  /** The rules produce as many alerts as there are rules satisfied. */
  lemma {:induction false} TriggeredLength(r: Reading, n: nat)
    requires n <= RuleCount
    ensures |Triggered(r, 0, n)| == RulesSatisfied(r, n)
  {
    if n != 0 {
      TriggeredLength(r, n - 1);
    }
  }

  /** A row raises an alert of type `k` exactly when rule `k` fires, and then
      exactly one, carrying the row's date and the metric's value. */
  lemma RowAlertsExact(r: Reading, k: AlertType)
    ensures CountKind(RowAlerts(r), k) == if Fires(r, k) then 1 else 0
    ensures Fires(r, k) ==> Alert(r.date, k, Metric(r, k).value) in RowAlerts(r)
    ensures !Fires(r, k) ==> forall a :: a in RowAlerts(r) ==> a.kind != k
  {
    var alerts := RowAlerts(r);
    TriggeredOrdered(r, 0, RuleCount);
    CountKindInRuleOrder(alerts, k);
    if Fires(r, k) {
      TriggeredComplete(r, 0, RuleCount, k);
    }
    forall i | 0 <= i < |alerts| && alerts[i].kind == k
      ensures Fires(r, k)
    {
      TriggeredSound(r, 0, RuleCount, alerts[i]);
    }
  }

  /** Every alert of a row carries the row's date and the value of a metric
      whose rule fires. */
  lemma RowAlertsSound(r: Reading, a: Alert)
    requires a in RowAlerts(r)
    ensures a.date == r.date && Fires(r, a.kind) && Metric(r, a.kind) == Some(a.value)
  {
    TriggeredSound(r, 0, RuleCount, a);
  }

  /** The alerts of one row appear in the fixed rule order, so no type twice. */
  lemma RowAlertsInRuleOrder(r: Reading)
    ensures InRuleOrder(RowAlerts(r))
  {
    TriggeredOrdered(r, 0, RuleCount);
  }

  /** A row raises as many alerts as it satisfies rules. */
  lemma RowAlertsLength(r: Reading)
    ensures |RowAlerts(r)| == RulesSatisfied(r, RuleCount)
  {
    TriggeredLength(r, RuleCount);
  }

  /** The temperature rule: an alert exactly when temperature exceeds 35, with
      the row's date and temperature. */
  lemma HighTemperatureRule(r: Reading)
    ensures Alert(r.date, HighTemperature, r.temperature) in RowAlerts(r) <==> r.temperature > 35.0
    ensures r.temperature <= 35.0 ==> forall a :: a in RowAlerts(r) ==> a.kind != HighTemperature
  {
    RowAlertsExact(r, HighTemperature);
    forall a | a in RowAlerts(r) ensures r.temperature <= 35.0 ==> a.kind != HighTemperature {
      RowAlertsSound(r, a);
    }
  }

  /** The humidity rule: an alert exactly when humidity is below 30. */
  lemma LowHumidityRule(r: Reading)
    ensures Alert(r.date, LowHumidity, r.humidity) in RowAlerts(r) <==> r.humidity < 30.0
    ensures r.humidity >= 30.0 ==> forall a :: a in RowAlerts(r) ==> a.kind != LowHumidity
  {
    RowAlertsExact(r, LowHumidity);
    forall a | a in RowAlerts(r) ensures r.humidity >= 30.0 ==> a.kind != LowHumidity {
      RowAlertsSound(r, a);
    }
  }

  /** The AQI rule is inclusive: an AQI of exactly 150 raises the alert, any
      AQI below 150 raises none. */
  lemma HighAqiRuleInclusive(r: Reading)
    ensures r.aqi == 150.0 ==> Alert(r.date, HighAqi, 150.0) in RowAlerts(r)
    ensures r.aqi < 150.0 ==> forall a :: a in RowAlerts(r) ==> a.kind != HighAqi
  {
    RowAlertsExact(r, HighAqi);
    forall a | a in RowAlerts(r) ensures r.aqi < 150.0 ==> a.kind != HighAqi {
      RowAlertsSound(r, a);
    }
  }

  /** When the row has the metric, its alert, with the row's date and the
      metric's value, is raised exactly when the value breaches the rule's
      threshold. */
  lemma PresentMetricRule(r: Reading, k: AlertType)
    requires Metric(r, k).Some?
    ensures Alert(r.date, k, Metric(r, k).value) in RowAlerts(r) <==> Breaches(k, Metric(r, k).value)
  {
    RowAlertsExact(r, k);
    if Alert(r.date, k, Metric(r, k).value) in RowAlerts(r) {
      RowAlertsSound(r, Alert(r.date, k, Metric(r, k).value));
    }
  }

  /** A row without an ecosystem column never raises that column's alert. */
  lemma MissingMetricSilent(r: Reading, k: AlertType)
    requires Metric(r, k) == None
    ensures forall a :: a in RowAlerts(r) ==> a.kind != k
  {
    forall a | a in RowAlerts(r) ensures a.kind != k {
      RowAlertsSound(r, a);
    }
  }

  // ---------------------------------------------------------------------------
  // The whole table

  lemma {:induction false} CountKindConcat(xs: seq<Alert>, ys: seq<Alert>, k: AlertType)
    ensures CountKind(xs + ys, k) == CountKind(xs, k) + CountKind(ys, k)
  {
    if ys != [] {
      var n := |ys|;
      assert (xs + ys)[..|xs + ys| - 1] == xs + ys[..n - 1];
      CountKindConcat(xs, ys[..n - 1], k);
    } else {
      assert xs + ys == xs;
    }
  }

  /** Row order is kept: the alerts of a table split in two are the alerts of
      the first part followed by those of the second. */
  lemma AlertsOfConcat(xs: seq<Reading>, ys: seq<Reading>)
    ensures AlertsOf(xs + ys) == AlertsOf(xs) + AlertsOf(ys)
  {
    FlatMapConcat(RowAlerts, xs, ys);
  }

  /** An alert belongs to the table's alerts exactly when it belongs to the
      alerts of one of its rows. */
  lemma AlertsOfMember(rows: seq<Reading>, a: Alert)
    ensures a in AlertsOf(rows) <==> exists i :: 0 <= i < |rows| && a in RowAlerts(rows[i])
  {
    FlatMapMember(RowAlerts, rows, a);
  }

  /** Every alert of the table comes from a row with the same date whose
      metric of that type has the alert's value and breaches its threshold. */
  lemma AlertsOfSound(rows: seq<Reading>, a: Alert)
    requires a in AlertsOf(rows)
    ensures exists i :: (0 <= i < |rows| && a.date == rows[i].date
                         && Fires(rows[i], a.kind) && Metric(rows[i], a.kind) == Some(a.value))
  {
    AlertsOfMember(rows, a);
    var i :| 0 <= i < |rows| && a in RowAlerts(rows[i]);
    RowAlertsSound(rows[i], a);
  }

  /** Every rule that fires on a row of the table yields its alert. */
  lemma AlertsOfComplete(rows: seq<Reading>, i: nat, k: AlertType)
    requires i < |rows| && Fires(rows[i], k)
    ensures Alert(rows[i].date, k, Metric(rows[i], k).value) in AlertsOf(rows)
  {
    RowAlertsExact(rows[i], k);
    AlertsOfMember(rows, Alert(rows[i].date, k, Metric(rows[i], k).value));
  }

  /** The table has exactly one alert of type `k` per row on which rule `k` fires. */
  lemma {:induction false} AlertsOfCountKind(rows: seq<Reading>, k: AlertType)
    ensures CountKind(AlertsOf(rows), k) == RowsFiring(rows, k)
  {
    if rows != [] {
      var prefix, last := rows[..|rows| - 1], rows[|rows| - 1];
      AlertsOfCountKind(prefix, k);
      assert AlertsOf(rows) == AlertsOf(prefix) + RowAlerts(last);
      CountKindConcat(AlertsOf(prefix), RowAlerts(last), k);
      RowAlertsExact(last, k);
      assert RowsFiring(rows, k) == RowsFiring(prefix, k) + (if Fires(last, k) then 1 else 0);
    }
  }

  /** The number of alerts is the sum over the rows of the rules each satisfies. */
  lemma {:induction false} AlertsOfLength(rows: seq<Reading>)
    ensures |AlertsOf(rows)| == TotalSatisfied(rows)
  {
    if rows != [] {
      AlertsOfLength(rows[..|rows| - 1]);
      RowAlertsLength(rows[|rows| - 1]);
    }
  }
}

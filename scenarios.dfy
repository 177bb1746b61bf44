/**
 Worked examples: the evaluator, the aggregator and the tallies on concrete
 tables.
 */
module Scenarios {

  import opened Wrappers
  import opened Readings
  import opened Sequences
  import opened AlertEvaluator
  import opened DailyAggregator
  import opened Dashboard

  function ClimateRow(date: string, temperature: real, humidity: real, aqi: real): Reading {
    Reading(date, temperature, humidity, aqi, None, None, None, None, None)
  }

  const Day: string := "2025-01-01"
  const HotRow: Reading := ClimateRow(Day, 36.0, 40.0, 80.0)
  const DryRow: Reading := ClimateRow(Day, 20.0, 25.0, 160.0)

  /** The hot row trips only the temperature rule. */
  lemma HotRowAlerts()
    ensures RowAlerts(HotRow) == [Alert(Day, HighTemperature, 36.0)]
  {
    assert Triggered(HotRow, 0, 3) == [Alert(Day, HighTemperature, 36.0)];
  }

  /** The dry polluted row trips the humidity rule, then the AQI rule. */
  lemma DryRowAlerts()
    ensures RowAlerts(DryRow) == [Alert(Day, LowHumidity, 25.0), Alert(Day, HighAqi, 160.0)]
  {
    assert Triggered(DryRow, 0, 3) == [Alert(Day, LowHumidity, 25.0), Alert(Day, HighAqi, 160.0)];
  }

  /** The table's alerts: the hot row's, then the dry row's. */
  lemma TwoRowDayAlerts()
    ensures AlertsOf([HotRow, DryRow]) ==
      [Alert(Day, HighTemperature, 36.0), Alert(Day, LowHumidity, 25.0), Alert(Day, HighAqi, 160.0)]
  {
    HotRowAlerts();
    DryRowAlerts();
    AlertsOfConcat([HotRow], [DryRow]);
    FlatMapSingle(RowAlerts, HotRow);
    FlatMapSingle(RowAlerts, DryRow);
    assert [HotRow] + [DryRow] == [HotRow, DryRow];
  }

  lemma SumPair(a: real, b: real)
    ensures Sum([a, b]) == a + b
  {
    assert [a, b][..1] == [a];
    assert [a][..0] == [];
    assert Sum([a]) == a;
    assert Sum([a, b]) == Sum([a]) + b;
  }

  /** Both rows share one date, so there is one group holding both. */
  lemma TwoRowDayGroups()
    ensures GroupKeys([HotRow, DryRow]) == [Day]
    ensures Group([HotRow, DryRow], Day) == [HotRow, DryRow]
  {
    var rows := [HotRow, DryRow];
    assert rows[..1] == [HotRow];
    assert [HotRow][..0] == [];
    assert GroupKeys([HotRow]) == [Day];
    assert Group([HotRow], Day) == [HotRow];
  }

  /** The group's means are 28, 32.5 and 120, and its maximum AQI 160. */
  lemma TwoRowDayStatistics()
    ensures var rows := [HotRow, DryRow];
      && Mean(Temperatures(rows)) == 28.0 && Mean(Humidities(rows)) == 32.5
      && Mean(Aqis(rows)) == 120.0 && Max(Aqis(rows)) == 160.0
  {
    var rows := [HotRow, DryRow];
    assert Temperatures(rows) == [36.0, 20.0];
    assert Humidities(rows) == [40.0, 25.0];
    assert Aqis(rows) == [80.0, 160.0];
    SumPair(36.0, 20.0);
    SumPair(40.0, 25.0);
    SumPair(80.0, 160.0);
    assert [80.0, 160.0][..1] == [80.0];
  }

  lemma ThreeAlertsOnDay(alerts: seq<Alert>)
    requires alerts ==
      [Alert(Day, HighTemperature, 36.0), Alert(Day, LowHumidity, 25.0), Alert(Day, HighAqi, 160.0)]
    ensures AlertsOn(alerts, Day) == 3
  {
    assert alerts[..2][..1] == alerts[..1] && alerts[..1][..0] == [] && alerts[..3] == alerts;
    assert AlertsOn(alerts[..1], Day) == 1;
    assert AlertsOn(alerts[..2], Day) == 2;
  }

  /** The day's report averages both rows and counts all three alerts. */
  lemma TwoRowDayReport(alerts: seq<Alert>)
    requires alerts ==
      [Alert(Day, HighTemperature, 36.0), Alert(Day, LowHumidity, 25.0), Alert(Day, HighAqi, 160.0)]
    ensures DailyReports([HotRow, DryRow], alerts) == [Report(Day, 28.0, 32.5, 120.0, 160.0, 3)]
  {
    var rows := [HotRow, DryRow];
    TwoRowDayGroups();
    TwoRowDayStatistics();
    ThreeAlertsOnDay(alerts);
    assert ReportFor(rows, alerts, Day) == Report(Day, 28.0, 32.5, 120.0, 160.0, 3);
    assert [Day][..0] == [];
  }

  /** The example day end to end: three alerts, one report. */
  lemma TwoRowDay()
    ensures var alerts := AlertsOf([HotRow, DryRow]);
      DailyReports([HotRow, DryRow], alerts) == [Report(Day, 28.0, 32.5, 120.0, 160.0, 3)]
  {
    TwoRowDayAlerts();
    TwoRowDayReport(AlertsOf([HotRow, DryRow]));
  }

  /** An empty table yields no alerts, no reports and zero tallies. */
  lemma EmptyTable()
    ensures AlertsOf([]) == [] && DailyReports([], []) == []
    ensures HighTempCount([]) == 0 && LowHumidityCount([]) == 0 && HighAqiCount([]) == 0
  {
  }
}

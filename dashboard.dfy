/**
 The dashboard's alert tallies: how many alerts of the three climate types the
 home page shows, counted by comparing each alert's type string.
 */
module Dashboard {

  import opened Readings
  import opened AlertEvaluator

  /** Number of alerts whose type string is `name`; zero exactly when no alert
      carries that type string. */
  function CountOfType(alerts: seq<Alert>, name: string): (n: nat)
    ensures n <= |alerts|
    ensures n == 0 <==> forall a :: a in alerts ==> TypeName(a.kind) != name
  {
    if alerts == [] then 0
    else
      var prefix, last := alerts[..|alerts| - 1], alerts[|alerts| - 1];
      assert alerts == prefix + [last];
      CountOfType(prefix, name) + (if TypeName(last.kind) == name then 1 else 0)
  }

  function HighTempCount(alerts: seq<Alert>): nat {
    CountOfType(alerts, "High Temperature")
  }

  function LowHumidityCount(alerts: seq<Alert>): nat {
    CountOfType(alerts, "Low Humidity")
  }

  function HighAqiCount(alerts: seq<Alert>): nat {
    CountOfType(alerts, "High AQI")
  }

  /** Counting by type string is counting by alert type: the strings of
      distinct types differ. */
  lemma {:induction false} CountOfTypeIsCountKind(alerts: seq<Alert>, k: AlertType)
    ensures CountOfType(alerts, TypeName(k)) == CountKind(alerts, k)
  {
    if alerts != [] {
      var prefix, last := alerts[..|alerts| - 1], alerts[|alerts| - 1];
      CountOfTypeIsCountKind(prefix, k);
      TypeNameInjective(last.kind, k);
    }
  }

  /** The three tallies together never exceed the number of alerts. */
  lemma {:induction false} TalliesBounded(alerts: seq<Alert>)
    ensures HighTempCount(alerts) + LowHumidityCount(alerts) + HighAqiCount(alerts) <= |alerts|
  {
    if alerts != [] {
      TalliesBounded(alerts[..|alerts| - 1]);
    }
  }

  /** Over the evaluator's alerts for a table, each tally is the number of rows
      on which its rule fires: temperature above 35, humidity below 30, AQI at
      least 150. */
  lemma TalliesOfTable(rows: seq<Reading>)
    ensures HighTempCount(AlertsOf(rows)) == RowsFiring(rows, HighTemperature)
    ensures LowHumidityCount(AlertsOf(rows)) == RowsFiring(rows, LowHumidity)
    ensures HighAqiCount(AlertsOf(rows)) == RowsFiring(rows, HighAqi)
  {
    var alerts := AlertsOf(rows);
    CountOfTypeIsCountKind(alerts, HighTemperature);
    CountOfTypeIsCountKind(alerts, LowHumidity);
    CountOfTypeIsCountKind(alerts, HighAqi);
    AlertsOfCountKind(rows, HighTemperature);
    AlertsOfCountKind(rows, LowHumidity);
    AlertsOfCountKind(rows, HighAqi);
  }
}

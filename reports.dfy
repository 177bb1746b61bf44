/**
 The daily aggregator: readings grouped by date string, each group's mean
 temperature, humidity and AQI and maximum AQI, joined with the number of
 alerts carrying that date.

 `DailyReports` is the specification; `CountAlertsByDate` is the counting loop
 and `GenerateDailyReports` the loop that assembles the reports, each proved
 against it.
 */
module DailyAggregator {

  import opened Readings
  import opened DateOrder
  import opened AlertEvaluator
  import opened Sequences

  /** One report line. Means and the maximum are exact; nothing is rounded. */
  datatype Report = Report(
    date: string,
    avgTemp: real,
    avgHumidity: real,
    avgAqi: real,
    maxAqi: real,
    alertCount: nat)

  // ---------------------------------------------------------------------------
  // Grouping

  /** The distinct dates of the table. */
  function Dates(rows: seq<Reading>): set<string> {
    set r | r in rows :: r.date
  }

  /** The grouping keys: every distinct date once, in ascending order. */
  function GroupKeys(rows: seq<Reading>): (ks: seq<string>)
    ensures Ascending(ks)
    ensures forall d :: d in ks <==> d in Dates(rows)
  {
    if rows == [] then []
    else
      var prefix, last := rows[..|rows| - 1], rows[|rows| - 1];
      var ks := GroupKeys(prefix);
      InsertAscending(last.date, ks);
      assert rows == prefix + [last];
      Insert(last.date, ks)
  }

  /** Number of rows dated `d`, counted over the whole table. */
  function RowsOn(rows: seq<Reading>, d: string): nat {
    if rows == [] then 0
    else RowsOn(rows[..|rows| - 1], d) + (if rows[|rows| - 1].date == d then 1 else 0)
  }

  /** Total temperature of the rows dated `d`, summed over the whole table. */
  function TempSumOn(rows: seq<Reading>, d: string): real {
    if rows == [] then 0.0
    else
      var last := rows[|rows| - 1];
      TempSumOn(rows[..|rows| - 1], d) + (if last.date == d then last.temperature else 0.0)
  }

  /** Total humidity of the rows dated `d`, summed over the whole table. */
  function HumSumOn(rows: seq<Reading>, d: string): real {
    if rows == [] then 0.0
    else
      var last := rows[|rows| - 1];
      HumSumOn(rows[..|rows| - 1], d) + (if last.date == d then last.humidity else 0.0)
  }

  /** Total AQI of the rows dated `d`, summed over the whole table. */
  function AqiSumOn(rows: seq<Reading>, d: string): real {
    if rows == [] then 0.0
    else
      var last := rows[|rows| - 1];
      AqiSumOn(rows[..|rows| - 1], d) + (if last.date == d then last.aqi else 0.0)
  }

  /** The rows dated `d`, in table order. How often each row occurs, and how
      many there are, is stated apart (`GroupMultiplicity`, `GroupSums`), so
      that callers working with the means do not carry it. */
  function Group(rows: seq<Reading>, d: string): (g: seq<Reading>)
    ensures forall r :: r in g <==> r in rows && r.date == d
    ensures |g| > 0 <==> d in Dates(rows)
  {
    if rows == [] then []
    else
      var prefix, last := rows[..|rows| - 1], rows[|rows| - 1];
      assert rows == prefix + [last];
      Group(prefix, d) + (if last.date == d then [last] else [])
  }

  /** A date's group holds each row with that date as often as the table does,
      and no other row. */
  lemma {:induction false} GroupMultiplicity(rows: seq<Reading>, d: string)
    ensures forall r :: multiset(Group(rows, d))[r] == if r.date == d then multiset(rows)[r] else 0
  {
    if rows != [] {
      var prefix, last := rows[..|rows| - 1], rows[|rows| - 1];
      GroupMultiplicity(prefix, d);
      assert rows == prefix + [last];
      assert multiset(rows) == multiset(prefix) + multiset{last};
      var tail := if last.date == d then [last] else [];
      assert Group(rows, d) == Group(prefix, d) + tail;
      assert multiset(Group(rows, d)) == multiset(Group(prefix, d)) + multiset(tail);
    }
  }

  // ---------------------------------------------------------------------------
  // Statistics

  function Sum(xs: seq<real>): real {
    if xs == [] then 0.0 else Sum(xs[..|xs| - 1]) + xs[|xs| - 1]
  }

  /** The arithmetic mean. */
  function Mean(xs: seq<real>): real
    requires |xs| > 0
  {
    Sum(xs) / (|xs| as real)
  }

  /** The largest value: one of the values, and no value exceeds it. */
  function Max(xs: seq<real>): (m: real)
    requires |xs| > 0
    ensures m in xs
    ensures forall x :: x in xs ==> x <= m
  {
    if |xs| == 1 then xs[0]
    else
      var prefix, last := xs[..|xs| - 1], xs[|xs| - 1];
      assert xs == prefix + [last];
      var m := Max(prefix);
      if last > m then last else m
  }

  function Temperatures(g: seq<Reading>): seq<real> {
    seq(|g|, i requires 0 <= i < |g| => g[i].temperature)
  }

  function Humidities(g: seq<Reading>): seq<real> {
    seq(|g|, i requires 0 <= i < |g| => g[i].humidity)
  }

  function Aqis(g: seq<Reading>): seq<real> {
    seq(|g|, i requires 0 <= i < |g| => g[i].aqi)
  }

  // ---------------------------------------------------------------------------
  // Alert counts

  /** Number of alerts dated `d`; zero exactly when no alert carries `d`. */
  function AlertsOn(alerts: seq<Alert>, d: string): (n: nat)
    ensures n <= |alerts|
    ensures n == 0 <==> forall a :: a in alerts ==> a.date != d
  {
    if alerts == [] then 0
    else
      var prefix, last := alerts[..|alerts| - 1], alerts[|alerts| - 1];
      assert alerts == prefix + [last];
      AlertsOn(prefix, d) + (if last.date == d then 1 else 0)
  }

  /** Dictionary lookup with a default, as `dict.get(key, default)`. */
  function GetOr(m: map<string, nat>, key: string, default: nat): nat {
    if key in m then m[key] else default
  }

  /** The counting loop: a dictionary from each alert date to the number of
      alerts with that date; dates without alerts are absent. */
  method CountAlertsByDate(alerts: seq<Alert>) returns (counts: map<string, nat>)
    ensures forall d :: d in counts <==> AlertsOn(alerts, d) > 0
    ensures forall d :: GetOr(counts, d, 0) == AlertsOn(alerts, d)
  {
    counts := map[];
    for j := 0 to |alerts|
      invariant forall d :: d in counts <==> AlertsOn(alerts[..j], d) > 0
      invariant forall d :: GetOr(counts, d, 0) == AlertsOn(alerts[..j], d)
    {
      var d := alerts[j].date;
      counts := counts[d := GetOr(counts, d, 0) + 1];
      assert alerts[..j + 1][..j] == alerts[..j];
    }
    assert alerts[..|alerts|] == alerts;
  }

  // ---------------------------------------------------------------------------
  // Reports

  /** The report for date `d`, which some row carries. */
  function ReportFor(rows: seq<Reading>, alerts: seq<Alert>, d: string): Report
    requires d in Dates(rows)
  {
    var g := Group(rows, d);
    Report(d, Mean(Temperatures(g)), Mean(Humidities(g)), Mean(Aqis(g)), Max(Aqis(g)),
           AlertsOn(alerts, d))
  }

  /** The report builder for a table and its alerts, defined on the table's dates. */
  function ReportOf(rows: seq<Reading>, alerts: seq<Alert>): string --> Report {
    d requires d in Dates(rows) => ReportFor(rows, alerts, d)
  }

  /** The daily reports: one per distinct date, ascending by date. */
  function DailyReports(rows: seq<Reading>, alerts: seq<Alert>): seq<Report> {
    Map(ReportOf(rows, alerts), GroupKeys(rows))
  }

  /** The aggregator: group, count alerts per date, then one report per group. */
  method GenerateDailyReports(rows: seq<Reading>, alerts: seq<Alert>) returns (reports: seq<Report>)
    ensures reports == DailyReports(rows, alerts)
  {
    var keys := GroupKeys(rows);
    var counts := CountAlertsByDate(alerts);
    reports := [];
    for i := 0 to |keys|
      invariant reports == Map(ReportOf(rows, alerts), keys[..i])
    {
      var d := keys[i];
      var g := Group(rows, d);
      reports := reports + [Report(d, Mean(Temperatures(g)), Mean(Humidities(g)), Mean(Aqis(g)),
                                   Max(Aqis(g)), GetOr(counts, d, 0))];
      assert keys[..i + 1][..i] == keys[..i];
    }
    assert keys[..|keys|] == keys;
  }

  // ---------------------------------------------------------------------------
  // Properties of the reports

  /** The report dates are the group keys, position by position. */
  lemma ReportDates(rows: seq<Reading>, alerts: seq<Alert>)
    ensures var rs := DailyReports(rows, alerts);
      && |rs| == |GroupKeys(rows)|
      && forall i :: 0 <= i < |rs| ==> rs[i].date == GroupKeys(rows)[i]
  {
  }

  /** Exactly one report per distinct date: the report dates are the table's
      dates, strictly ascending, so none repeats; no rows, no reports. */
  lemma ReportsOnePerDate(rows: seq<Reading>, alerts: seq<Alert>)
    ensures var rs := DailyReports(rows, alerts);
      && (forall i, j :: 0 <= i < j < |rs| ==> Below(rs[i].date, rs[j].date))
      && (forall d :: d in Dates(rows) <==> exists i :: 0 <= i < |rs| && rs[i].date == d)
      && (rows == [] ==> rs == [])
  {
    var ks := GroupKeys(rows);
    var rs := DailyReports(rows, alerts);
    ReportDates(rows, alerts);
    forall d | d in Dates(rows)
      ensures exists i :: 0 <= i < |rs| && rs[i].date == d
    {
      var i :| 0 <= i < |ks| && ks[i] == d;
      assert rs[i].date == d;
    }
  }

  /** A report's alert count is the number of alerts carrying its date, and
      zero when no alert does. */
  lemma ReportAlertCount(rows: seq<Reading>, alerts: seq<Alert>, i: nat)
    requires i < |DailyReports(rows, alerts)|
    ensures var r := DailyReports(rows, alerts)[i];
      && r.alertCount == AlertsOn(alerts, r.date)
      && ((forall a :: a in alerts ==> a.date != r.date) ==> r.alertCount == 0)
  {
  }

  /** A sum of values none of which exceeds `b` is at most `b` per value. */
  lemma {:induction false} SumBounded(xs: seq<real>, b: real)
    requires forall x :: x in xs ==> x <= b
    ensures Sum(xs) <= (|xs| as real) * b
  {
    if xs != [] {
      var prefix, last := xs[..|xs| - 1], xs[|xs| - 1];
      assert xs == prefix + [last];
      forall x | x in prefix ensures x <= b {
        assert x in xs;
      }
      SumBounded(prefix, b);
      assert last in xs;
      assert Sum(xs) == Sum(prefix) + last;
      assert (|xs| as real) * b == (|prefix| as real) * b + b;
    }
  }

  /** A sum of values none of which is below `b` is at least `b` per value. */
  lemma {:induction false} SumBoundedBelow(xs: seq<real>, b: real)
    requires forall x :: x in xs ==> b <= x
    ensures (|xs| as real) * b <= Sum(xs)
  {
    if xs != [] {
      var prefix, last := xs[..|xs| - 1], xs[|xs| - 1];
      assert xs == prefix + [last];
      forall x | x in prefix ensures b <= x {
        assert x in xs;
      }
      SumBoundedBelow(prefix, b);
      assert last in xs;
      assert Sum(xs) == Sum(prefix) + last;
      assert (|xs| as real) * b == (|prefix| as real) * b + b;
    }
  }

  lemma QuotientBound(s: real, n: real, m: real)
    requires n > 0.0 && s <= n * m
    ensures s / n <= m
  {
    var q := s / n;
    assert q * n == s;
    if q > m {
      assert (q - m) * n > 0.0;
    }
  }

  lemma QuotientBoundBelow(s: real, n: real, m: real)
    requires n > 0.0 && n * m <= s
    ensures m <= s / n
  {
    var q := s / n;
    assert q * n == s;
    if q < m {
      assert (m - q) * n > 0.0;
    }
  }

  /** The mean does not exceed a bound that every value respects. */
  lemma MeanAtMost(xs: seq<real>, hi: real)
    requires |xs| > 0
    requires forall x :: x in xs ==> x <= hi
    ensures Mean(xs) <= hi
  {
    SumBounded(xs, hi);
    QuotientBound(Sum(xs), |xs| as real, hi);
  }

  /** The mean is not below a bound that every value respects. */
  lemma MeanAtLeast(xs: seq<real>, lo: real)
    requires |xs| > 0
    requires forall x :: x in xs ==> lo <= x
    ensures lo <= Mean(xs)
  {
    SumBoundedBelow(xs, lo);
    QuotientBoundBelow(Sum(xs), |xs| as real, lo);
  }

  /** The maximum AQI of a date's group is the AQI of one of its rows and at
      least that of each. */
  lemma GroupMaxAqi(rows: seq<Reading>, d: string)
    requires d in Dates(rows)
    ensures var m := Max(Aqis(Group(rows, d)));
      && (forall x :: x in rows && x.date == d ==> x.aqi <= m)
      && (exists x :: x in rows && x.date == d && x.aqi == m)
  {
    var g := Group(rows, d);
    var aqis := Aqis(g);
    var m := Max(aqis);
    forall x | x in rows && x.date == d
      ensures x.aqi <= m
    {
      var j :| 0 <= j < |g| && g[j] == x;
      assert aqis[j] == x.aqi;
      assert aqis[j] in aqis;
    }
    var j :| 0 <= j < |aqis| && aqis[j] == m;
    assert g[j] in g;
  }

  lemma SumAppend(xs: seq<real>, x: real)
    ensures Sum(xs + [x]) == Sum(xs) + x
  {
    assert (xs + [x])[..|xs|] == xs;
  }

  /** Appending a row adds its values to each column sum. */
  lemma ColumnSumsAppend(g: seq<Reading>, r: Reading)
    ensures Sum(Temperatures(g + [r])) == Sum(Temperatures(g)) + r.temperature
    ensures Sum(Humidities(g + [r])) == Sum(Humidities(g)) + r.humidity
    ensures Sum(Aqis(g + [r])) == Sum(Aqis(g)) + r.aqi
  {
    assert Temperatures(g + [r]) == Temperatures(g) + [r.temperature];
    assert Humidities(g + [r]) == Humidities(g) + [r.humidity];
    assert Aqis(g + [r]) == Aqis(g) + [r.aqi];
    SumAppend(Temperatures(g), r.temperature);
    SumAppend(Humidities(g), r.humidity);
    SumAppend(Aqis(g), r.aqi);
  }

  /** A date's group has one entry per row with that date, and its column sums
      are the sums of those rows' values over the whole table. */
  lemma {:induction false} GroupSums(rows: seq<Reading>, d: string)
    ensures |Group(rows, d)| == RowsOn(rows, d)
    ensures Sum(Temperatures(Group(rows, d))) == TempSumOn(rows, d)
    ensures Sum(Humidities(Group(rows, d))) == HumSumOn(rows, d)
    ensures Sum(Aqis(Group(rows, d))) == AqiSumOn(rows, d)
  {
    if rows != [] {
      var prefix, last := rows[..|rows| - 1], rows[|rows| - 1];
      GroupSums(prefix, d);
      var g := Group(prefix, d);
      if last.date == d {
        assert Group(rows, d) == g + [last];
        ColumnSumsAppend(g, last);
      } else {
        assert g + [] == g;
      }
    }
  }

  /** Each mean of a date's report is the sum of that metric over the rows
      with that date divided by the number of those rows. */
  lemma ReportForMeanValues(rows: seq<Reading>, alerts: seq<Alert>, d: string)
    requires d in Dates(rows)
    ensures RowsOn(rows, d) > 0
    ensures ReportFor(rows, alerts, d).avgTemp == TempSumOn(rows, d) / (RowsOn(rows, d) as real)
    ensures ReportFor(rows, alerts, d).avgHumidity == HumSumOn(rows, d) / (RowsOn(rows, d) as real)
    ensures ReportFor(rows, alerts, d).avgAqi == AqiSumOn(rows, d) / (RowsOn(rows, d) as real)
  {
    GroupSums(rows, d);
  }

  /** Bounds that hold for the temperature, humidity or AQI of every row with a
      date hold for that date's report mean of it. */
  lemma ReportForMeans(rows: seq<Reading>, alerts: seq<Alert>, d: string, lo: real, hi: real)
    requires d in Dates(rows)
    ensures var r := ReportFor(rows, alerts, d);
      && r.date == d
      && ((forall x :: x in rows && x.date == d ==> lo <= x.temperature <= hi) ==> lo <= r.avgTemp <= hi)
      && ((forall x :: x in rows && x.date == d ==> lo <= x.humidity <= hi) ==> lo <= r.avgHumidity <= hi)
      && ((forall x :: x in rows && x.date == d ==> lo <= x.aqi <= hi) ==> lo <= r.avgAqi <= hi)
  {
    var g := Group(rows, d);
    if forall x :: x in rows && x.date == d ==> lo <= x.temperature <= hi {
      var ts := Temperatures(g);
      forall t | t in ts ensures lo <= t <= hi {
        var j :| 0 <= j < |ts| && ts[j] == t;
        assert g[j] in g;
      }
      MeanAtMost(ts, hi);
      MeanAtLeast(ts, lo);
    }
    if forall x :: x in rows && x.date == d ==> lo <= x.humidity <= hi {
      var hs := Humidities(g);
      forall h | h in hs ensures lo <= h <= hi {
        var j :| 0 <= j < |hs| && hs[j] == h;
        assert g[j] in g;
      }
      MeanAtMost(hs, hi);
      MeanAtLeast(hs, lo);
    }
    if forall x :: x in rows && x.date == d ==> lo <= x.aqi <= hi {
      var qs := Aqis(g);
      forall q | q in qs ensures lo <= q <= hi {
        var j :| 0 <= j < |qs| && qs[j] == q;
        assert g[j] in g;
      }
      MeanAtMost(qs, hi);
      MeanAtLeast(qs, lo);
    }
  }

  /** A date's maximum AQI is the AQI of some row with that date and at least
      that of every such row, and the mean AQI does not exceed it. */
  lemma ReportForMaxAqi(rows: seq<Reading>, alerts: seq<Alert>, d: string)
    requires d in Dates(rows)
    ensures var r := ReportFor(rows, alerts, d);
      && (forall x :: x in rows && x.date == d ==> x.aqi <= r.maxAqi)
      && (exists x :: x in rows && x.date == d && x.aqi == r.maxAqi)
      && r.avgAqi <= r.maxAqi
  {
    var aqis := Aqis(Group(rows, d));
    MeanAtMost(aqis, Max(aqis));
    GroupMaxAqi(rows, d);
  }

  /** Each daily report is the report of its own date, which the table carries. */
  lemma DailyReportAt(rows: seq<Reading>, alerts: seq<Alert>, i: nat)
    requires i < |DailyReports(rows, alerts)|
    ensures var r := DailyReports(rows, alerts)[i];
      r.date in Dates(rows) && r == ReportFor(rows, alerts, r.date)
  {
  }

  // ---------------------------------------------------------------------------
  // Conservation of alert counts

  /** Sum of the alert counts of a report list. */
  function TotalAlertCount(rs: seq<Report>): nat {
    if rs == [] then 0 else TotalAlertCount(rs[..|rs| - 1]) + rs[|rs| - 1].alertCount
  }

  /** Sum over the dates `ks` of the alerts carrying each. */
  function AlertsOnAll(alerts: seq<Alert>, ks: seq<string>): nat {
    if ks == [] then 0 else AlertsOnAll(alerts, ks[..|ks| - 1]) + AlertsOn(alerts, ks[|ks| - 1])
  }

  /** Number of positions of `ks` holding `x`. */
  function Occurrences(ks: seq<string>, x: string): nat {
    if ks == [] then 0 else Occurrences(ks[..|ks| - 1], x) + (if ks[|ks| - 1] == x then 1 else 0)
  }

  lemma {:induction false} OccurrencesOnce(ks: seq<string>, x: string)
    requires forall i, j :: 0 <= i < j < |ks| ==> ks[i] != ks[j]
    ensures Occurrences(ks, x) == if x in ks then 1 else 0
  {
    if ks != [] {
      var prefix := ks[..|ks| - 1];
      assert ks == prefix + [ks[|ks| - 1]];
      OccurrencesOnce(prefix, x);
    }
  }

  lemma {:induction false} AlertsOnAllEmpty(ks: seq<string>)
    ensures AlertsOnAll([], ks) == 0
  {
    if ks != [] {
      AlertsOnAllEmpty(ks[..|ks| - 1]);
    }
  }

  /** Dropping the last alert lowers the sum by the number of times its date is listed. */
  lemma {:induction false} AlertsOnAllStep(alerts: seq<Alert>, ks: seq<string>)
    requires alerts != []
    ensures AlertsOnAll(alerts, ks)
      == AlertsOnAll(alerts[..|alerts| - 1], ks) + Occurrences(ks, alerts[|alerts| - 1].date)
  {
    if ks != [] {
      AlertsOnAllStep(alerts, ks[..|ks| - 1]);
    }
  }

  /** Over distinct dates covering every alert's date, the per-date counts add
      up to the number of alerts. */
  lemma {:induction false} AlertsOnAllCovers(alerts: seq<Alert>, ks: seq<string>)
    requires forall i, j :: 0 <= i < j < |ks| ==> ks[i] != ks[j]
    requires forall a :: a in alerts ==> a.date in ks
    ensures AlertsOnAll(alerts, ks) == |alerts|
  {
    if alerts == [] {
      AlertsOnAllEmpty(ks);
    } else {
      var prefix, last := alerts[..|alerts| - 1], alerts[|alerts| - 1];
      assert alerts == prefix + [last];
      AlertsOnAllCovers(prefix, ks);
      AlertsOnAllStep(alerts, ks);
      OccurrencesOnce(ks, last.date);
    }
  }

  lemma {:induction false} TotalAlertCountOfKeys(rows: seq<Reading>, alerts: seq<Alert>, ks: seq<string>)
    requires forall d :: d in ks ==> d in Dates(rows)
    ensures TotalAlertCount(Map(ReportOf(rows, alerts), ks)) == AlertsOnAll(alerts, ks)
  {
    if ks != [] {
      var rs := Map(ReportOf(rows, alerts), ks);
      assert rs[..|rs| - 1] == Map(ReportOf(rows, alerts), ks[..|ks| - 1]);
      TotalAlertCountOfKeys(rows, alerts, ks[..|ks| - 1]);
    }
  }

  /** When every alert carries a date of the table, the reports' alert counts
      add up to the number of alerts: none is lost and none counted twice. */
  lemma AlertCountsConserved(rows: seq<Reading>, alerts: seq<Alert>)
    requires forall a :: a in alerts ==> a.date in Dates(rows)
    ensures TotalAlertCount(DailyReports(rows, alerts)) == |alerts|
  {
    var ks := GroupKeys(rows);
    AscendingDistinct(ks);
    TotalAlertCountOfKeys(rows, alerts, ks);
    AlertsOnAllCovers(alerts, ks);
  }

  /** For the alerts the evaluator derives from the same table, the report
      counts add up to the total number of alerts. */
  lemma EvaluatorAlertsConserved(rows: seq<Reading>)
    ensures TotalAlertCount(DailyReports(rows, AlertsOf(rows))) == |AlertsOf(rows)|
  {
    forall a | a in AlertsOf(rows)
      ensures a.date in Dates(rows)
    {
      AlertsOfSound(rows, a);
      var i :| 0 <= i < |rows| && a.date == rows[i].date;
      assert rows[i] in rows;
    }
    AlertCountsConserved(rows, AlertsOf(rows));
  }
}

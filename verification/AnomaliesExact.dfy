/** What a reported anomaly says, in terms of the daily costs of its own series. */
module AnomaliesExact {
  import opened Calendar
  import opened Domain
  import opened Rows
  import opened Summaries
  import opened Precedence
  import opened Anomalies

  // ---- the daily costs -----------------------------------------------------------------------------

  /** The summary rows that are scored: on AWS the CUR rows, or the linked-account rows of a day without any. */
  ghost predicate IsScored(table: seq<SummaryRow>, row: SummaryRow) {
    var d := row.key.dims;
    || d.provider != AWS
    || d.recordType == "cur_line_item"
    || (d.recordType == "linked_account_service" &&
        !exists c :: c in table && c.key.dims.provider == AWS && c.key.dims.recordType == "cur_line_item"
                     && c.key.periodStart == row.key.periodStart)
  }

  predicate OfSeries(row: SummaryRow, day: Time, s: SeriesDims) {
    var d := row.key.dims;
    && row.key.periodStart == day
    && d.provider == s.provider && d.accountId == s.accountId && d.compartmentId == s.compartmentId
    && d.compartmentName == s.compartmentName && d.service == s.service && d.region == s.region
    && d.currency == s.currency
  }

  /** What the scored rows of one day of a series cost together. */
  ghost function DayCost(rows: seq<SummaryRow>, table: seq<SummaryRow>, day: Time, s: SeriesDims): real {
    if rows == [] then 0.0
    else
      var last := rows[|rows| - 1];
      DayCost(rows[..|rows| - 1], table, day, s) +
      if IsScored(table, last) && OfSeries(last, day, s) then last.totalCost else 0.0
  }

  ghost predicate HasDay(table: seq<SummaryRow>, day: Time, s: SeriesDims) {
    exists row :: row in table && IsScored(table, row) && OfSeries(row, day, s)
  }

  lemma ScoredIff(table: seq<SummaryRow>, row: SummaryRow)
    ensures IsScored(table, row) <==> Admits(table)(row)
  {}

  lemma OfSeriesIff(row: SummaryRow, day: Time, s: SeriesDims)
    ensures OfSeries(row, day, s) <==> SeriesKeyOf()(row) == SeriesKey(day, s)
  {}

  lemma {:induction false} DayCostIsSum(rows: seq<SummaryRow>, table: seq<SummaryRow>, day: Time, s: SeriesDims)
    ensures DayCost(rows, table, day, s) ==
            SumBy(Filter(rows, And(Admits(table), HasKey(SeriesKeyOf(), SeriesKey(day, s)))), TotalOf())
  {
    hide Filter, SumBy, IsScored, Admits, SeriesKeyOf, OfSeries;
    var counted := And(Admits(table), HasKey(SeriesKeyOf(), SeriesKey(day, s)));
    if rows == [] {
      SumOfNone(counted, TotalOf());
    } else {
      var init, last := rows[..|rows| - 1], rows[|rows| - 1];
      assert rows == init + [last];
      DayCostIsSum(init, table, day, s);
      SumFilterSnoc(init, last, counted, TotalOf());
      ScoredIff(table, last);
      OfSeriesIff(last, day, s);
    }
  }

  /** One daily cost for every day of a series that has scored rows: their sum. */
  ghost predicate DailyCostsRight(table: seq<SummaryRow>) {
    var daily := AllDailyCosts(table);
    && DistinctKeys(daily)
    && (forall g :: g in daily ==>
          HasDay(table, g.key.day, g.key.dims) && g.total == DayCost(table, table, g.key.day, g.key.dims))
    && (forall day, s :: HasDay(table, day, s) ==> SeriesKey(day, s) in Keys(daily))
  }

  lemma DailyCostsSay(table: seq<SummaryRow>)
    ensures DailyCostsRight(table)
  {
    hide IsScored, OfSeries, Admits, SeriesKeyOf, Filter, SumBy, GroupBy, DayCost, DistinctKeys;
    var rows, daily := Filter(table, Admits(table)), AllDailyCosts(table);
    GroupByKeys(rows, SeriesKeyOf(), TotalOf());
    GroupByTotals(rows, SeriesKeyOf(), TotalOf());
    forall g | g in daily
      ensures HasDay(table, g.key.day, g.key.dims) && g.total == DayCost(table, table, g.key.day, g.key.dims)
    {
      assert g.key == SeriesKey(g.key.day, g.key.dims) && g.key in Keys(daily);
      var row :| row in rows && SeriesKeyOf()(row) == g.key;
      ScoredIff(table, row);
      OfSeriesIff(row, g.key.day, g.key.dims);
      FilterFilter(table, Admits(table), HasKey(SeriesKeyOf(), g.key));
      DayCostIsSum(table, table, g.key.day, g.key.dims);
    }
    forall day, s | HasDay(table, day, s) ensures SeriesKey(day, s) in Keys(daily) {
      var row :| row in table && IsScored(table, row) && OfSeries(row, day, s);
      ScoredIff(table, row);
      OfSeriesIff(row, day, s);
      assert row in rows;
    }
  }

  // ---- the baseline --------------------------------------------------------------------------------

  /** The costs of the same series in the seven days before. */
  function PriorCosts(daily: seq<DailyCost>, day: Time, s: SeriesDims): seq<real> {
    if daily == [] then []
    else
      var g := daily[|daily| - 1];
      PriorCosts(daily[..|daily| - 1], day, s) +
      if g.key.dims == s && day - 7 * DAY <= g.key.day < day then [g.total] else []
  }

  function Sum(xs: seq<real>): real { if xs == [] then 0.0 else Sum(xs[..|xs| - 1]) + xs[|xs| - 1] }

  /** The sum of the squared distances from m. */
  function SquaredGaps(xs: seq<real>, m: real): real {
    if xs == [] then 0.0 else SquaredGaps(xs[..|xs| - 1], m) + (xs[|xs| - 1] - m) * (xs[|xs| - 1] - m)
  }

  function Totals(costs: seq<DailyCost>): (totals: seq<real>)
    ensures |totals| == |costs|
  {
    if costs == [] then [] else Totals(costs[..|costs| - 1]) + [costs[|costs| - 1].total]
  }

  lemma TotalsSnoc(costs: seq<DailyCost>, g: DailyCost)
    ensures Totals(costs + [g]) == Totals(costs) + [g.total]
  {
    assert (costs + [g])[..|costs|] == costs;
  }

  lemma {:induction false} BaselineIsPriorCosts(daily: seq<DailyCost>, k: SeriesKey)
    ensures Totals(Baseline(daily, k)) == PriorCosts(daily, k.day, k.dims)
  {
    hide Filter, Totals;
    if daily == [] {
      assert Totals([]) == [];
    } else {
      var init, g := daily[..|daily| - 1], daily[|daily| - 1];
      assert daily == init + [g];
      BaselineIsPriorCosts(init, k);
      FilterSnoc(init, g, OnKey(PriorTo(k)));
      TotalsSnoc(Baseline(init, k), g);
    }
  }

  lemma {:induction false} TotalSums(costs: seq<DailyCost>, m: real)
    ensures SumBy(costs, GroupTotal()) == Sum(Totals(costs))
    ensures SumBy(costs, SquaredDeviation(m)) == SquaredGaps(Totals(costs), m)
  {
    if costs != [] {
      var init, g := costs[..|costs| - 1], costs[|costs| - 1];
      TotalSums(init, m);
      assert Totals(costs)[..|init|] == Totals(init);
    }
  }

  // ---- what is reported ----------------------------------------------------------------------------

  /** The cost is off the mean of the prior ones by some percentage of it, or by some number of standard deviations. */
  predicate Deviates(prior: seq<real>, cost: real, percent: real, z: real)
    requires prior != []
  {
    var n := |prior| as real;
    var mean := Sum(prior) / n;
    var variance, delta := SquaredGaps(prior, mean) / n, cost - mean;
    || (mean > 0.0 && (100.0 * delta >= percent * mean || -100.0 * delta >= percent * mean))
    || (variance > 0.0 && delta * delta >= z * z * variance)
  }

  /** A day with prior costs is reported when it is off their mean by at least 1, and by 30 % or two deviations. */
  predicate IsReported(prior: seq<real>, cost: real) {
    prior != [] &&
    var mean := Sum(prior) / |prior| as real;
    (cost >= mean + 1.0 || cost <= mean - 1.0) && Deviates(prior, cost, 30.0, 2.0)
  }

  /** Mean, deltas, direction and severity of a reported day. */
  ghost predicate AnomalySays(prior: seq<real>, a: AnomalyRow) {
    && prior != [] && a.expected * |prior| as real == Sum(prior)
    && a.absoluteDelta == a.observed - a.expected && (a.increase <==> a.absoluteDelta >= 0.0)
    && (a.expected > 0.0 ==> a.percentageDelta * a.expected == 100.0 * a.absoluteDelta)
    && (a.expected <= 0.0 ==> a.percentageDelta == 0.0)
    && a.severity == if Deviates(prior, a.observed, 50.0, 3.0) then High else Medium
  }

  lemma Quotient(x: real, y: real)
    requires y != 0.0
    ensures x / y * y == x
  {}

  lemma PercentageSays(delta: real, expected: real)
    ensures expected > 0.0 ==> Percentage(delta, expected) * expected == 100.0 * delta
    ensures expected <= 0.0 ==> Percentage(delta, expected) == 0.0
  {
    if expected > 0.0 {
      Quotient(delta, expected);
    }
  }

  lemma Scaled(n: real, x: real, y: real)
    requires n > 0.0
    ensures n * x >= n * y <==> x >= y
  {}

  lemma PercentIff(delta: real, mean: real, percent: real)
    requires percent > 0.0
    ensures Abs(Percentage(delta, mean)) >= percent <==>
            mean > 0.0 && (100.0 * delta >= percent * mean || -100.0 * delta >= percent * mean)
  {
    PercentageSays(delta, mean);
    if mean > 0.0 {
      var share := Percentage(delta, mean);
      Scaled(mean, share, percent);
      Scaled(mean, -share, percent);
    }
  }

  /** One day against its baseline. */
  lemma ScoreSays(g: DailyCost, b: seq<DailyCost>)
    ensures IsAnomalous(g, b) <==> IsReported(Totals(b), g.total)
    ensures IsAnomalous(g, b) ==> AnomalySays(Totals(b), Score(g, b))
  {
    hide Sum, SquaredGaps, SumBy, Percentage, Totals;
    if b != [] {
      var mean := Mean(b);
      TotalSums(b, mean);
      Quotient(Sum(Totals(b)), |b| as real);
      PercentIff(g.total - mean, mean, 30.0);
      PercentIff(g.total - mean, mean, 50.0);
      PercentageSays(g.total - mean, mean);
      Escalates(Totals(b), g.total);
    }
  }

  lemma Escalates(prior: seq<real>, cost: real)
    requires prior != []
    ensures Deviates(prior, cost, 50.0, 3.0) ==> Deviates(prior, cost, 30.0, 2.0)
  {}

  /** Every reported anomaly is about one daily cost and says how it compares with the prior costs of its series; and
      a daily cost is reported exactly when they call for it. */
  lemma AnomaliesSay(table: seq<SummaryRow>)
    ensures DailyCostsRight(table)
    ensures forall a :: a in AllAnomalies(table) ==>
      && Group(a.key, a.observed) in AllDailyCosts(table)
      && AnomalySays(PriorCosts(AllDailyCosts(table), a.key.day, a.key.dims), a)
    ensures forall g :: g in AllDailyCosts(table) ==>
      (IsReported(PriorCosts(AllDailyCosts(table), g.key.day, g.key.dims), g.total) <==>
         exists a :: a in AllAnomalies(table) && a.key == g.key)
    ensures forall i, j :: 0 <= i < j < |AllAnomalies(table)| ==>
      AllAnomalies(table)[i].key != AllAnomalies(table)[j].key
  {
    hide AllDailyCosts, DailyCostsRight, IsReported, AnomalySays, PriorCosts, Anomalous, ScoredRow, MapRows;
    var daily, found := AllDailyCosts(table), AllAnomalies(table);
    var kept := Filter(daily, Anomalous(daily));
    DailyCostsSay(table);
    DailyKeysDistinct(table);
    FilterDistinct(daily, Anomalous(daily));
    MapAt(kept, ScoredRow(daily));
    forall g: DailyCost ensures Explained(daily, g) {
      DaySays(daily, g);
    }
    forall a | a in found
      ensures Group(a.key, a.observed) in daily && AnomalySays(PriorCosts(daily, a.key.day, a.key.dims), a)
    {
      var i :| 0 <= i < |found| && found[i] == a;
      assert Explained(daily, kept[i]) && kept[i] in daily;
    }
    forall g | g in daily
      ensures IsReported(PriorCosts(daily, g.key.day, g.key.dims), g.total) <==>
        exists a :: a in found && a.key == g.key
    {
      assert Explained(daily, g);
      if Anomalous(daily)(g) {
        var i :| 0 <= i < |kept| && kept[i] == g;
        assert found[i] in found && found[i].key == g.key;
      }
      if a :| a in found && a.key == g.key {
        var i :| 0 <= i < |found| && found[i] == a;
        assert Explained(daily, kept[i]) && kept[i] in daily && kept[i].key == g.key;
        SameKeySameGroup(daily, kept[i], g);
      }
    }
    forall i, j | 0 <= i < j < |found| ensures found[i].key != found[j].key {
      assert Explained(daily, kept[i]) && Explained(daily, kept[j]);
    }
  }

  /** The row of a day is about that day, and the day is reported exactly when its prior costs call for it. */
  ghost predicate Explained(daily: seq<DailyCost>, g: DailyCost) {
    var prior, a := PriorCosts(daily, g.key.day, g.key.dims), ScoredRow(daily)(g);
    && a.key == g.key && a.observed == g.total
    && (Anomalous(daily)(g) <==> IsReported(prior, g.total))
    && (Anomalous(daily)(g) ==> AnomalySays(prior, a))
  }

  lemma DaySays(daily: seq<DailyCost>, g: DailyCost)
    ensures Explained(daily, g)
  {
    hide IsAnomalous, IsReported, AnomalySays, PriorCosts, Baseline;
    BaselineIsPriorCosts(daily, g.key);
    ScoreSays(g, Baseline(daily, g.key));
    OnlyWithBaseline(g, Baseline(daily, g.key));
  }

  lemma OnlyWithBaseline(g: DailyCost, b: seq<DailyCost>)
    ensures IsAnomalous(g, b) ==> b != []
  {}

  lemma DailyKeysDistinct(table: seq<SummaryRow>)
    ensures DistinctKeys(AllDailyCosts(table))
  {
    GroupByKeys(Filter(table, Admits(table)), SeriesKeyOf(), TotalOf());
  }

  lemma SameKeySameGroup(daily: seq<DailyCost>, g: DailyCost, h: DailyCost)
    requires DistinctKeys(daily) && g in daily && h in daily && g.key == h.key
    ensures g == h
  {
    var i :| 0 <= i < |daily| && daily[i] == g;
    var j :| 0 <= j < |daily| && daily[j] == h;
    assert i == j;
  }
}

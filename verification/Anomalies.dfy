/** Cost anomalies: daily spend scored against a trailing seven-day baseline. The windowed rebuild
    is proved equal to detection over the whole history, and to detection over the raw records. */
module Anomalies {
  import opened Calendar
  import opened Domain
  import opened Rows
  import opened Summaries
  import opened Precedence

  datatype SeriesDims = SeriesDims(
    provider: Provider, accountId: string, compartmentId: string, compartmentName: string,
    service: string, region: string, currency: string)

  datatype SeriesKey = SeriesKey(day: Time, dims: SeriesDims)

  datatype Severity = High | Medium | Low

  datatype AnomalyRow = AnomalyRow(
    key: SeriesKey, observed: real, expected: real, absoluteDelta: real, percentageDelta: real,
    increase: bool, severity: Severity)

  const BASELINE_DAYS := 7

  function SeriesKeyOf(): SummaryRow -> SeriesKey {
    (row: SummaryRow) =>
      var d := row.key.dims;
      SeriesKey(row.key.periodStart,
                SeriesDims(d.provider, d.accountId, d.compartmentId, d.compartmentName, d.service, d.region,
                    d.currency))
  }

  function DayIn(from: Time, to: Time): SeriesKey -> bool { (k: SeriesKey) => from <= k.day < to }

  type DailyCost = Group<SeriesKey>

  /** The selected and daily queries over the rows of [from, to). */
  function DailyCosts(table: seq<SummaryRow>, from: Time, to: Time): seq<DailyCost> {
    GroupBy(Filter(table, And(RowIn(from, to), Admits(table))), SeriesKeyOf(), TotalOf())
  }

  /** Daily costs of the whole table. */
  function AllDailyCosts(table: seq<SummaryRow>): seq<DailyCost> {
    GroupBy(Filter(table, Admits(table)), SeriesKeyOf(), TotalOf())
  }

  // ---- the lateral baseline -----------------------------------------------------

  function PriorTo(k: SeriesKey): SeriesKey -> bool {
    (q: SeriesKey) => q.dims == k.dims && AddDays(k.day, -BASELINE_DAYS) <= q.day < k.day
  }

  function Baseline(daily: seq<DailyCost>, k: SeriesKey): seq<DailyCost> { Filter(daily, OnKey(PriorTo(k))) }

  function Mean(xs: seq<DailyCost>): real
    requires xs != []
  {
    SumBy(xs, GroupTotal()) / |xs| as real
  }

  function SquaredDeviation(mean: real): DailyCost -> real {
    (g: DailyCost) => (g.total - mean) * (g.total - mean)
  }

  /** The square of STDDEV_POP. */
  function Variance(xs: seq<DailyCost>): real
    requires xs != []
  {
    SumBy(xs, SquaredDeviation(Mean(xs))) / |xs| as real
  }

  /** |z| >= n for the z-score delta / stddev, which is 0 when the deviation is 0. */
  predicate ZScoreAtLeast(delta: real, variance: real, n: real) {
    variance > 0.0 && delta * delta >= n * n * variance
  }

  function Abs(x: real): real { if x < 0.0 then -x else x }

  function Percentage(delta: real, expected: real): real {
    if expected > 0.0 then delta / expected * 100.0 else 0.0
  }

  function Score(g: DailyCost, baseline: seq<DailyCost>): AnomalyRow
    requires baseline != []
  {
    var expected := Mean(baseline);
    var delta := g.total - expected;
    var percentage := Percentage(delta, expected);
    AnomalyRow(g.key, g.total, expected, delta, percentage, delta >= 0.0,
               if Abs(percentage) >= 50.0 || ZScoreAtLeast(delta, Variance(baseline), 3.0) then High
               else if Abs(percentage) >= 30.0 || ZScoreAtLeast(delta, Variance(baseline), 2.0) then Medium
               else Low)
  }

  /** Whether a daily cost is reported: a day without any baseline never is. */
  predicate IsAnomalous(g: DailyCost, baseline: seq<DailyCost>) {
    baseline != [] &&
    var delta := g.total - Mean(baseline);
    && Abs(delta) >= 1.0
    && (Abs(Percentage(delta, Mean(baseline))) >= 30.0 || ZScoreAtLeast(delta, Variance(baseline), 2.0))
  }

  function Anomalous(daily: seq<DailyCost>): DailyCost -> bool {
    (g: DailyCost) => IsAnomalous(g, Baseline(daily, g.key))
  }

  function ScoredRow(daily: seq<DailyCost>): DailyCost -> AnomalyRow {
    (g: DailyCost) =>
      var b := Baseline(daily, g.key);
      if b == [] then AnomalyRow(g.key, g.total, 0.0, 0.0, 0.0, true, Low) else Score(g, b)
  }

  function Detect(daily: seq<DailyCost>, current: seq<DailyCost>): seq<AnomalyRow> {
    MapRows(Filter(current, Anomalous(daily)), ScoredRow(daily))
  }

  /** What refreshCostAnomalies inserts: current days in [from, to), history from baselineFrom. */
  function WindowAnomalies(table: seq<SummaryRow>, from: Time, to: Time, baselineFrom: Time): seq<AnomalyRow> {
    var daily := DailyCosts(table, baselineFrom, to);
    Detect(daily, Filter(daily, OnKey(DayIn(from, to))))
  }

  /** Detection over every day of the table. */
  function AllAnomalies(table: seq<SummaryRow>): seq<AnomalyRow> {
    Detect(AllDailyCosts(table), AllDailyCosts(table))
  }

  function AnomalyIn(from: Time, to: Time): AnomalyRow -> bool { (a: AnomalyRow) => from <= a.key.day < to }

  function AnomalyOutside(from: Time, to: Time): AnomalyRow -> bool { (a: AnomalyRow) => !(from <= a.key.day < to) }

  // ---- windowed detection is full detection ----------------------------------------

  lemma DailyCostsOfRange(table: seq<SummaryRow>, from: Time, to: Time)
    ensures DailyCosts(table, from, to) == Filter(AllDailyCosts(table), OnKey(DayIn(from, to)))
  {
    FilterGroupBy(Filter(table, Admits(table)), SeriesKeyOf(), TotalOf(), DayIn(from, to));
    FilterFilter(table, Admits(table), Compose(SeriesKeyOf(), DayIn(from, to)));
    FilterCongruent(table, And(Admits(table), Compose(SeriesKeyOf(), DayIn(from, to))),
        And(RowIn(from, to), Admits(table)));
  }

  /** Seven days before the window hold every prior day that a baseline in the window needs. */
  lemma BaselineIsLocal(all: seq<DailyCost>, from: Time, to: Time, k: SeriesKey)
    requires from <= k.day < to
    ensures Baseline(Filter(all, OnKey(DayIn(AddDays(from, -BASELINE_DAYS), to))), k) == Baseline(all, k)
  {
    var near := OnKey(DayIn(AddDays(from, -BASELINE_DAYS), to));
    FilterFilter(all, near, OnKey(PriorTo(k)));
    FilterCongruent(all, And(near, OnKey(PriorTo(k))), OnKey(PriorTo(k)));
  }

  /** Detection depends on the history only through the baselines of the current days. */
  lemma DetectCongruent(a: seq<DailyCost>, b: seq<DailyCost>, current: seq<DailyCost>)
    requires forall g :: g in current ==> Anomalous(a)(g) == Anomalous(b)(g) && ScoredRow(a)(g) == ScoredRow(b)(g)
    ensures Detect(a, current) == Detect(b, current)
  {
    FilterCongruent(current, Anomalous(a), Anomalous(b));
    MapCongruent(Filter(current, Anomalous(b)), ScoredRow(a), ScoredRow(b));
  }

  /** The rebuilt window is detection over the whole table, restricted to the window. */
  lemma WindowedDetectionIsFull(table: seq<SummaryRow>, from: Time, to: Time)
    ensures WindowAnomalies(table, from, to, AddDays(from, -BASELINE_DAYS)) ==
        Filter(AllAnomalies(table), AnomalyIn(from, to))
  {
    var all, here := AllDailyCosts(table), OnKey(DayIn(from, to));
    var near := OnKey(DayIn(AddDays(from, -BASELINE_DAYS), to));
    DailyCostsOfRange(table, AddDays(from, -BASELINE_DAYS), to);
    var daily := Filter(all, near);
    FilterFilter(all, near, here);
    FilterCongruent(all, And(near, here), here);
    var current := Filter(all, here);
    DetectCongruent(daily, all, current) by {
      forall g | g in current
          ensures Anomalous(daily)(g) == Anomalous(all)(g) && ScoredRow(daily)(g) == ScoredRow(all)(g) {
        BaselineIsLocal(all, from, to, g.key);
      }
    }
    SelectDetected(all, from, to);
  }

  lemma SelectDetected(all: seq<DailyCost>, from: Time, to: Time)
    ensures Filter(Detect(all, all), AnomalyIn(from, to)) == Detect(all, Filter(all, OnKey(DayIn(from, to))))
  {
    var here := OnKey(DayIn(from, to));
    FilterMap(Filter(all, Anomalous(all)), ScoredRow(all), AnomalyIn(from, to), here);
    FilterFilter(all, Anomalous(all), here);
    FilterFilter(all, here, Anomalous(all));
    FilterCongruent(all, And(Anomalous(all), here), And(here, Anomalous(all)));
  }

  // ---- detection does not depend on row order or on rows outside the baseline range ----

  lemma StatisticsPermutation(x: seq<DailyCost>, y: seq<DailyCost>)
    requires multiset(x) == multiset(y)
    ensures |x| == |y|
    ensures x != [] ==> Mean(x) == Mean(y) && Variance(x) == Variance(y)
  {
    assert |x| == |multiset(x)| == |multiset(y)| == |y|;
    if x != [] {
      SumPermutation(x, y, GroupTotal());
      SumPermutation(x, y, SquaredDeviation(Mean(x)));
    }
  }

  lemma SameScore(g: DailyCost, x: seq<DailyCost>, y: seq<DailyCost>)
    requires multiset(x) == multiset(y)
    ensures IsAnomalous(g, x) == IsAnomalous(g, y)
    ensures x == [] <==> y == []
    ensures x != [] ==> Score(g, x) == Score(g, y)
  {
    StatisticsPermutation(x, y);
  }

  lemma ScorePermutation(a: seq<DailyCost>, b: seq<DailyCost>, g: DailyCost)
    requires multiset(a) == multiset(b)
    ensures Anomalous(a)(g) == Anomalous(b)(g) && ScoredRow(a)(g) == ScoredRow(b)(g)
  {
    FilterPermutation(a, b, OnKey(PriorTo(g.key)));
    SameScore(g, Baseline(a, g.key), Baseline(b, g.key));
  }

  lemma DetectPermutation(a: seq<DailyCost>, b: seq<DailyCost>, from: Time, to: Time)
    requires multiset(a) == multiset(b)
    ensures multiset(Detect(a, Filter(a, OnKey(DayIn(from, to))))) ==
        multiset(Detect(b, Filter(b, OnKey(DayIn(from, to)))))
  {
    var x, y := Filter(a, OnKey(DayIn(from, to))), Filter(b, OnKey(DayIn(from, to)));
    FilterPermutation(a, b, OnKey(DayIn(from, to)));
    DetectCongruent(a, b, x) by {
      forall g | g in x ensures Anomalous(a)(g) == Anomalous(b)(g) && ScoredRow(a)(g) == ScoredRow(b)(g) {
        ScorePermutation(a, b, g);
      }
    }
    FilterPermutation(x, y, Anomalous(b));
    MapPermutation(Filter(x, Anomalous(b)), Filter(y, Anomalous(b)), ScoredRow(b));
  }

  lemma AdmitsOnRange(s: seq<SummaryRow>, t: seq<SummaryRow>, from: Time, to: Time, row: SummaryRow)
    requires multiset(Filter(s, RowIn(from, to))) == multiset(Filter(t, RowIn(from, to)))
    requires from <= row.key.periodStart < to
    ensures Admits(s)(row) == Admits(t)(row)
  {
    SameRows(Filter(s, RowIn(from, to)), Filter(t, RowIn(from, to)));
    if c :| c in s && IsCurRow(c) && c.key.periodStart == row.key.periodStart {
      assert RowIn(from, to)(c);
      assert c in Filter(t, RowIn(from, to));
    }
    if c :| c in t && IsCurRow(c) && c.key.periodStart == row.key.periodStart {
      assert RowIn(from, to)(c);
      assert c in Filter(s, RowIn(from, to));
    }
  }

  /** Tables that agree from seven days before the window on report the same anomalies in it. */
  lemma AnomaliesAreLocal(s: seq<SummaryRow>, t: seq<SummaryRow>, from: Time, to: Time)
    requires var bf := AddDays(from, -BASELINE_DAYS);
             multiset(Filter(s, RowIn(bf, to))) == multiset(Filter(t, RowIn(bf, to)))
    ensures multiset(Filter(AllAnomalies(s), AnomalyIn(from, to))) ==
        multiset(Filter(AllAnomalies(t), AnomalyIn(from, to)))
  {
    var bf := AddDays(from, -BASELINE_DAYS);
    WindowedDetectionIsFull(s, from, to);
    WindowedDetectionIsFull(t, from, to);
    DailyCostsAreLocal(s, t, bf, to);
    DetectPermutation(DailyCosts(s, bf, to), DailyCosts(t, bf, to), from, to);
  }

  lemma DailyCostsAreLocal(s: seq<SummaryRow>, t: seq<SummaryRow>, from: Time, to: Time)
    requires multiset(Filter(s, RowIn(from, to))) == multiset(Filter(t, RowIn(from, to)))
    ensures multiset(DailyCosts(s, from, to)) == multiset(DailyCosts(t, from, to))
  {
    var x, y := Filter(s, RowIn(from, to)), Filter(t, RowIn(from, to));
    FilterFilter(s, RowIn(from, to), Admits(s));
    FilterFilter(t, RowIn(from, to), Admits(t));
    FilterCongruent(x, Admits(s), Admits(t)) by {
      forall row | row in x ensures Admits(s)(row) == Admits(t)(row) {
        AdmitsOnRange(s, t, from, to, row);
      }
    }
    FilterPermutation(x, y, Admits(t));
    GroupByPermutation(Filter(x, Admits(t)), Filter(y, Admits(t)), SeriesKeyOf(), TotalOf());
  }

  /** The 'low' branch of the severity is dead: whatever is reported is at least medium. */
  lemma ReportedSeverity(daily: seq<DailyCost>, current: seq<DailyCost>)
    ensures forall a :: a in Detect(daily, current) ==> a.severity != Low
  {
    MappedSeverity(daily, Filter(current, Anomalous(daily)));
  }

  lemma {:induction false} MappedSeverity(daily: seq<DailyCost>, gs: seq<DailyCost>)
    requires forall g :: g in gs ==> Anomalous(daily)(g)
    ensures forall a :: a in MapRows(gs, ScoredRow(daily)) ==> a.severity != Low
  {
    if gs != [] {
      var init, last := gs[..|gs| - 1], gs[|gs| - 1];
      MappedSeverity(daily, init);
      assert Anomalous(daily)(last);
      assert ScoredRow(daily)(last).severity != Low;
    }
  }
}

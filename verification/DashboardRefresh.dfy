/** The refresh transaction over the precomputed tables, and what the tables hold after it. */
module DashboardRefresh {
  import opened Calendar
  import opened Domain
  import opened Rows
  import opened Summaries
  import opened SummariesExact
  import opened Precedence
  import opened Anomalies

  const DEFAULT_RETENTION_DAYS := 90

  datatype Tables = Tables(summaries: SummaryTables, anomalies: seq<AnomalyRow>)

  type SummaryTables = map<Window, seq<SummaryRow>>

  ghost predicate Unique(s: SummaryTables) {
    s.Keys == {Daily, Weekly, Monthly} && forall w <- s :: UniquePrimaryKeys(s[w])
  }

  function StartsSince(cutoff: Time): SummaryRow -> bool { (row: SummaryRow) => cutoff <= row.key.periodStart }

  function AnomalySince(cutoff: Time): AnomalyRow -> bool { (a: AnomalyRow) => cutoff <= a.key.day }

  /** The defaults applied to the requested range. */
  function EffectiveRange(from: Time, to: Time, now: Time): (Time, Time) {
    var t := if IsZero(to) then now else to;
    (if IsZero(from) || from > t then AddDays(t, -30) else from, t)
  }

  /** Without an end the range ends now; without a start, or with one after the end, it is the 30 days before. */
  lemma EffectiveRangeSays(from: Time, to: Time, now: Time)
    ensures var (f, t) := EffectiveRange(from, to, now);
      && f <= t && t == (if to == ZERO_TIME then now else to)
      && (f == from || f == t - 30 * DAY) && (f != from ==> from == ZERO_TIME || from > t)
    ensures from == ZERO_TIME ==> EffectiveRange(from, to, now).0 == EffectiveRange(from, to, now).1 - 30 * DAY
  {}

  function EffectiveRetention(days: int): int { if days <= 0 then DEFAULT_RETENTION_DAYS else days }

  function RebuildWindow(s: SummaryTables, records: seq<CostRecord>, w: Window, from: Time, to: Time): SummaryTables
    requires w in s
  {
    var (wf, wt) := AlignRefreshWindow(w, from, to);
    s[w := RefreshedTable(s[w], records, w, wf, wt)]
  }

  function RebuildSummaries(s: SummaryTables, records: seq<CostRecord>, from: Time, to: Time): SummaryTables
    requires s.Keys == {Daily, Weekly, Monthly}
  {
    var daily := RebuildWindow(s, records, Daily, from, to);
    var weekly := RebuildWindow(daily, records, Weekly, from, to);
    RebuildWindow(weekly, records, Monthly, from, to)
  }

  function RebuildAnomalies(anomalies: seq<AnomalyRow>, daily: seq<SummaryRow>, from: Time, to: Time): seq<AnomalyRow> {
    Filter(anomalies, AnomalyOutside(from, to)) + Filter(AllAnomalies(daily), AnomalyIn(from, to))
  }

  function PruneOne(s: SummaryTables, w: Window, cutoff: Time): SummaryTables
    requires w in s
  {
    s[w := Filter(s[w], StartsSince(cutoff))]
  }

  function PruneSummaries(s: SummaryTables, cutoff: Time): SummaryTables
    requires s.Keys == {Daily, Weekly, Monthly}
  {
    PruneOne(PruneOne(PruneOne(s, Daily, cutoff), Weekly, cutoff), Monthly, cutoff)
  }

  lemma EachTable(s: SummaryTables, records: seq<CostRecord>, from: Time, to: Time, cutoff: Time, w: Window)
    requires s.Keys == {Daily, Weekly, Monthly}
    ensures RebuildSummaries(s, records, from, to).Keys == s.Keys
    ensures RebuildSummaries(s, records, from, to)[w] == RebuildWindow(s, records, w, from, to)[w]
    ensures PruneSummaries(s, cutoff)[w] == Filter(s[w], StartsSince(cutoff))
  {
    hide RefreshedTable, AlignRefreshWindow, Filter;
  }

  datatype Outcome = Done | Failed | DuplicateKey

  /** The tables after a successful refresh: three summary windows rebuilt from the records, the
      anomaly window rebuilt from the new daily table, and everything before the cutoff pruned. */
  ghost function Refreshed(t: Tables, records: seq<CostRecord>, from: Time, to: Time, cutoff: Time): Tables
    requires t.summaries.Keys == {Daily, Weekly, Monthly}
  {
    var rebuilt := RebuildSummaries(t.summaries, records, from, to);
    var (df, dt) := AlignRefreshWindow(Daily, from, to);
    Tables(PruneSummaries(rebuilt, cutoff),
           Filter(RebuildAnomalies(t.anomalies, rebuilt[Daily], df, dt), AnomalySince(cutoff)))
  }

  class Repository {
    var records: seq<CostRecord>
    var summaries: SummaryTables
    var anomalies: seq<AnomalyRow>

    ghost function Contents(): Tables
      reads this
    {
      Tables(summaries, anomalies)
    }

    /** DELETE of the window, then INSERT ... SELECT. The insert is refused on a duplicate primary key,
        and either statement may fail for reasons of its own. */
    method RefreshCostSummary(w: Window, from: Time, to: Time, previousFrom: Time, previousTo: Time)
      returns (outcome: Outcome)
      requires w in summaries && UniquePrimaryKeys(summaries[w])
      requires Aligned(w, from) && Aligned(w, to)
      requires (previousFrom, previousTo) == PreviousSummaryWindow(w, from, to)
      modifies this`summaries
      ensures outcome == Done && from >= to ==> summaries == old(summaries)
      ensures outcome == Done && from < to ==>
        summaries == old(summaries)[w := RefreshedTable(old(summaries[w]), records, w, from, to)]
      ensures outcome == Done ==> UniquePrimaryKeys(summaries[w])
      ensures outcome == Done && from < to ==> ScopeTypesAgree(records, w, from, to)
      ensures outcome == DuplicateKey ==> !ScopeTypesAgree(records, w, from, to)
    {
      if !(to > from) { return Done; }
      var deleteFails: bool := *;
      if deleteFails { return Failed; }
      var table := Filter(summaries[w], RowOutside(from, to));
      summaries := summaries[w := table];
      var rows := WindowRows(records, w, from, to, previousFrom, previousTo);
      WindowRowsAreFullRows(records, w, from, to);
      RefreshAcceptedIff(old(summaries[w]), records, w, from, to);
      var insertFails: bool := *;
      if insertFails { return Failed; }
      if !UniquePrimaryKeys(table + rows) { return DuplicateKey; }
      summaries := summaries[w := table + rows];
      return Done;
    }

    method RefreshCostAnomalies(from: Time, to: Time, baselineFrom: Time) returns (outcome: Outcome)
      requires Daily in summaries && baselineFrom == AddDays(from, -BASELINE_DAYS)
      modifies this`anomalies
      ensures outcome == Done && from >= to ==> anomalies == old(anomalies)
      ensures outcome == Done && from < to ==> anomalies == RebuildAnomalies(old(anomalies), summaries[Daily], from, to)
      ensures outcome != DuplicateKey
    {
      if !(to > from) { return Done; }
      var deleteFails: bool := *;
      if deleteFails { return Failed; }
      anomalies := Filter(anomalies, AnomalyOutside(from, to));
      var insertFails: bool := *;
      if insertFails { return Failed; }
      WindowedDetectionIsFull(summaries[Daily], from, to);
      anomalies := anomalies + WindowAnomalies(summaries[Daily], from, to, baselineFrom);
      return Done;
    }

    method PruneDashboardAnalytics(cutoff: Time) returns (outcome: Outcome)
      requires summaries.Keys == {Daily, Weekly, Monthly}
      modifies this`summaries, this`anomalies
      ensures outcome == Done ==> summaries == PruneSummaries(old(summaries), cutoff)
      ensures outcome == Done ==> anomalies == Filter(old(anomalies), AnomalySince(cutoff))
      ensures outcome != DuplicateKey
    {
      var fails: bool := *;
      if fails { return Failed; }
      summaries := PruneOne(summaries, Daily, cutoff);
      fails := *;
      if fails { return Failed; }
      summaries := PruneOne(summaries, Weekly, cutoff);
      fails := *;
      if fails { return Failed; }
      summaries := PruneOne(summaries, Monthly, cutoff);
      fails := *;
      if fails { return Failed; }
      anomalies := Filter(anomalies, AnomalySince(cutoff));
      return Done;
    }

    /** One transaction: on any failure the tables are as before, otherwise they are the refreshed tables.
        Rebuilding the forecast table, a step that may fail, is not modelled further. */
    method RefreshDashboardAnalytics(from: Time, to: Time, now: Time, retentionDays: int) returns (outcome: Outcome)
      requires Unique(summaries)
      modifies this`summaries, this`anomalies
      ensures outcome != Done ==> Contents() == old(Contents())
      ensures var (f, t) := EffectiveRange(from, to, now);
        outcome == Done ==>
        Contents() == Refreshed(old(Contents()), records, f, t, AddDays(now, -EffectiveRetention(retentionDays)))
      ensures var (f, t) := EffectiveRange(from, to, now);
        && (outcome == Done ==> WindowsAgree(records, f, t))
        && (outcome == DuplicateKey ==> !WindowsAgree(records, f, t))
      ensures Unique(summaries)
    {
      var (f, t) := EffectiveRange(from, to, now);
      var beganSummaries, beganAnomalies := summaries, anomalies;
      outcome := RefreshTables(f, t, AddDays(now, -EffectiveRetention(retentionDays)));
      var commitFails: bool := *;
      if outcome == Done && commitFails { outcome := Failed; }
      if outcome != Done {
        summaries, anomalies := beganSummaries, beganAnomalies;
      }
    }

    method RefreshTables(from: Time, to: Time, cutoff: Time) returns (outcome: Outcome)
      requires Unique(summaries) && from <= to
      modifies this`summaries, this`anomalies
      ensures outcome == Done ==>
        Contents() == Refreshed(old(Contents()), records, from, to, cutoff) && Unique(summaries)
      ensures outcome == Done ==> WindowsAgree(records, from, to)
      ensures outcome == DuplicateKey ==> !WindowsAgree(records, from, to)
    {
      hide RebuildSummaries, RebuildAnomalies, PruneSummaries, AlignRefreshWindow, WindowsAgree, UniquePrimaryKeys;
      outcome := RefreshSummaries(from, to);
      if outcome != Done { return; }
      var (df, dt) := AlignRefreshWindow(Daily, from, to);
      RefreshWindowAligned(Daily, from, to);
      outcome := RefreshCostAnomalies(df, dt, AddDays(df, -7));
      if outcome != Done { return; }
      var forecastsFail: bool := *;
      if forecastsFail { return Failed; }
      PruneKeepsUnique(summaries, cutoff);
      outcome := PruneDashboardAnalytics(cutoff);
    }

    method RefreshSummaries(from: Time, to: Time) returns (outcome: Outcome)
      requires Unique(summaries) && from <= to
      modifies this`summaries
      ensures outcome == Done ==> summaries == RebuildSummaries(old(summaries), records, from, to) && Unique(summaries)
      ensures outcome == Done ==> WindowsAgree(records, from, to)
      ensures outcome == DuplicateKey ==> !WindowsAgree(records, from, to)
    {
      outcome := RefreshWindow(Daily, from, to);
      if outcome != Done { return; }
      outcome := RefreshWindow(Weekly, from, to);
      if outcome != Done { return; }
      outcome := RefreshWindow(Monthly, from, to);
    }

    method RefreshWindow(w: Window, from: Time, to: Time) returns (outcome: Outcome)
      requires Unique(summaries) && from <= to
      modifies this`summaries
      ensures outcome == Done ==> summaries == RebuildWindow(old(summaries), records, w, from, to) && Unique(summaries)
      ensures outcome == Done ==> WindowAgrees(records, w, from, to)
      ensures outcome == DuplicateKey ==> !WindowAgrees(records, w, from, to)
    {
      hide AlignRefreshWindow, PreviousSummaryWindow, RefreshedTable, ScopeTypesAgree, UniquePrimaryKeys;
      var (wf, wt) := AlignRefreshWindow(w, from, to);
      var (pf, pt) := PreviousSummaryWindow(w, wf, wt);
      RefreshWindowAligned(w, from, to);
      outcome := RefreshCostSummary(w, wf, wt, pf, pt);
    }
  }

  ghost predicate WindowAgrees(records: seq<CostRecord>, w: Window, from: Time, to: Time) {
    var (wf, wt) := AlignRefreshWindow(w, from, to);
    ScopeTypesAgree(records, w, wf, wt)
  }

  ghost predicate WindowsAgree(records: seq<CostRecord>, from: Time, to: Time) {
    WindowAgrees(records, Daily, from, to) && WindowAgrees(records, Weekly, from, to)
        && WindowAgrees(records, Monthly, from, to)
  }

  /** A refresh over records that the collectors wrote is never refused. */
  lemma WrittenWindowsAgree(records: seq<CostRecord>, from: Time, to: Time)
    requires forall r :: r in records ==> ScopeAsWritten(r)
    ensures WindowsAgree(records, from, to)
  {
    hide AlignRefreshWindow, ScopeTypesAgree;
    forall w ensures WindowAgrees(records, w, from, to) {
      var (wf, wt) := AlignRefreshWindow(w, from, to);
      WrittenScopeTypesAgree(records, w, wf, wt);
    }
  }

  lemma PruneKeepsUnique(s: SummaryTables, cutoff: Time)
    requires Unique(s)
    ensures Unique(PruneSummaries(s, cutoff))
  {
    forall w <- s ensures UniquePrimaryKeys(PruneSummaries(s, cutoff)[w]) {
      UniqueAfterFilter(s[w], StartsSince(cutoff));
    }
  }

  // ---- what a reader of the refreshed tables sees -----------------------------------

  /** Every bucket of the window that is not pruned equals the aggregation of all records; no other bucket
      that is not pruned changes. */
  lemma RefreshedSummariesExact(t: Tables, records: seq<CostRecord>, from: Time, to: Time, cutoff: Time, w: Window)
    requires t.summaries.Keys == {Daily, Weekly, Monthly} && from <= to
    ensures var (wf, wt) := AlignRefreshWindow(w, from, to);
            var after := Refreshed(t, records, from, to, cutoff).summaries[w];
            && wf <= from && to < wt
            && Filter(after, RowIn(wf, wt)) ==
               Filter(Filter(FullSummary(records, w), RowIn(wf, wt)), StartsSince(cutoff))
            && Filter(after, RowOutside(wf, wt)) ==
               Filter(Filter(t.summaries[w], RowOutside(wf, wt)), StartsSince(cutoff))
  {
    hide FullSummary, AlignRefreshWindow, Filter, RebuildSummaries, PruneSummaries;
    var (wf, wt) := AlignRefreshWindow(w, from, to);
    RefreshWindowAligned(w, from, to);
    var table := RefreshedTable(t.summaries[w], records, w, wf, wt);
    RefreshedTableIsExact(t.summaries[w], records, w, wf, wt);
    EachTable(t.summaries, records, from, to, cutoff, w);
    EachTable(RebuildSummaries(t.summaries, records, from, to), records, from, to, cutoff, w);
    FilterSwap(table, StartsSince(cutoff), RowIn(wf, wt));
    FilterSwap(table, StartsSince(cutoff), RowOutside(wf, wt));
  }

  /** Row by row: what is not pruned is inside the window what the records say, each once, and outside what it was. */
  lemma RefreshedRows(t: Tables, records: seq<CostRecord>, from: Time, to: Time, cutoff: Time, w: Window,
                      row: SummaryRow)
    requires t.summaries.Keys == {Daily, Weekly, Monthly} && from <= to
    ensures var (wf, wt) := AlignRefreshWindow(w, from, to);
            multiset(Refreshed(t, records, from, to, cutoff).summaries[w])[row] ==
            if row.key.periodStart < cutoff then 0
            else if wf <= row.key.periodStart < wt then if IsSummary(records, w, row) then 1 else 0
            else multiset(t.summaries[w])[row]
  {
    hide AlignRefreshWindow, Filter, RebuildSummaries, PruneSummaries, IsSummary, RefreshedTable;
    var (wf, wt) := AlignRefreshWindow(w, from, to);
    var table := RefreshedTable(t.summaries[w], records, w, wf, wt);
    EachTable(t.summaries, records, from, to, cutoff, w);
    EachTable(RebuildSummaries(t.summaries, records, from, to), records, from, to, cutoff, w);
    FilterMultiplicity(table, StartsSince(cutoff), row);
    RefreshedBuckets(t.summaries[w], records, w, wf, wt);
  }

  /** The same for anomalies: inside the window those of the rebuilt daily table. */
  lemma RefreshedAnomalyRows(t: Tables, records: seq<CostRecord>, from: Time, to: Time, cutoff: Time, a: AnomalyRow)
    requires t.summaries.Keys == {Daily, Weekly, Monthly} && from <= to
    ensures var (df, dt) := AlignRefreshWindow(Daily, from, to);
            var daily := RefreshedTable(t.summaries[Daily], records, Daily, df, dt);
            multiset(Refreshed(t, records, from, to, cutoff).anomalies)[a] ==
            if a.key.day < cutoff then 0
            else if df <= a.key.day < dt then multiset(AllAnomalies(daily))[a]
            else multiset(t.anomalies)[a]
  {
    hide AlignRefreshWindow, Filter, RebuildSummaries, PruneSummaries, RefreshedTable, AllAnomalies;
    var (df, dt) := AlignRefreshWindow(Daily, from, to);
    var daily := RefreshedTable(t.summaries[Daily], records, Daily, df, dt);
    EachTable(t.summaries, records, from, to, cutoff, Daily);
    var rebuilt := RebuildAnomalies(t.anomalies, daily, df, dt);
    FilterMultiplicity(rebuilt, AnomalySince(cutoff), a);
    FilterMultiplicity(t.anomalies, AnomalyOutside(df, dt), a);
    FilterMultiplicity(AllAnomalies(daily), AnomalyIn(df, dt), a);
  }

  lemma FilterSwap<T>(xs: seq<T>, p: T -> bool, q: T -> bool)
    ensures Filter(Filter(xs, p), q) == Filter(Filter(xs, q), p)
  {
    FilterFilter(xs, p, q);
    FilterFilter(xs, q, p);
    FilterCongruent(xs, And(p, q), And(q, p));
  }

  /** From raw records to anomalies: when the seven days before the window held the aggregation of the
      records, the anomalies of the window are those that detection over the aggregated records finds. */
  lemma RefreshedAnomaliesExact(t: Tables, records: seq<CostRecord>, from: Time, to: Time, cutoff: Time)
    requires t.summaries.Keys == {Daily, Weekly, Monthly} && from <= to
    requires var df := AlignRefreshWindow(Daily, from, to).0;
             CorrectDaily(t.summaries[Daily], records, AddDays(df, -BASELINE_DAYS), df)
    ensures var (df, dt) := AlignRefreshWindow(Daily, from, to);
            multiset(Filter(Refreshed(t, records, from, to, cutoff).anomalies, AnomalyIn(df, dt))) ==
            multiset(Filter(Filter(AllAnomalies(FullSummary(records, Daily)), AnomalyIn(df, dt)), AnomalySince(cutoff)))
  {
    var (df, dt) := AlignRefreshWindow(Daily, from, to);
    RefreshWindowAligned(Daily, from, to);
    var daily := RefreshedTable(t.summaries[Daily], records, Daily, df, dt);
    EachTable(t.summaries, records, from, to, cutoff, Daily);
    BaselineRangeCorrect(t.summaries[Daily], records, df, dt);
    AnomaliesAreLocal(daily, FullSummary(records, Daily), df, dt);
    var kept, found := Filter(t.anomalies, AnomalyOutside(df, dt)), Filter(AllAnomalies(daily), AnomalyIn(df, dt));
    FilterSwap(kept + found, AnomalySince(cutoff), AnomalyIn(df, dt));
    FilterAppend(kept, found, AnomalyIn(df, dt));
    FilterNone(kept, AnomalyIn(df, dt));
    FilterAll(found, AnomalyIn(df, dt));
    assert [] + found == found;
    FilterPermutation(found, Filter(AllAnomalies(FullSummary(records, Daily)), AnomalyIn(df, dt)),
        AnomalySince(cutoff));
  }

  lemma {:induction false} SplitRange(rows: seq<SummaryRow>, a: Time, b: Time, c: Time)
    requires a <= b <= c
    ensures multiset(Filter(rows, RowIn(a, c))) ==
        multiset(Filter(rows, RowIn(a, b))) + multiset(Filter(rows, RowIn(b, c)))
  {
    if rows != [] {
      SplitRange(rows[..|rows| - 1], a, b, c);
    }
  }

  lemma BaselineRangeCorrect(before: seq<SummaryRow>, records: seq<CostRecord>, df: Time, dt: Time)
    requires df <= dt && CorrectDaily(before, records, AddDays(df, -BASELINE_DAYS), df)
    ensures CorrectDaily(RefreshedTable(before, records, Daily, df, dt), records, AddDays(df, -BASELINE_DAYS), dt)
  {
    var bf, full := AddDays(df, -BASELINE_DAYS), FullSummary(records, Daily);
    var daily := RefreshedTable(before, records, Daily, df, dt);
    RefreshedTableIsExact(before, records, Daily, df, dt);
    SplitRange(daily, bf, df, dt);
    SplitRange(full, bf, df, dt);
    var outside := RowOutside(df, dt);
    FilterFilter(daily, outside, RowIn(bf, df));
    FilterFilter(before, outside, RowIn(bf, df));
    FilterCongruent(daily, And(outside, RowIn(bf, df)), RowIn(bf, df));
    FilterCongruent(before, And(outside, RowIn(bf, df)), RowIn(bf, df));
  }
}

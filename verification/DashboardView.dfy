/** The HTTP layer's own precedence filter over summary rows, and the per-provider overview built on it. */
module DashboardView {
  import opened Calendar
  import opened Domain
  import opened Rows
  import opened Summaries
  import opened Precedence

  /** unicode.IsSpace. */
  predicate IsSpace(c: char) {
    var n := c as int;
    9 <= n <= 13 || n == 0x20 || n == 0x85 || n == 0xA0 || n == 0x1680 || 0x2000 <= n <= 0x200A ||
    n == 0x2028 || n == 0x2029 || n == 0x202F || n == 0x205F || n == 0x3000
  }

  function TrimSpace(s: string): string
    decreases |s|
  {
    if s != "" && IsSpace(s[0]) then TrimSpace(s[1..])
    else if s != "" && IsSpace(s[|s| - 1]) then TrimSpace(s[..|s| - 1])
    else s
  }

  /** strings.EqualFold(s, "all"). */
  predicate FoldsToAll(s: string) {
    |s| == 3 && s[0] in "aA" && s[1] in "lL" && s[2] in "lL"
  }

  datatype Dimension =
    Total | ServiceDimension | CategoryDimension | RegionDimension | DrilldownDimension | ScopeDimension

  /** Which of the request's filters are set. */
  datatype Filters = Filters(region: bool, scope: bool)

  function AwsCurPeriods(rows: seq<SummaryRow>): set<Time> {
    set row | row in rows && row.key.dims.provider == AWS && TrimSpace(row.key.dims.recordType) == CUR_LINE_ITEM
      :: row.key.periodStart
  }

  /** The legacy rows without a record type are told apart by their scope id. */
  predicate IsRegionView(d: Dims) {
    var recordType := TrimSpace(d.recordType);
    if recordType == "" then
      var scopeId := if TrimSpace(d.billingScopeId) == "" then TrimSpace(d.compartmentId)
          else TrimSpace(d.billingScopeId);
      FoldsToAll(scopeId)
    else recordType == REGION_SERVICE
  }

  predicate IsCanonicalView(d: Dims) {
    var recordType := TrimSpace(d.recordType);
    if recordType == "" then !IsRegionView(d) else recordType == LINKED_ACCOUNT_SERVICE
  }

  predicate RowMatchesView(row: SummaryRow, dimension: Dimension, filters: Filters, curPeriods: set<Time>) {
    var d := row.key.dims;
    if d.provider != AWS then true
    else
      var recordType := TrimSpace(d.recordType);
      if row.key.periodStart in curPeriods then recordType == CUR_LINE_ITEM
      else if recordType == CUR_LINE_ITEM then true
      else
        match dimension
        case RegionDimension | DrilldownDimension => IsRegionView(d)
        case ServiceDimension | CategoryDimension =>
          if filters.region && !filters.scope then IsRegionView(d) else IsCanonicalView(d)
        case Total | ScopeDimension => IsCanonicalView(d)
  }

  // ---- the Go filter and the SQL predicate ---------------------------------------

  /** The record types of AWS rows carry no surrounding space. */
  ghost predicate TrimmedTypes(rows: seq<SummaryRow>) {
    forall row :: row in rows && row.key.dims.provider == AWS ==>
        TrimSpace(row.key.dims.recordType) == row.key.dims.recordType
  }

  /** What a refreshed table holds: AWS rows carry one of the three AWS record types. */
  ghost predicate AwsTypesKnown(rows: seq<SummaryRow>) {
    forall row :: row in rows && row.key.dims.provider == AWS ==> IsAwsSummaryType(row.key.dims.recordType)
  }

  lemma KnownTypesTrimmed(s: string)
    requires IsAwsSummaryType(s)
    ensures TrimSpace(s) == s
  {}

  lemma CurPeriodsAreHasCur(rows: seq<SummaryRow>, row: SummaryRow)
    requires TrimmedTypes(rows)
    ensures row.key.periodStart in AwsCurPeriods(rows) <==> HasCur(rows, row.key.periodStart)
  {
    if c :| c in rows && IsCurRow(c) && c.key.periodStart == row.key.periodStart {
      assert TrimSpace(c.key.dims.recordType) == CUR_LINE_ITEM;
    }
  }

  /** The one disagreement: a legacy AWS row without a record type, of a single account, on a day without CUR data. */
  predicate LegacyOnly(rows: seq<SummaryRow>, row: SummaryRow) {
    row.key.dims.provider == AWS && row.key.dims.recordType == "" && !IsRegionView(row.key.dims) &&
    !HasCur(rows, row.key.periodStart)
  }

  lemma GoAdmitsIff(rows: seq<SummaryRow>, row: SummaryRow, filters: Filters)
    requires TrimmedTypes(rows) && row in rows
    ensures RowMatchesView(row, Total, filters, AwsCurPeriods(rows)) != Admits(rows)(row) <==> LegacyOnly(rows, row)
  {
    CurPeriodsAreHasCur(rows, row);
    if IsCurRow(row) {
      assert HasCur(rows, row.key.periodStart);
    }
  }

  /** A day of data from before scopes and record types were stored: the HTTP overview counts it, the SQL overview does
      not. */
  lemma LegacyRowsDisagree() returns (rows: seq<SummaryRow>)
    ensures |rows| == 1 && TrimmedTypes(rows)
    ensures RowMatchesView(rows[0], Total, Filters(false, false), AwsCurPeriods(rows)) && !Admits(rows)(rows[0])
  {
    var d := Dims(AWS, "acct", "", "", "", "", "", "", "EC2", "EC2", "us-east-1", "USD");
    var row := SummaryRow(GroupKey(0, d), DAY, 5.0, 0.0, 5.0, 100.0);
    rows := [row];
    GoAdmitsIff(rows, row, Filters(false, false));
  }

  /** Leading and trailing blanks go, and nothing else. */
  lemma {:induction false} TrimSays(s: string) returns (pre: string, post: string)
    ensures s == pre + TrimSpace(s) + post
    ensures forall c :: c in pre + post ==> IsSpace(c)
    ensures TrimSpace(s) != "" ==> !IsSpace(TrimSpace(s)[0]) && !IsSpace(TrimSpace(s)[|TrimSpace(s)| - 1])
    decreases |s|
  {
    pre, post := "", "";
    if s != "" && IsSpace(s[0]) {
      pre, post := TrimSays(s[1..]);
      pre := [s[0]] + pre;
    } else if s != "" && IsSpace(s[|s| - 1]) {
      pre, post := TrimSays(s[..|s| - 1]);
      post := post + [s[|s| - 1]];
    }
  }

  lemma FoldsToAllIff(s: string)
    ensures FoldsToAll(s) <==> s in {"all", "All", "aLl", "alL", "ALl", "AlL", "aLL", "ALL"}
  {
    if FoldsToAll(s) {
      assert s == [s[0], s[1], s[2]];
    }
  }

  /** The dimensions that look at regions: by region, by drilldown, and by service or category within one region of all
      scopes. */
  predicate LooksAtRegions(dimension: Dimension, filters: Filters) {
    || dimension in {RegionDimension, DrilldownDimension}
    || (dimension in {ServiceDimension, CategoryDimension} && filters.region && !filters.scope)
  }

  /** A row from before record types counts as a region row when its scope, or else its compartment, is called "all". */
  ghost predicate IsOfAll(d: Dims) {
    FoldsToAll(if TrimSpace(d.billingScopeId) != "" then TrimSpace(d.billingScopeId) else TrimSpace(d.compartmentId))
  }

  /** What each view shows: every row of other providers, CUR rows, and on AWS days without CUR rows the region rows or
      the linked-account rows, whichever the view looks at. */
  lemma ViewSays(rows: seq<SummaryRow>, row: SummaryRow, dimension: Dimension, filters: Filters)
    requires TrimmedTypes(rows) && row in rows
    ensures RowMatchesView(row, dimension, filters, AwsCurPeriods(rows)) <==>
      var d := row.key.dims;
      || d.provider != AWS || d.recordType == "cur_line_item"
      || (&& (forall c :: c in rows && c.key.dims.provider == AWS && c.key.dims.recordType == "cur_line_item" ==>
                c.key.periodStart != row.key.periodStart)
          && if d.recordType == "" then LooksAtRegions(dimension, filters) <==> IsOfAll(d)
             else if LooksAtRegions(dimension, filters) then d.recordType == "region_service"
             else d.recordType == "linked_account_service")
  {
    CurPeriodsAreHasCur(rows, row);
    if row.key.dims.provider == AWS && row.key.dims.recordType == CUR_LINE_ITEM {
      assert IsCurRow(row);
    }
  }

  /** In every view of a refreshed table, the rows admitted for an AWS period have one record type. */
  lemma OneRecordTypePerPeriod(rows: seq<SummaryRow>, dimension: Dimension, filters: Filters, a: SummaryRow,
                               b: SummaryRow)
    requires AwsTypesKnown(rows) && a in rows && b in rows
    requires a.key.dims.provider == AWS && b.key.dims.provider == AWS && a.key.periodStart == b.key.periodStart
    requires RowMatchesView(a, dimension, filters, AwsCurPeriods(rows))
    requires RowMatchesView(b, dimension, filters, AwsCurPeriods(rows))
    ensures a.key.dims.recordType == b.key.dims.recordType
  {
    KnownTypesTrimmed(a.key.dims.recordType);
    KnownTypesTrimmed(b.key.dims.recordType);
  }

  // ---- per-provider overview -------------------------------------------------------

  function Viewed(rows: seq<SummaryRow>, provider: Provider): SummaryRow -> bool {
    (row: SummaryRow) => row.key.dims.provider == provider &&
                         RowMatchesView(row, Total, Filters(false, false), AwsCurPeriods(rows))
  }

  function ProviderSpend(rows: seq<SummaryRow>, provider: Provider, from: Time, to: Time): real {
    SumBy(Filter(rows, And(RowIn(from, to), Viewed(rows, provider))), TotalOf())
  }

  /** The spend of the first n rows. */
  ghost function SpendTo(rows: seq<SummaryRow>, n: nat, provider: Provider, from: Time, to: Time): real
    requires n <= |rows|
  {
    if n == 0 then 0.0
    else SpendTo(rows, n - 1, provider, from, to) +
         if from <= rows[n - 1].key.periodStart < to && Viewed(rows, provider)(rows[n - 1])
         then rows[n - 1].totalCost else 0.0
  }

  lemma {:induction false} SpendToIsSum(rows: seq<SummaryRow>, n: nat, provider: Provider, from: Time, to: Time)
    requires n <= |rows|
    ensures SpendTo(rows, n, provider, from, to) ==
            SumBy(Filter(rows[..n], And(RowIn(from, to), Viewed(rows, provider))), TotalOf())
  {
    hide Filter, SumBy, RowMatchesView, AwsCurPeriods;
    if n == 0 {
      FilterNone(rows[..n], And(RowIn(from, to), Viewed(rows, provider)));
      SumOfNone(And(RowIn(from, to), Viewed(rows, provider)), TotalOf());
    } else {
      SpendToIsSum(rows, n - 1, provider, from, to);
      assert rows[..n] == rows[..n - 1] + [rows[n - 1]];
      SumFilterSnoc(rows[..n - 1], rows[n - 1], And(RowIn(from, to), Viewed(rows, provider)), TotalOf());
    }
  }

  /** What the rows of one provider in a range cost as far as the overview shows them. */
  ghost function ShownCost(part: seq<SummaryRow>, rows: seq<SummaryRow>, provider: Provider, from: Time,
                           to: Time): real {
    if part == [] then 0.0
    else
      var last := part[|part| - 1];
      ShownCost(part[..|part| - 1], rows, provider, from, to) +
      if last.key.dims.provider == provider && from <= last.key.periodStart < to
          && RowMatchesView(last, Total, Filters(false, false), AwsCurPeriods(rows)) then last.totalCost else 0.0
  }

  lemma {:induction false} ShownIsSpend(part: seq<SummaryRow>, rows: seq<SummaryRow>, provider: Provider, from: Time,
                                        to: Time)
    ensures ShownCost(part, rows, provider, from, to) ==
            SumBy(Filter(part, And(RowIn(from, to), Viewed(rows, provider))), TotalOf())
  {
    hide Filter, SumBy, RowMatchesView, AwsCurPeriods;
    if part == [] {
      SumOfNone(And(RowIn(from, to), Viewed(rows, provider)), TotalOf());
    } else {
      var init, last := part[..|part| - 1], part[|part| - 1];
      assert part == init + [last];
      ShownIsSpend(init, rows, provider, from, to);
      SumFilterSnoc(init, last, And(RowIn(from, to), Viewed(rows, provider)), TotalOf());
    }
  }

  lemma ProviderSpendIs(rows: seq<SummaryRow>, provider: Provider, from: Time, to: Time)
    ensures SpendTo(rows, |rows|, provider, from, to) == ProviderSpend(rows, provider, from, to)
  {
    SpendToIsSum(rows, |rows|, provider, from, to);
    assert rows[..|rows|] == rows;
  }

  /** The rows dashboardOverviewForProvider fetches: both ranges at once. */
  function Fetched(table: seq<SummaryRow>, now: Time): seq<SummaryRow> {
    Filter(table, RowIn(AddDays(now, -60), now))
  }

  method OverviewForProvider(table: seq<SummaryRow>, provider: Provider, now: Time)
    returns (current: real, previous: real)
    ensures var rows := Fetched(table, now);
      && current == ShownCost(rows, rows, provider, now - 30 * DAY, now)
      && previous == ShownCost(rows, rows, provider, now - 60 * DAY, now - 30 * DAY)
    ensures current == ProviderSpend(Fetched(table, now), provider, AddDays(now, -30), now)
    ensures previous == ProviderSpend(Fetched(table, now), provider, AddDays(now, -60), AddDays(now, -30))
  {
    hide ShownCost, RowMatchesView, AwsCurPeriods, Filter, SumBy;
    var currentFrom := AddDays(now, -30);
    var previousFrom := AddDays(currentFrom, -30);
    var rows := Fetched(table, now);
    current, previous := 0.0, 0.0;
    var curPeriods := AwsCurPeriods(rows);
    for i := 0 to |rows|
      invariant current == SpendTo(rows, i, provider, currentFrom, now)
      invariant previous == SpendTo(rows, i, provider, previousFrom, currentFrom)
    {
      var row := rows[i];
      if row.key.dims.provider == provider && RowMatchesView(row, Total, Filters(false, false), curPeriods) {
        if currentFrom <= row.key.periodStart < now {
          current := current + row.totalCost;
        } else if previousFrom <= row.key.periodStart < currentFrom {
          previous := previous + row.totalCost;
        }
      }
    }
    ShownIsSpend(rows, rows, provider, currentFrom, now);
    ShownIsSpend(rows, rows, provider, previousFrom, currentFrom);
    ProviderSpendIs(rows, provider, currentFrom, now);
    ProviderSpendIs(rows, provider, previousFrom, currentFrom);
  }

  function SpendOverProviders(rows: seq<SummaryRow>, providers: seq<Provider>, from: Time, to: Time): real {
    if providers == [] then 0.0
    else
      SpendOverProviders(rows, providers[..|providers| - 1], from, to) +
      ProviderSpend(rows, providers[|providers| - 1], from, to)
  }

  function AmongProviders(providers: seq<Provider>): SummaryRow -> bool {
    (row: SummaryRow) => row.key.dims.provider in providers
  }

  lemma {:induction false} SplitSum(rows: seq<SummaryRow>, p: SummaryRow -> bool, q: SummaryRow -> bool,
                                    both: SummaryRow -> bool)
    requires forall row :: row in rows ==> !(p(row) && q(row)) && both(row) == (p(row) || q(row))
    ensures SumBy(Filter(rows, both), TotalOf()) ==
        SumBy(Filter(rows, p), TotalOf()) + SumBy(Filter(rows, q), TotalOf())
  {
    if rows != [] {
      var init, last := rows[..|rows| - 1], rows[|rows| - 1];
      SplitSum(init, p, q, both);
      SumSnoc(Filter(init, p), last, TotalOf());
      SumSnoc(Filter(init, q), last, TotalOf());
      SumSnoc(Filter(init, both), last, TotalOf());
    }
  }

  /** The rows the HTTP overview counts, whatever their provider. */
  function Counted(rows: seq<SummaryRow>): SummaryRow -> bool {
    (row: SummaryRow) => RowMatchesView(row, Total, Filters(false, false), AwsCurPeriods(rows))
  }

  /** Sum over distinct providers of the per-provider spend is the spend of the rows of those providers. */
  lemma {:induction false} ProvidersPartition(rows: seq<SummaryRow>, providers: seq<Provider>, from: Time, to: Time)
    requires forall i, j :: 0 <= i < j < |providers| ==> providers[i] != providers[j]
    ensures SpendOverProviders(rows, providers, from, to) ==
            SumBy(Filter(rows, And(And(RowIn(from, to), Counted(rows)), AmongProviders(providers))), TotalOf())
  {
    hide SumBy, RowMatchesView, AwsCurPeriods;
    var counted := And(RowIn(from, to), Counted(rows));
    if providers == [] {
      FilterNone(rows, And(counted, AmongProviders(providers)));
      SumOfNone(And(counted, AmongProviders(providers)), TotalOf());
    } else {
      var init, last := providers[..|providers| - 1], providers[|providers| - 1];
      ProvidersPartition(rows, init, from, to);
      forall row
          ensures AmongProviders(providers)(row) <==> AmongProviders(init)(row) || row.key.dims.provider == last {
        assert providers == init + [last];
      }
      hide Filter;
      SplitSum(rows, And(counted, AmongProviders(init)), And(RowIn(from, to), Viewed(rows, last)),
               And(counted, AmongProviders(providers)));
    }
  }

  function Legacy(rows: seq<SummaryRow>): SummaryRow -> bool { (row: SummaryRow) => LegacyOnly(rows, row) }

  /** What the legacy rows of a range cost. */
  function LegacySpend(rows: seq<SummaryRow>, from: Time, to: Time): real {
    SumBy(Filter(rows, And(RowIn(from, to), Legacy(rows))), TotalOf())
  }

  /** The per-provider 30-day spends of the HTTP layer exceed the SQL overview by exactly the cost of the legacy
      rows. */
  lemma ProviderSpendsAddUp(table: seq<SummaryRow>, providers: seq<Provider>, now: Time)
    requires TrimmedTypes(table) && forall row :: row in Fetched(table, now) ==> row.key.dims.provider in providers
    requires forall i, j :: 0 <= i < j < |providers| ==> providers[i] != providers[j]
    ensures var rows := Fetched(table, now);
            && SpendOverProviders(rows, providers, AddDays(now, -30), now) ==
               OverviewSpend(table, AddDays(now, -30), now) + LegacySpend(rows, AddDays(now, -30), now)
            && SpendOverProviders(rows, providers, AddDays(now, -60), AddDays(now, -30)) ==
               OverviewSpend(table, AddDays(now, -60), AddDays(now, -30)) +
                   LegacySpend(rows, AddDays(now, -60), AddDays(now, -30))
  {
    SpendInRange(table, providers, now, AddDays(now, -30), now);
    SpendInRange(table, providers, now, AddDays(now, -60), AddDays(now, -30));
  }

  lemma FetchedHasCur(table: seq<SummaryRow>, now: Time, p: Time)
    requires AddDays(now, -60) <= p < now
    ensures HasCur(Fetched(table, now), p) <==> HasCur(table, p)
  {
    if c :| c in table && IsCurRow(c) && c.key.periodStart == p {
      assert RowIn(AddDays(now, -60), now)(c);
    }
  }

  /** A fetched row is counted by the HTTP overview if the SQL overview counts it or if it is a legacy row, and not for
      both reasons. */
  lemma CountedSplits(table: seq<SummaryRow>, now: Time, row: SummaryRow)
    requires TrimmedTypes(table) && row in Fetched(table, now)
    ensures var rows := Fetched(table, now);
            && Counted(rows)(row) == (Admits(table)(row) || Legacy(rows)(row))
            && !(Admits(table)(row) && Legacy(rows)(row))
  {
    hide RowMatchesView, HasCur, IsRegionView;
    var rows := Fetched(table, now);
    GoAdmitsIff(rows, row, Filters(false, false));
    FetchedHasCur(table, now, row.key.periodStart);
  }

  lemma SpendInRange(table: seq<SummaryRow>, providers: seq<Provider>, now: Time, from: Time, to: Time)
    requires AddDays(now, -60) <= from && to <= now && TrimmedTypes(table)
    requires forall i, j :: 0 <= i < j < |providers| ==> providers[i] != providers[j]
    requires forall row :: row in Fetched(table, now) ==> row.key.dims.provider in providers
    ensures SpendOverProviders(Fetched(table, now), providers, from, to) ==
            OverviewSpend(table, from, to) + LegacySpend(Fetched(table, now), from, to)
  {
    hide TrimmedTypes, HasCur, RowMatchesView, LegacyOnly;
    var fetched := RowIn(AddDays(now, -60), now);
    var rows, here, admitted := Fetched(table, now), RowIn(from, to), And(RowIn(from, to), Admits(table));
    ProvidersPartition(rows, providers, from, to);
    FilterCongruent(rows, And(And(here, Counted(rows)), AmongProviders(providers)), And(here, Counted(rows)));
    forall row | row in rows
      ensures Counted(rows)(row) == (Admits(table)(row) || Legacy(rows)(row))
          && !(Admits(table)(row) && Legacy(rows)(row))
    {
      CountedSplits(table, now, row);
    }
    SplitSum(rows, admitted, And(here, Legacy(rows)), And(here, Counted(rows)));
    FilterFilter(table, fetched, admitted);
    FilterCongruent(table, And(fetched, admitted), admitted);
  }
}

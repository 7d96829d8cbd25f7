/** Precomputed cost summaries: the delete-and-rebuild of one window of a summary table,
    proved equal to the same window of a full aggregation of the records. */
module Summaries {
  import opened Calendar
  import opened Domain
  import opened Rows

  const TAG_COMPARTMENT_ID := "oci_compartment_id"
  const TAG_COMPARTMENT_NAME := "oci_compartment_name"

  /** The twelve grouping columns beside period_start. */
  datatype Dims = Dims(
    provider: Provider, accountId: string,
    billingScopeType: string, billingScopeId: string, billingScopeName: string,
    compartmentId: string, compartmentName: string,
    recordType: string, service: string, category: string, region: string, currency: string)

  datatype GroupKey = GroupKey(periodStart: Time, dims: Dims)

  datatype SummaryRow = SummaryRow(
    key: GroupKey, periodEnd: Time, totalCost: real, previousPeriodCost: real,
    absoluteChange: real, percentageChange: real)

  /** The declared primary key of the summary tables. It leaves billing_scope_type out. */
  datatype PrimaryKey = PrimaryKey(
    periodStart: Time, provider: Provider, accountId: string, compartmentId: string, compartmentName: string,
    recordType: string, service: string, category: string, region: string, currency: string)

  function PrimaryKeyOf(k: GroupKey): PrimaryKey {
    var d := k.dims;
    PrimaryKey(k.periodStart, d.provider, d.accountId, d.compartmentId, d.compartmentName,
               d.recordType, d.service, d.category, d.region, d.currency)
  }

  // ---- the SELECT expressions -------------------------------------------------

  function TagOr(r: CostRecord, tag: string, fallback: string): string {
    if tag in r.charge.tags then r.charge.tags[tag] else fallback
  }

  function ScopeType(r: CostRecord): string {
    if r.charge.billingScopeType != "" then r.charge.billingScopeType
    else if r.provider == OCI then "compartment" else ""
  }

  function ScopeId(r: CostRecord): string {
    if r.charge.billingScopeId != "" then r.charge.billingScopeId else TagOr(r, TAG_COMPARTMENT_ID, "")
  }

  function ScopeName(r: CostRecord): string {
    if r.charge.billingScopeName != "" then r.charge.billingScopeName
    else if TagOr(r, TAG_COMPARTMENT_NAME, "") != "" then r.charge.tags[TAG_COMPARTMENT_NAME]
    else TagOr(r, TAG_COMPARTMENT_ID, "")
  }

  function DimsOf(r: CostRecord): Dims {
    Dims(r.provider, r.charge.accountId, ScopeType(r), ScopeId(r), ScopeName(r), ScopeId(r), ScopeName(r),
         r.recordType, r.charge.service, r.charge.category, r.charge.region, r.charge.currency)
  }

  function KeyAt(w: Window, r: CostRecord): GroupKey { GroupKey(TimeBucket(w, r.timestamp), DimsOf(r)) }

  function KeyOf(w: Window): CostRecord -> GroupKey { (r: CostRecord) => KeyAt(w, r) }

  /** The key of the previous_period query: the bucket moved on by one interval. */
  function ShiftedKeyOf(w: Window): CostRecord -> GroupKey {
    (r: CostRecord) => GroupKey(AddInterval(w, TimeBucket(w, r.timestamp), 1), DimsOf(r))
  }

  function CostOf(): CostRecord -> real { (r: CostRecord) => r.charge.cost }

  predicate IsEligible(r: CostRecord) { r.provider != AWS || IsAwsSummaryType(r.recordType) }

  function Eligible(): CostRecord -> bool { (r: CostRecord) => IsEligible(r) }

  function Timestamped(from: Time, to: Time): CostRecord -> bool { (r: CostRecord) => from <= r.timestamp < to }

  function Starting(from: Time, to: Time): GroupKey -> bool { (k: GroupKey) => from <= k.periodStart < to }

  function RowIn(from: Time, to: Time): SummaryRow -> bool { (row: SummaryRow) => from <= row.key.periodStart < to }

  function RowOutside(from: Time, to: Time): SummaryRow -> bool {
    (row: SummaryRow) => !(from <= row.key.periodStart < to)
  }

  // ---- the query --------------------------------------------------------------

  function CurrentPeriod(records: seq<CostRecord>, w: Window, from: Time, to: Time): seq<Group<GroupKey>> {
    GroupBy(Filter(records, And(Eligible(), Timestamped(from, to))), KeyOf(w), CostOf())
  }

  function PreviousPeriod(records: seq<CostRecord>, w: Window, from: Time, to: Time): seq<Group<GroupKey>> {
    GroupBy(Filter(records, And(Eligible(), Timestamped(from, to))), ShiftedKeyOf(w), CostOf())
  }

  function MakeRow(w: Window, c: Group<GroupKey>, previous: real): SummaryRow {
    SummaryRow(c.key, AddInterval(w, c.key.periodStart, 1), c.total, previous, c.total - previous,
               if previous > 0.0 then (c.total - previous) / previous * 100.0
               else if c.total > 0.0 then 100.0 else 0.0)
  }

  function MatchedRows(w: Window, c: Group<GroupKey>, matches: seq<Group<GroupKey>>): seq<SummaryRow> {
    if matches == [] then []
    else MatchedRows(w, c, matches[..|matches| - 1]) + [MakeRow(w, c, matches[|matches| - 1].total)]
  }

  function SameKey(k: GroupKey): GroupKey -> bool { (q: GroupKey) => q == k }

  /** The rows a left row joins to: one for every match, and one with previous 0 when there is none. */
  function RowsFor(w: Window, c: Group<GroupKey>, ps: seq<Group<GroupKey>>): seq<SummaryRow> {
    var matches := Filter(ps, OnKey(SameKey(c.key)));
    if matches == [] then [MakeRow(w, c, 0.0)] else MatchedRows(w, c, matches)
  }

  /** LEFT JOIN on all thirteen columns. */
  function LeftJoin(w: Window, cs: seq<Group<GroupKey>>, ps: seq<Group<GroupKey>>): seq<SummaryRow> {
    if cs == [] then [] else LeftJoin(w, cs[..|cs| - 1], ps) + RowsFor(w, cs[|cs| - 1], ps)
  }

  function WindowRows(records: seq<CostRecord>, w: Window, from: Time, to: Time, pf: Time, pt: Time): seq<SummaryRow> {
    LeftJoin(w, CurrentPeriod(records, w, from, to), PreviousPeriod(records, w, pf, pt))
  }

  // ---- the reference: aggregation of all records --------------------------------

  function Total(records: seq<CostRecord>, w: Window, k: GroupKey): real {
    TotalFor(Filter(records, Eligible()), KeyOf(w), CostOf(), k)
  }

  function PreviousTotal(records: seq<CostRecord>, w: Window, k: GroupKey): real {
    Total(records, w, k.(periodStart := AddInterval(w, k.periodStart, -1)))
  }

  function AllGroups(records: seq<CostRecord>, w: Window): seq<Group<GroupKey>> {
    GroupBy(Filter(records, Eligible()), KeyOf(w), CostOf())
  }

  function FullSummary(records: seq<CostRecord>, w: Window): seq<SummaryRow> {
    LeftJoin(w, AllGroups(records, w), GroupBy(Filter(records, Eligible()), ShiftedKeyOf(w), CostOf()))
  }

  /** The groups of full history are the totals of a plain scan; one row per key, with the scan's totals. */
  lemma FullSummaryIsAggregation(records: seq<CostRecord>, w: Window)
    ensures |FullSummary(records, w)| == |AllGroups(records, w)|
    ensures DistinctKeys(AllGroups(records, w))
    ensures Keys(AllGroups(records, w)) == KeysOf(Filter(records, Eligible()), KeyOf(w))
    ensures forall i :: 0 <= i < |AllGroups(records, w)| ==>
              var k := AllGroups(records, w)[i].key;
              FullSummary(records, w)[i] == MakeRow(w, Group(k, Total(records, w, k)), PreviousTotal(records, w, k))
  {
    var es := Filter(records, Eligible());
    var cs, ps := AllGroups(records, w), GroupBy(es, ShiftedKeyOf(w), CostOf());
    GroupByKeys(es, KeyOf(w), CostOf());
    GroupByKeys(es, ShiftedKeyOf(w), CostOf());
    GroupByTotals(es, KeyOf(w), CostOf());
    JoinMatchesOnce(w, cs, ps);
    forall i | 0 <= i < |cs|
      ensures FullSummary(records, w)[i] ==
              MakeRow(w, Group(cs[i].key, Total(records, w, cs[i].key)), PreviousTotal(records, w, cs[i].key))
    {
      assert cs[i] in cs && cs[i].key in Keys(cs);
      var r :| r in es && KeyOf(w)(r) == cs[i].key;
      LookupIsPreviousTotal(records, w, cs[i].key, BucketIndex(w, r.timestamp));
    }
  }

  /** What the join finds for a key: its total, or 0 for the COALESCE of a missing row. */
  function Lookup(ps: seq<Group<GroupKey>>, k: GroupKey): real {
    SumBy(Filter(ps, OnKey(SameKey(k))), GroupTotal())
  }

  lemma RowsForOnce(w: Window, c: Group<GroupKey>, ps: seq<Group<GroupKey>>)
    requires DistinctKeys(ps)
    ensures RowsFor(w, c, ps) == [MakeRow(w, c, Lookup(ps, c.key))]
  {
    var matches := Filter(ps, OnKey(SameKey(c.key)));
    if matches != [] {
      var m := matches[0];
      OnlyGroup(ps, m, SameKey(c.key));
      assert matches == [m] && [m][..0] == [];
      assert SumBy([m], GroupTotal()) == SumBy([m][..0], GroupTotal()) + m.total;
      assert MatchedRows(w, c, [m]) == MatchedRows(w, c, [m][..0]) + [MakeRow(w, c, m.total)];
    }
  }

  lemma JoinSnoc(w: Window, cs: seq<Group<GroupKey>>, c: Group<GroupKey>, ps: seq<Group<GroupKey>>)
    ensures LeftJoin(w, cs + [c], ps) == LeftJoin(w, cs, ps) + RowsFor(w, c, ps)
  {
    assert (cs + [c])[..|cs|] == cs;
  }

  /** On keys that are unique the join neither repeats nor drops a row. */
  lemma {:induction false} JoinMatchesOnce(w: Window, cs: seq<Group<GroupKey>>, ps: seq<Group<GroupKey>>)
    requires DistinctKeys(ps)
    ensures |LeftJoin(w, cs, ps)| == |cs|
    ensures forall i :: 0 <= i < |cs| ==> LeftJoin(w, cs, ps)[i] == MakeRow(w, cs[i], Lookup(ps, cs[i].key))
  {
    if cs != [] {
      var init, c := cs[..|cs| - 1], cs[|cs| - 1];
      assert cs == init + [c];
      JoinMatchesOnce(w, init, ps);
      RowsForOnce(w, c, ps);
      JoinSnoc(w, init, c, ps);
      assert forall i :: 0 <= i < |init| ==> LeftJoin(w, cs, ps)[i] == LeftJoin(w, init, ps)[i];
    }
  }

  lemma ShiftMovesOneBucket(w: Window, r: CostRecord, k: GroupKey, i: int)
    requires k.periodStart == BucketAt(w, i)
    ensures ShiftedKeyOf(w)(r) == k <==> KeyOf(w)(r) == k.(periodStart := AddInterval(w, k.periodStart, -1))
  {
    var j := BucketIndex(w, r.timestamp);
    AddIntervalToBucket(w, j, 1);
    AddIntervalToBucket(w, i, -1);
    BucketsOrdered(w, j + 1, i);
    BucketsOrdered(w, i, j + 1);
    BucketsOrdered(w, j, i - 1);
    BucketsOrdered(w, i - 1, j);
  }

  lemma LookupIsPreviousTotal(records: seq<CostRecord>, w: Window, k: GroupKey, i: int)
    requires k.periodStart == BucketAt(w, i)
    ensures Lookup(GroupBy(Filter(records, Eligible()), ShiftedKeyOf(w), CostOf()), k) == PreviousTotal(records, w, k)
  {
    var es := Filter(records, Eligible());
    var before := k.(periodStart := AddInterval(w, k.periodStart, -1));
    var shifted := Compose(ShiftedKeyOf(w), SameKey(k));
    FilterGroupBy(es, ShiftedKeyOf(w), CostOf(), SameKey(k));
    SumGroupBy(Filter(es, shifted), ShiftedKeyOf(w), CostOf());
    FilterCongruent(es, shifted, HasKey(KeyOf(w), before)) by {
      forall r | r in es ensures shifted(r) == HasKey(KeyOf(w), before)(r) {
        ShiftMovesOneBucket(w, r, k, i);
      }
    }
  }

  // ---- incremental equals full --------------------------------------------------

  /** Rebuilding an aligned window computes exactly that window of the full aggregation. */
  lemma WindowRowsAreFullRows(records: seq<CostRecord>, w: Window, from: Time, to: Time)
    requires Aligned(w, from) && Aligned(w, to)
    ensures var (pf, pt) := PreviousSummaryWindow(w, from, to);
            WindowRows(records, w, from, to, pf, pt) == Filter(FullSummary(records, w), RowIn(from, to))
  {
    var (pf, pt) := PreviousSummaryWindow(w, from, to);
    var es := Filter(records, Eligible());
    SelectByBucket(records, KeyOf(w), from, to, from, to) by {
      forall r | r in es ensures Timestamped(from, to)(r) == Compose(KeyOf(w), Starting(from, to))(r) {
        NoBucketSplit(w, from, to, r.timestamp);
      }
    }
    SelectByBucket(records, ShiftedKeyOf(w), pf, pt, from, to) by {
      forall r | r in es ensures Timestamped(pf, pt)(r) == Compose(ShiftedKeyOf(w), Starting(from, to))(r) {
        PreviousWindowShifts(w, from, to, r.timestamp);
      }
    }
    FilterJoin(w, AllGroups(records, w), GroupBy(es, ShiftedKeyOf(w), CostOf()), from, to);
  }

  lemma SelectByBucket(records: seq<CostRecord>, key: CostRecord -> GroupKey, from: Time, to: Time, f: Time, t: Time)
    requires forall r :: r in Filter(records, Eligible()) ==>
               Timestamped(from, to)(r) == Compose(key, Starting(f, t))(r)
    ensures GroupBy(Filter(records, And(Eligible(), Timestamped(from, to))), key, CostOf()) ==
            Filter(GroupBy(Filter(records, Eligible()), key, CostOf()), OnKey(Starting(f, t)))
  {
    var es := Filter(records, Eligible());
    FilterFilter(records, Eligible(), Timestamped(from, to));
    FilterCongruent(es, Timestamped(from, to), Compose(key, Starting(f, t)));
    FilterGroupBy(es, key, CostOf(), Starting(f, t));
  }

  lemma {:induction false} FilterJoin(w: Window, cs: seq<Group<GroupKey>>, ps: seq<Group<GroupKey>>, from: Time,
      to: Time)
    ensures Filter(LeftJoin(w, cs, ps), RowIn(from, to)) ==
            LeftJoin(w, Filter(cs, OnKey(Starting(from, to))), Filter(ps, OnKey(Starting(from, to))))
  {
    if cs != [] {
      var init, c := cs[..|cs| - 1], cs[|cs| - 1];
      var on := OnKey(Starting(from, to));
      FilterJoin(w, init, ps, from, to);
      FilterAppend(LeftJoin(w, init, ps), RowsFor(w, c, ps), RowIn(from, to));
      FilterRowsFor(w, c, ps, from, to);
      JoinSnoc(w, Filter(init, on), c, Filter(ps, on));
    }
  }

  lemma FilterRowsFor(w: Window, c: Group<GroupKey>, ps: seq<Group<GroupKey>>, from: Time, to: Time)
    ensures Filter(RowsFor(w, c, ps), RowIn(from, to)) ==
            if from <= c.key.periodStart < to then RowsFor(w, c, Filter(ps, OnKey(Starting(from, to)))) else []
  {
    var on, same := OnKey(Starting(from, to)), OnKey(SameKey(c.key));
    var rows := RowsFor(w, c, ps);
    MatchedRowsKeepKey(w, c, Filter(ps, same));
    if from <= c.key.periodStart < to {
      FilterAll(rows, RowIn(from, to));
      FilterFilter(ps, on, same);
      FilterCongruent(ps, And(on, same), same);
    } else {
      FilterNone(rows, RowIn(from, to));
    }
  }

  lemma {:induction false} MatchedRowsKeepKey(w: Window, c: Group<GroupKey>, matches: seq<Group<GroupKey>>)
    ensures forall row :: row in MatchedRows(w, c, matches) ==> row.key == c.key
  {
    if matches != [] {
      MatchedRowsKeepKey(w, c, matches[..|matches| - 1]);
    }
  }

  // ---- the table after a refresh ------------------------------------------------

  function RefreshedTable(table: seq<SummaryRow>, records: seq<CostRecord>, w: Window, from: Time,
                          to: Time): seq<SummaryRow> {
    Filter(table, RowOutside(from, to)) + Filter(FullSummary(records, w), RowIn(from, to))
  }

  /** Inside the window the table is the full aggregation, outside it is as before. */
  lemma RefreshedTableIsExact(table: seq<SummaryRow>, records: seq<CostRecord>, w: Window, from: Time, to: Time)
    ensures var rebuilt := RefreshedTable(table, records, w, from, to);
            && Filter(rebuilt, RowIn(from, to)) == Filter(FullSummary(records, w), RowIn(from, to))
            && Filter(rebuilt, RowOutside(from, to)) == Filter(table, RowOutside(from, to))
  {
    var kept, built := Filter(table, RowOutside(from, to)), Filter(FullSummary(records, w), RowIn(from, to));
    FilterAppend(kept, built, RowIn(from, to));
    FilterAppend(kept, built, RowOutside(from, to));
    FilterNone(kept, RowIn(from, to));
    FilterAll(kept, RowOutside(from, to));
    FilterNone(built, RowOutside(from, to));
    FilterAll(built, RowIn(from, to));
  }

  /** The summary row that a plain scan of the records gives for a key. */
  function ScanRow(records: seq<CostRecord>, w: Window, k: GroupKey): SummaryRow {
    MakeRow(w, Group(k, Total(records, w, k)), PreviousTotal(records, w, k))
  }

  ghost predicate Occurs(records: seq<CostRecord>, w: Window, k: GroupKey) {
    exists r :: r in records && IsEligible(r) && KeyAt(w, r) == k
  }

  lemma FullSummaryRows(records: seq<CostRecord>, w: Window)
    ensures forall row :: row in FullSummary(records, w) ==>
      row == ScanRow(records, w, row.key) && Occurs(records, w, row.key)
  {
    hide FullSummary, AllGroups, Total, PreviousTotal;
    FullSummaryIsAggregation(records, w);
    var full, gs := FullSummary(records, w), AllGroups(records, w);
    forall row | row in full ensures row == ScanRow(records, w, row.key) && Occurs(records, w, row.key) {
      var i :| 0 <= i < |full| && full[i] == row;
      assert gs[i].key in Keys(gs);
      KeysOccur(records, w, row.key);
    }
  }

  lemma KeysOccur(records: seq<CostRecord>, w: Window, k: GroupKey)
    ensures k in KeysOf(Filter(records, Eligible()), KeyOf(w)) <==> Occurs(records, w, k)
  {
    var es := Filter(records, Eligible());
    if r :| r in records && IsEligible(r) && KeyAt(w, r) == k {
      assert Eligible()(r) && KeyOf(w)(r) == k;
    }
    if k in KeysOf(es, KeyOf(w)) {
      var r :| r in es && KeyOf(w)(r) == k;
    }
  }

  lemma FullSummaryCovers(records: seq<CostRecord>, w: Window, k: GroupKey)
    requires Occurs(records, w, k)
    ensures ScanRow(records, w, k) in FullSummary(records, w)
  {
    hide FullSummary, AllGroups, Total, PreviousTotal;
    FullSummaryIsAggregation(records, w);
    var full, gs := FullSummary(records, w), AllGroups(records, w);
    KeysOccur(records, w, k);
    assert k in Keys(gs);
    var g :| g in gs && g.key == k;
    var i :| 0 <= i < |gs| && gs[i] == g;
    assert full[i] in full;
  }

  lemma FullSummaryUnique(records: seq<CostRecord>, w: Window)
    ensures UniqueKeys(FullSummary(records, w))
  {
    FullSummaryIsAggregation(records, w);
  }

  ghost predicate UniqueKeys(rows: seq<SummaryRow>) {
    forall i, j :: 0 <= i < j < |rows| ==> rows[i].key != rows[j].key
  }

  lemma {:induction false} FilterUniqueKeys(rows: seq<SummaryRow>, p: SummaryRow -> bool)
    requires UniqueKeys(rows)
    ensures UniqueKeys(Filter(rows, p))
  {
    if rows != [] {
      var init, last := rows[..|rows| - 1], rows[|rows| - 1];
      FilterUniqueKeys(init, p);
      forall row | row in Filter(init, p) ensures row.key != last.key {
        var i :| 0 <= i < |init| && init[i] == row;
        assert rows[i] == row;
      }
    }
  }

  // ---- the primary key ------------------------------------------------------------

  predicate UniquePrimaryKeys(table: seq<SummaryRow>) {
    forall i, j :: 0 <= i < j < |table| ==> PrimaryKeyOf(table[i].key) != PrimaryKeyOf(table[j].key)
  }

  /** Two records that fall into one primary key but into different groups. */
  ghost predicate Conflict(w: Window, a: CostRecord, b: CostRecord) {
    PrimaryKeyOf(KeyAt(w, a)) == PrimaryKeyOf(KeyAt(w, b)) && ScopeType(a) != ScopeType(b)
  }

  ghost predicate InScope(records: seq<CostRecord>, from: Time, to: Time, r: CostRecord) {
    r in records && IsEligible(r) && from <= r.timestamp < to
  }

  ghost predicate ScopeTypesAgree(records: seq<CostRecord>, w: Window, from: Time, to: Time) {
    forall a, b :: InScope(records, from, to, a) && InScope(records, from, to, b) ==> !Conflict(w, a, b)
  }

  lemma SamePrimaryKey(w: Window, a: CostRecord, b: CostRecord)
    ensures PrimaryKeyOf(KeyAt(w, a)) == PrimaryKeyOf(KeyAt(w, b)) && ScopeType(a) == ScopeType(b) <==>
      KeyAt(w, a) == KeyAt(w, b)
  {}

  /** The rebuilt table meets the primary key exactly when no two records of the window
      agree on every key column and differ in billing scope type. */
  lemma RefreshAcceptedIff(table: seq<SummaryRow>, records: seq<CostRecord>, w: Window, from: Time, to: Time)
    requires Aligned(w, from) && Aligned(w, to) && UniquePrimaryKeys(table)
    ensures UniquePrimaryKeys(RefreshedTable(table, records, w, from, to)) <==> ScopeTypesAgree(records, w, from, to)
  {
    var kept, built := Filter(table, RowOutside(from, to)), Filter(FullSummary(records, w), RowIn(from, to));
    UniqueAfterFilter(table, RowOutside(from, to));
    UniqueConcat(kept, built, from, to);
    BuiltUniqueIff(records, w, from, to);
  }

  /** Scope types as the writers give them agree. */
  lemma WrittenScopeTypesAgree(records: seq<CostRecord>, w: Window, from: Time, to: Time)
    requires forall r :: r in records ==> ScopeAsWritten(r)
    ensures ScopeTypesAgree(records, w, from, to)
  {
    hide TimeBucket;
    forall a, b | InScope(records, from, to, a) && InScope(records, from, to, b) ensures !Conflict(w, a, b) {
      assert ScopeAsWritten(a) && ScopeAsWritten(b);
    }
  }

  /** So on records that the collectors wrote, the rebuilt table always meets the primary key. */
  lemma CollectedRefreshAccepted(table: seq<SummaryRow>, records: seq<CostRecord>, w: Window, from: Time, to: Time)
    requires Aligned(w, from) && Aligned(w, to) && UniquePrimaryKeys(table)
    requires forall r :: r in records ==> ScopeAsWritten(r)
    ensures UniquePrimaryKeys(RefreshedTable(table, records, w, from, to))
  {
    WrittenScopeTypesAgree(records, w, from, to);
    RefreshAcceptedIff(table, records, w, from, to);
  }

  lemma UniqueConcat(kept: seq<SummaryRow>, built: seq<SummaryRow>, from: Time, to: Time)
    requires UniquePrimaryKeys(kept)
    requires forall row :: row in kept ==> !(from <= row.key.periodStart < to)
    requires forall row :: row in built ==> from <= row.key.periodStart < to
    ensures UniquePrimaryKeys(kept + built) <==> UniquePrimaryKeys(built)
  {
    if UniquePrimaryKeys(kept + built) {
      forall i, j | 0 <= i < j < |built| ensures PrimaryKeyOf(built[i].key) != PrimaryKeyOf(built[j].key) {
        assert built[i] == (kept + built)[|kept| + i] && built[j] == (kept + built)[|kept| + j];
      }
    }
    forall i, j | 0 <= i < |kept| && 0 <= j < |built| ensures PrimaryKeyOf(kept[i].key) != PrimaryKeyOf(built[j].key) {
      assert kept[i] in kept && built[j] in built;
    }
  }

  lemma {:induction false} UniqueAfterFilter(table: seq<SummaryRow>, p: SummaryRow -> bool)
    requires UniquePrimaryKeys(table)
    ensures UniquePrimaryKeys(Filter(table, p))
  {
    if table != [] {
      var init, last := table[..|table| - 1], table[|table| - 1];
      UniqueAfterFilter(init, p);
      forall row | row in Filter(init, p) ensures PrimaryKeyOf(row.key) != PrimaryKeyOf(last.key) {
        var i :| 0 <= i < |init| && init[i] == row;
        assert table[i] == row;
      }
    }
  }

  lemma BuiltUniqueIff(records: seq<CostRecord>, w: Window, from: Time, to: Time)
    requires Aligned(w, from) && Aligned(w, to)
    ensures UniquePrimaryKeys(Filter(FullSummary(records, w), RowIn(from, to))) <==>
      ScopeTypesAgree(records, w, from, to)
  {
    if UniquePrimaryKeys(Filter(FullSummary(records, w), RowIn(from, to))) {
      UniqueMeansAgree(records, w, from, to);
    }
    if ScopeTypesAgree(records, w, from, to) {
      AgreeMeansUnique(records, w, from, to);
    }
  }

  lemma UniqueMeansAgree(records: seq<CostRecord>, w: Window, from: Time, to: Time)
    requires Aligned(w, from) && Aligned(w, to)
    requires UniquePrimaryKeys(Filter(FullSummary(records, w), RowIn(from, to)))
    ensures ScopeTypesAgree(records, w, from, to)
  {
    forall a, b | InScope(records, from, to, a) && InScope(records, from, to, b) ensures !Conflict(w, a, b) {
      NoConflictWhenUnique(records, w, from, to, a, b);
    }
  }

  lemma NoConflictWhenUnique(records: seq<CostRecord>, w: Window, from: Time, to: Time, a: CostRecord, b: CostRecord)
    requires Aligned(w, from) && Aligned(w, to)
    requires UniquePrimaryKeys(Filter(FullSummary(records, w), RowIn(from, to)))
    requires InScope(records, from, to, a) && InScope(records, from, to, b)
    ensures !Conflict(w, a, b)
  {
    hide FullSummary, Filter, TimeBucket, DimsOf;
    var i := RowOf(records, w, from, to, a);
    var j := RowOf(records, w, from, to, b);
    SamePrimaryKey(w, a, b);
  }

  lemma AgreeMeansUnique(records: seq<CostRecord>, w: Window, from: Time, to: Time)
    requires Aligned(w, from) && Aligned(w, to)
    requires ScopeTypesAgree(records, w, from, to)
    ensures UniquePrimaryKeys(Filter(FullSummary(records, w), RowIn(from, to)))
  {
    var built := Filter(FullSummary(records, w), RowIn(from, to));
    FullSummaryUnique(records, w);
    FilterUniqueKeys(FullSummary(records, w), RowIn(from, to));
    forall i, j | 0 <= i < j < |built| ensures PrimaryKeyOf(built[i].key) != PrimaryKeyOf(built[j].key) {
      DifferentRowsDifferInKey(records, w, from, to, built[i], built[j]);
    }
  }

  lemma DifferentRowsDifferInKey(records: seq<CostRecord>, w: Window, from: Time, to: Time, x: SummaryRow,
                                 y: SummaryRow)
    requires Aligned(w, from) && Aligned(w, to)
    requires ScopeTypesAgree(records, w, from, to)
    requires x in Filter(FullSummary(records, w), RowIn(from, to))
        && y in Filter(FullSummary(records, w), RowIn(from, to))
    requires x.key != y.key
    ensures PrimaryKeyOf(x.key) != PrimaryKeyOf(y.key)
  {
    hide FullSummary, Filter, TimeBucket, DimsOf;
    var a := RecordOf(records, w, from, to, x);
    var b := RecordOf(records, w, from, to, y);
    assert !Conflict(w, a, b);
    SamePrimaryKey(w, a, b);
  }

  /** The row that an eligible record of the window is counted in. */
  lemma RowOf(records: seq<CostRecord>, w: Window, from: Time, to: Time, r: CostRecord) returns (i: nat)
    requires Aligned(w, from) && Aligned(w, to)
    requires InScope(records, from, to, r)
    ensures i < |Filter(FullSummary(records, w), RowIn(from, to))|
    ensures Filter(FullSummary(records, w), RowIn(from, to))[i].key == KeyAt(w, r)
  {
    NoBucketSplit(w, from, to, r.timestamp);
    FullSummaryCovers(records, w, KeyAt(w, r));
    var row := ScanRow(records, w, KeyAt(w, r));
    assert RowIn(from, to)(row);
    i :| 0 <= i < |Filter(FullSummary(records, w), RowIn(from, to))| &&
      Filter(FullSummary(records, w), RowIn(from, to))[i] == row;
  }

  lemma RecordOf(records: seq<CostRecord>, w: Window, from: Time, to: Time, row: SummaryRow) returns (r: CostRecord)
    requires Aligned(w, from) && Aligned(w, to)
    requires row in Filter(FullSummary(records, w), RowIn(from, to))
    ensures InScope(records, from, to, r) && KeyAt(w, r) == row.key
  {
    FullSummaryRows(records, w);
    r :| r in records && IsEligible(r) && KeyAt(w, r) == row.key;
    NoBucketSplit(w, from, to, r.timestamp);
  }
}

/** AWS source precedence: CUR rows replace Cost Explorer rows day by day. The rule is written
    over raw records, over summary rows and once more in the HTTP layer; all forms are proved to agree. */
module Precedence {
  import opened Calendar
  import opened Domain
  import opened Rows
  import opened Summaries

  // ---- over summary rows (SQL) --------------------------------------------------

  predicate IsCurRow(row: SummaryRow) { row.key.dims.provider == AWS && row.key.dims.recordType == CUR_LINE_ITEM }

  /** EXISTS a CUR row with this period_start, anywhere in the table. */
  predicate HasCur(table: seq<SummaryRow>, p: Time) {
    exists row :: row in table && IsCurRow(row) && row.key.periodStart == p
  }

  function Admits(table: seq<SummaryRow>): SummaryRow -> bool {
    (row: SummaryRow) =>
      var d := row.key.dims;
      || d.provider != AWS
      || d.recordType == CUR_LINE_ITEM
      || (d.recordType == LINKED_ACCOUNT_SERVICE && !HasCur(table, row.key.periodStart))
  }

  function TotalOf(): SummaryRow -> real { (row: SummaryRow) => row.totalCost }

  /** The spend of one range of DashboardOverview. */
  function OverviewSpend(daily: seq<SummaryRow>, from: Time, to: Time): real {
    SumBy(Filter(daily, And(RowIn(from, to), Admits(daily))), TotalOf())
  }

  // ---- over raw records (SQL) ----------------------------------------------------

  predicate HasCurRecord(records: seq<CostRecord>, t: Time) {
    exists r :: r in records && IsCur(r) && DayStart(t) <= r.timestamp < AddDays(DayStart(t), 1)
  }

  function AdmitsRecord(records: seq<CostRecord>): CostRecord -> bool {
    (r: CostRecord) =>
      || r.provider != AWS
      || r.recordType == CUR_LINE_ITEM
      || (r.recordType == LINKED_ACCOUNT_SERVICE && !HasCurRecord(records, r.timestamp))
  }

  datatype CostKey = CostKey(bucket: Time, provider: Provider, accountId: string, service: string)

  function CostKeyOf(w: Window): CostRecord -> CostKey {
    (r: CostRecord) => CostKey(TimeBucket(w, r.timestamp), r.provider, r.charge.accountId, r.charge.service)
  }

  function AggregateCosts(records: seq<CostRecord>, from: Time, to: Time, w: Window): seq<Group<CostKey>> {
    GroupBy(Filter(records, And(Timestamped(from, to), AdmitsRecord(records))), CostKeyOf(w), CostOf())
  }

  /** The records a row of the aggregation counts: of its bucket, provider, account and service, and on AWS a CUR row,
      or a linked-account row of a day without any. */
  ghost predicate IsAggregated(records: seq<CostRecord>, from: Time, to: Time, w: Window, k: CostKey, r: CostRecord) {
    && from <= r.timestamp < to && TimeBucket(w, r.timestamp) == k.bucket
    && r.provider == k.provider && r.charge.accountId == k.accountId && r.charge.service == k.service
    && (r.provider == AWS && r.recordType != "cur_line_item" ==>
          r.recordType == "linked_account_service" &&
          !exists c :: c in records && c.provider == AWS && c.recordType == "cur_line_item"
                       && c.timestamp / DAY == r.timestamp / DAY)
  }

  ghost function AggregatedCost(rows: seq<CostRecord>, records: seq<CostRecord>, from: Time, to: Time, w: Window,
                                k: CostKey): real {
    if rows == [] then 0.0
    else
      var last := rows[|rows| - 1];
      AggregatedCost(rows[..|rows| - 1], records, from, to, w, k) +
      if IsAggregated(records, from, to, w, k, last) then last.charge.cost else 0.0
  }

  lemma AggregatedIff(records: seq<CostRecord>, from: Time, to: Time, w: Window, k: CostKey, r: CostRecord)
    ensures IsAggregated(records, from, to, w, k, r) <==>
      Timestamped(from, to)(r) && AdmitsRecord(records)(r) && CostKeyOf(w)(r) == k
  {
    hide TimeBucket;
    forall c: CostRecord
      ensures c.timestamp / DAY == r.timestamp / DAY <==>
              DayStart(r.timestamp) <= c.timestamp < AddDays(DayStart(r.timestamp), 1)
    {
      SameDay(c.timestamp, r.timestamp);
    }
  }

  lemma SameDay(a: Time, b: Time)
    ensures a / DAY == b / DAY <==> DayStart(b) <= a < AddDays(DayStart(b), 1)
  {}

  lemma {:induction false} AggregatedIsSum(rows: seq<CostRecord>, records: seq<CostRecord>, from: Time, to: Time,
                                           w: Window, k: CostKey)
    ensures AggregatedCost(rows, records, from, to, w, k) ==
            SumBy(Filter(rows, And(And(Timestamped(from, to), AdmitsRecord(records)), HasKey(CostKeyOf(w), k))),
                  CostOf())
  {
    hide Filter, SumBy, IsAggregated, AdmitsRecord, CostKeyOf;
    var counted := And(And(Timestamped(from, to), AdmitsRecord(records)), HasKey(CostKeyOf(w), k));
    if rows == [] {
      SumOfNone(counted, CostOf());
    } else {
      var init, last := rows[..|rows| - 1], rows[|rows| - 1];
      assert rows == init + [last];
      AggregatedIsSum(init, records, from, to, w, k);
      SumFilterSnoc(init, last, counted, CostOf());
      AggregatedIff(records, from, to, w, k, last);
    }
  }

  /** The aggregation has one row for every key that some record is counted under, with the cost of those records. */
  lemma AggregationSays(records: seq<CostRecord>, from: Time, to: Time, w: Window)
    ensures DistinctKeys(AggregateCosts(records, from, to, w))
    ensures forall g :: g in AggregateCosts(records, from, to, w) ==>
      g.total == AggregatedCost(records, records, from, to, w, g.key)
    ensures forall k :: k in Keys(AggregateCosts(records, from, to, w)) <==>
      exists r :: r in records && IsAggregated(records, from, to, w, k, r)
  {
    hide Filter, SumBy, GroupBy, IsAggregated, AdmitsRecord, CostKeyOf, AggregatedCost, DistinctKeys;
    var p := And(Timestamped(from, to), AdmitsRecord(records));
    var rows, groups := Filter(records, p), AggregateCosts(records, from, to, w);
    GroupByKeys(rows, CostKeyOf(w), CostOf());
    GroupByTotals(rows, CostKeyOf(w), CostOf());
    forall g | g in groups ensures g.total == AggregatedCost(records, records, from, to, w, g.key) {
      FilterFilter(records, p, HasKey(CostKeyOf(w), g.key));
      AggregatedIsSum(records, records, from, to, w, g.key);
    }
    forall k ensures k in Keys(groups) <==> exists r :: r in records && IsAggregated(records, from, to, w, k, r) {
      if k in Keys(groups) {
        var r :| r in rows && CostKeyOf(w)(r) == k;
        AggregatedIff(records, from, to, w, k, r);
      }
      if r :| r in records && IsAggregated(records, from, to, w, k, r) {
        AggregatedIff(records, from, to, w, k, r);
        assert r in rows;
      }
    }
  }

  // ---- the overview equals the raw aggregation ------------------------------------

  /** The precedence rule as a condition on a grouping key. */
  function AdmitsKey(records: seq<CostRecord>): GroupKey -> bool {
    (k: GroupKey) =>
      || k.dims.provider != AWS
      || k.dims.recordType == CUR_LINE_ITEM
      || (k.dims.recordType == LINKED_ACCOUNT_SERVICE && !HasCurRecord(records, k.periodStart))
  }

  function OnRowKey(p: GroupKey -> bool): SummaryRow -> bool { (row: SummaryRow) => p(row.key) }

  /** The rows of a range are the rows of the full daily aggregation, in any order. */
  ghost predicate CorrectDaily(daily: seq<SummaryRow>, records: seq<CostRecord>, from: Time, to: Time) {
    multiset(Filter(daily, RowIn(from, to))) == multiset(Filter(FullSummary(records, Daily), RowIn(from, to)))
  }

  lemma SameRows(a: seq<SummaryRow>, b: seq<SummaryRow>)
    requires multiset(a) == multiset(b)
    ensures forall row :: row in a <==> row in b
  {
    assert forall row :: row in a <==> row in multiset(a);
    assert forall row :: row in b <==> row in multiset(b);
  }

  lemma BucketDay(t: Time, p: Time)
    requires Aligned(Daily, p)
    ensures TimeBucket(Daily, t) == p <==> DayStart(p) <= t < AddDays(DayStart(p), 1)
  {
    BucketHolds(Daily, t);
  }

  lemma HasCurInFull(records: seq<CostRecord>, p: Time)
    requires Aligned(Daily, p)
    ensures HasCur(FullSummary(records, Daily), p) <==> HasCurRecord(records, p)
  {
    hide FullSummary, TimeBucket;
    var full := FullSummary(records, Daily);
    FullSummaryRows(records, Daily);
    if row :| row in full && IsCurRow(row) && row.key.periodStart == p {
      var r :| r in records && IsEligible(r) && KeyAt(Daily, r) == row.key;
      BucketDay(r.timestamp, p);
      assert IsCur(r);
    }
    if r :| r in records && IsCur(r) && DayStart(p) <= r.timestamp < AddDays(DayStart(p), 1) {
      BucketDay(r.timestamp, p);
      FullSummaryCovers(records, Daily, KeyAt(Daily, r));
      assert IsCurRow(ScanRow(records, Daily, KeyAt(Daily, r)));
    }
  }

  lemma HasCurAgrees(daily: seq<SummaryRow>, records: seq<CostRecord>, from: Time, to: Time, p: Time)
    requires CorrectDaily(daily, records, from, to)
    requires from <= p < to && Aligned(Daily, p)
    ensures HasCur(daily, p) <==> HasCurRecord(records, p)
  {
    var full := FullSummary(records, Daily);
    SameRows(Filter(daily, RowIn(from, to)), Filter(full, RowIn(from, to)));
    HasCurInFull(records, p);
    if c :| c in daily && IsCurRow(c) && c.key.periodStart == p {
      assert RowIn(from, to)(c);
      assert c in Filter(full, RowIn(from, to));
    }
    if c :| c in full && IsCurRow(c) && c.key.periodStart == p {
      assert RowIn(from, to)(c);
      assert c in Filter(daily, RowIn(from, to));
    }
  }

  /** On a correct range the row predicate is the key predicate over the raw records. */
  lemma AdmitsAgree(daily: seq<SummaryRow>, records: seq<CostRecord>, from: Time, to: Time, row: SummaryRow)
    requires CorrectDaily(daily, records, from, to)
    requires row in Filter(daily, RowIn(from, to))
    ensures Admits(daily)(row) == AdmitsKey(records)(row.key)
  {
    SameRows(Filter(daily, RowIn(from, to)), Filter(FullSummary(records, Daily), RowIn(from, to)));
    RowAligned(records, row);
    HasCurAgrees(daily, records, from, to, row.key.periodStart);
  }

  lemma RowAligned(records: seq<CostRecord>, row: SummaryRow)
    requires row in FullSummary(records, Daily)
    ensures Aligned(Daily, row.key.periodStart)
  {
    FullSummaryRows(records, Daily);
    var r :| r in records && IsEligible(r) && KeyAt(Daily, r) == row.key;
    IndexOfBucket(Daily, BucketIndex(Daily, r.timestamp));
  }

  /** Summing joined rows by key is summing the groups they were made from. */
  lemma {:induction false} SumJoin(w: Window, cs: seq<Group<GroupKey>>, ps: seq<Group<GroupKey>>, p: GroupKey -> bool)
    requires DistinctKeys(ps)
    ensures SumBy(Filter(LeftJoin(w, cs, ps), OnRowKey(p)), TotalOf()) == SumBy(Filter(cs, OnKey(p)), GroupTotal())
  {
    if cs != [] {
      var init, c := cs[..|cs| - 1], cs[|cs| - 1];
      SumJoin(w, init, ps, p);
      RowsForOnce(w, c, ps);
      var row := MakeRow(w, c, Lookup(ps, c.key));
      FilterSnoc(LeftJoin(w, init, ps), row, OnRowKey(p));
      SumSnoc(Filter(LeftJoin(w, init, ps), OnRowKey(p)), row, TotalOf());
      SumSnoc(Filter(init, OnKey(p)), c, GroupTotal());
    }
  }

  function InRangeAdmitted(records: seq<CostRecord>, from: Time, to: Time): GroupKey -> bool {
    And(Starting(from, to), AdmitsKey(records))
  }

  lemma SpendOfFull(records: seq<CostRecord>, from: Time, to: Time)
    ensures SumBy(Filter(FullSummary(records, Daily), OnRowKey(InRangeAdmitted(records, from, to))), TotalOf()) ==
            SumBy(Filter(Filter(records, Eligible()),
                Compose(KeyOf(Daily), InRangeAdmitted(records, from, to))), CostOf())
  {
    var es, p := Filter(records, Eligible()), InRangeAdmitted(records, from, to);
    GroupByKeys(es, ShiftedKeyOf(Daily), CostOf());
    SumJoin(Daily, AllGroups(records, Daily), GroupBy(es, ShiftedKeyOf(Daily), CostOf()), p);
    FilterGroupBy(es, KeyOf(Daily), CostOf(), p);
    SumGroupBy(Filter(es, Compose(KeyOf(Daily), p)), KeyOf(Daily), CostOf());
  }

  lemma RecordAdmittedIff(records: seq<CostRecord>, from: Time, to: Time, r: CostRecord)
    requires Aligned(Daily, from) && Aligned(Daily, to)
    ensures IsEligible(r) && InRangeAdmitted(records, from, to)(KeyOf(Daily)(r)) <==>
            And(Timestamped(from, to), AdmitsRecord(records))(r)
  {
    NoBucketSplit(Daily, from, to, r.timestamp);
    assert DayStart(TimeBucket(Daily, r.timestamp)) == DayStart(r.timestamp);
    assert HasCurRecord(records, TimeBucket(Daily, r.timestamp)) <==> HasCurRecord(records, r.timestamp);
  }

  /** The overview spend of a correct table is the spend of the full aggregation. */
  lemma OverviewOfFull(daily: seq<SummaryRow>, records: seq<CostRecord>, from: Time, to: Time)
    requires CorrectDaily(daily, records, from, to)
    ensures OverviewSpend(daily, from, to) ==
            SumBy(Filter(FullSummary(records, Daily), OnRowKey(InRangeAdmitted(records, from, to))), TotalOf())
  {
    hide FullSummary, HasCurRecord, HasCur, Filter, SumBy;
    var full, admitted := FullSummary(records, Daily), OnRowKey(AdmitsKey(records));
    var here, there := Filter(daily, RowIn(from, to)), Filter(full, RowIn(from, to));
    FilterFilter(daily, RowIn(from, to), Admits(daily));
    FilterCongruent(here, Admits(daily), admitted) by {
      forall row | row in here ensures Admits(daily)(row) == admitted(row) {
        AdmitsAgree(daily, records, from, to, row);
      }
    }
    FilterPermutation(here, there, admitted);
    SumPermutation(Filter(here, admitted), Filter(there, admitted), TotalOf());
    FilterFilter(full, RowIn(from, to), admitted);
    FilterCongruent(full, And(RowIn(from, to), admitted), OnRowKey(InRangeAdmitted(records, from, to)));
  }

  lemma AggregateOfRecords(records: seq<CostRecord>, from: Time, to: Time, w: Window)
    requires Aligned(Daily, from) && Aligned(Daily, to)
    ensures SumBy(AggregateCosts(records, from, to, w), GroupTotal()) ==
            SumBy(Filter(Filter(records, Eligible()),
                Compose(KeyOf(Daily), InRangeAdmitted(records, from, to))), CostOf())
  {
    var byKey := Compose(KeyOf(Daily), InRangeAdmitted(records, from, to));
    var raw := And(Timestamped(from, to), AdmitsRecord(records));
    SumGroupBy(Filter(records, raw), CostKeyOf(w), CostOf());
    FilterFilter(records, Eligible(), byKey);
    FilterCongruent(records, And(Eligible(), byKey), raw) by {
      forall r | r in records ensures And(Eligible(), byKey)(r) == raw(r) {
        RecordAdmittedIff(records, from, to, r);
      }
    }
  }

  /** On day-aligned ranges, choosing CUR rows over linked-account rows per day commutes with grouping:
      the overview spend is the total of the raw aggregation, whatever its window. */
  lemma OverviewEqualsAggregate(daily: seq<SummaryRow>, records: seq<CostRecord>, from: Time, to: Time, w: Window)
    requires Aligned(Daily, from) && Aligned(Daily, to)
    requires CorrectDaily(daily, records, from, to)
    ensures OverviewSpend(daily, from, to) == SumBy(AggregateCosts(records, from, to, w), GroupTotal())
  {
    OverviewOfFull(daily, records, from, to);
    SpendOfFull(records, from, to);
    AggregateOfRecords(records, from, to, w);
  }
}

/** What a row of a refreshed summary table says, in terms of the records and of its own columns. */
module SummariesExact {
  import opened Calendar
  import opened Domain
  import opened Rows
  import opened Summaries

  // ---- which records a row is about --------------------------------------------------------------

  /** The WHERE clause. */
  predicate IsSummarised(r: CostRecord) {
    r.provider == AWS ==> r.recordType in {"linked_account_service", "region_service", "cur_line_item"}
  }

  function Tag(r: CostRecord, name: string): string { if name in r.charge.tags then r.charge.tags[name] else "" }

  /** COALESCE(NULLIF(.., ''), .., ''). */
  function FirstText(texts: seq<string>): string {
    if texts == [] then "" else if texts[0] != "" then texts[0] else FirstText(texts[1..])
  }

  /** The dimension columns hold what the record says, or what its tags say of its compartment. */
  predicate Describes(d: Dims, r: CostRecord) {
    && d.provider == r.provider && d.accountId == r.charge.accountId && d.recordType == r.recordType
    && d.service == r.charge.service && d.category == r.charge.category
    && d.region == r.charge.region && d.currency == r.charge.currency
    && d.billingScopeType == FirstText([r.charge.billingScopeType, if r.provider == OCI then "compartment" else ""])
    && d.billingScopeId == d.compartmentId == FirstText([r.charge.billingScopeId, Tag(r, "oci_compartment_id")])
    && d.billingScopeName == d.compartmentName ==
       FirstText([r.charge.billingScopeName, Tag(r, "oci_compartment_name"), Tag(r, "oci_compartment_id")])
  }

  lemma FirstOfTwo(a: string, b: string)
    ensures FirstText([a, b]) == if a != "" then a else b
  {
    assert [a, b][1..] == [b] && [b][1..] == [];
    assert FirstText([b]) == b;
  }

  lemma FirstOfThree(a: string, b: string, c: string)
    ensures FirstText([a, b, c]) == if a != "" then a else if b != "" then b else c
  {
    assert [a, b, c][1..] == [b, c];
    FirstOfTwo(b, c);
  }

  lemma DescribesIff(d: Dims, r: CostRecord)
    ensures Describes(d, r) <==> DimsOf(r) == d
  {
    FirstOfTwo(r.charge.billingScopeType, if r.provider == OCI then "compartment" else "");
    FirstOfTwo(r.charge.billingScopeId, Tag(r, "oci_compartment_id"));
    FirstOfThree(r.charge.billingScopeName, Tag(r, "oci_compartment_name"), Tag(r, "oci_compartment_id"));
  }

  ghost predicate InBucket(r: CostRecord, w: Window, start: Time, d: Dims) {
    IsSummarised(r) && Describes(d, r) && TimeBucket(w, r.timestamp) == start
  }

  /** What the records of a bucket with these dimensions cost together. */
  ghost function BucketCost(records: seq<CostRecord>, w: Window, start: Time, d: Dims): real {
    if records == [] then 0.0
    else
      var last := records[|records| - 1];
      BucketCost(records[..|records| - 1], w, start, d) + if InBucket(last, w, start, d) then last.charge.cost else 0.0
  }

  lemma InBucketIff(r: CostRecord, w: Window, start: Time, d: Dims)
    ensures InBucket(r, w, start, d) <==> IsEligible(r) && KeyAt(w, r) == GroupKey(start, d)
  {
    hide TimeBucket, DimsOf, Describes;
    DescribesIff(d, r);
  }

  lemma {:induction false} BucketCostIsSum(records: seq<CostRecord>, w: Window, start: Time, d: Dims)
    ensures BucketCost(records, w, start, d) ==
            SumBy(Filter(records, And(Eligible(), HasKey(KeyOf(w), GroupKey(start, d)))), CostOf())
  {
    hide Filter, SumBy, InBucket, KeyAt, IsEligible;
    var counted := And(Eligible(), HasKey(KeyOf(w), GroupKey(start, d)));
    if records == [] {
      SumOfNone(counted, CostOf());
    } else {
      var init, last := records[..|records| - 1], records[|records| - 1];
      assert records == init + [last];
      BucketCostIsSum(init, w, start, d);
      SumFilterSnoc(init, last, counted, CostOf());
      InBucketIff(last, w, start, d);
    }
  }

  lemma BucketCostIsTotal(records: seq<CostRecord>, w: Window, start: Time, d: Dims)
    ensures BucketCost(records, w, start, d) == Total(records, w, GroupKey(start, d))
  {
    hide Filter, SumBy, BucketCost;
    BucketCostIsSum(records, w, start, d);
    FilterFilter(records, Eligible(), HasKey(KeyOf(w), GroupKey(start, d)));
  }

  // ---- the columns -------------------------------------------------------------------------------

  /** The row compares its bucket with the one before. */
  ghost predicate RowSays(records: seq<CostRecord>, w: Window, row: SummaryRow) {
    var start, d := row.key.periodStart, row.key.dims;
    var cost, previous := BucketCost(records, w, start, d), BucketCost(records, w, AddInterval(w, start, -1), d);
    && row.periodEnd == AddInterval(w, start, 1)
    && row.totalCost == cost && row.previousPeriodCost == previous && row.absoluteChange == cost - previous
    && (previous > 0.0 ==> row.percentageChange * previous == 100.0 * (cost - previous))
    && (previous <= 0.0 ==> row.percentageChange == if cost > 0.0 then 100.0 else 0.0)
  }

  lemma RowSaysIff(records: seq<CostRecord>, w: Window, row: SummaryRow)
    ensures RowSays(records, w, row) <==> row == ScanRow(records, w, row.key)
  {
    hide AddInterval, BucketCost, Total;
    var start, d := row.key.periodStart, row.key.dims;
    BucketCostIsTotal(records, w, start, d);
    BucketCostIsTotal(records, w, AddInterval(w, start, -1), d);
    var cost, previous := BucketCost(records, w, start, d), BucketCost(records, w, AddInterval(w, start, -1), d);
    assert row.key == GroupKey(start, d);
    if previous > 0.0 {
      Share(row.percentageChange, cost - previous, previous);
    }
  }

  lemma Share(share: real, part: real, whole: real)
    requires whole > 0.0
    ensures share * whole == 100.0 * part <==> share == part / whole * 100.0
  {
    var q := part / whole;
    assert q * whole == part;
    if share * whole == 100.0 * part {
      assert (share - q * 100.0) * whole == 0.0;
    }
  }

  /** Some record falls into the bucket. */
  ghost predicate Populated(records: seq<CostRecord>, w: Window, start: Time, d: Dims) {
    exists r :: r in records && InBucket(r, w, start, d)
  }

  lemma PopulatedIff(records: seq<CostRecord>, w: Window, start: Time, d: Dims)
    ensures Populated(records, w, start, d) <==> Occurs(records, w, GroupKey(start, d))
  {
    hide InBucket, KeyAt;
    forall r ensures InBucket(r, w, start, d) <==> IsEligible(r) && KeyAt(w, r) == GroupKey(start, d) {
      InBucketIff(r, w, start, d);
    }
  }

  /** A row of the full aggregation: some record falls into its bucket, and its columns are right. */
  ghost predicate IsSummary(records: seq<CostRecord>, w: Window, row: SummaryRow) {
    Populated(records, w, row.key.periodStart, row.key.dims) && RowSays(records, w, row)
  }

  /** The aggregation has exactly the rows that say what the records say, each once. */
  lemma SummaryRowsSay(records: seq<CostRecord>, w: Window)
    ensures UniqueKeys(FullSummary(records, w))
    ensures forall row :: row in FullSummary(records, w) <==> IsSummary(records, w, row)
  {
    hide FullSummary, RowSays, Populated, ScanRow;
    FullSummaryUnique(records, w);
    FullSummaryRows(records, w);
    forall row: SummaryRow ensures row in FullSummary(records, w) <==> IsSummary(records, w, row) {
      RowSaysIff(records, w, row);
      PopulatedIff(records, w, row.key.periodStart, row.key.dims);
      assert row.key == GroupKey(row.key.periodStart, row.key.dims);
      if IsSummary(records, w, row) {
        FullSummaryCovers(records, w, row.key);
      }
    }
  }

  /** Bucket by bucket: after a refresh the rows of the window are exactly those, each once, and every other row of the
      table is as before. */
  lemma RefreshedBuckets(table: seq<SummaryRow>, records: seq<CostRecord>, w: Window, from: Time, to: Time)
    ensures var after := RefreshedTable(table, records, w, from, to);
            && (forall row: SummaryRow :: from <= row.key.periodStart < to ==>
                  multiset(after)[row] == if IsSummary(records, w, row) then 1 else 0)
            && (forall row: SummaryRow ::
                  !(from <= row.key.periodStart < to) ==> multiset(after)[row] == multiset(table)[row])
  {
    hide IsSummary, FullSummary;
    var full := FullSummary(records, w);
    SummaryRowsSay(records, w);
    forall row: SummaryRow
      ensures multiset(RefreshedTable(table, records, w, from, to))[row] ==
              if from <= row.key.periodStart < to then if IsSummary(records, w, row) then 1 else 0
              else multiset(table)[row]
    {
      FilterMultiplicity(table, RowOutside(from, to), row);
      FilterMultiplicity(full, RowIn(from, to), row);
      OnceWhenUnique(full, row);
    }
  }

  lemma {:induction false} OnceWhenUnique(rows: seq<SummaryRow>, row: SummaryRow)
    requires UniqueKeys(rows)
    ensures multiset(rows)[row] == if row in rows then 1 else 0
  {
    if rows != [] {
      var init, last := rows[..|rows| - 1], rows[|rows| - 1];
      assert rows == init + [last];
      OnceWhenUnique(init, row);
    }
  }
}

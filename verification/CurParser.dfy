/** The CUR line-item parser: which rows become records, and the hash that identifies a line. */
module CurParser {
  import opened Calendar
  import opened Domain
  import opened CostStore
  import opened Collect
  import opened Streaming
  import opened Retention
  import opened Numerals

  /** Columns that only the line hash reads. */
  datatype LineDetail = LineDetail(resourceId: string, usageType: string, operation: string, lineItemType: string)

  /** A data row of the file: one the CSV reader rejects, or its trimmed columns. */
  datatype CsvRow =
    | Unreadable
    | Row(usageStart: Option<Time>, usageEnd: Option<Time>, cost: Option<real>, accountId: string, service: string,
          family: string, region: string, currency: string, tags: map<string, string>, detail: LineDetail)

  /** The hash function and the time format are the standard library's. */
  datatype Hashing = Hashing(digest: string -> string, format: Time -> string)

  ghost predicate CollisionFree(h: Hashing) {
    forall a, b :: h.digest(a) == h.digest(b) ==> a == b
  }

  const NUL := "\0"

  function Join(parts: seq<string>): string {
    if parts == [] then "" else if |parts| == 1 then parts[0] else parts[0] + NUL + Join(parts[1..])
  }

  function HashParts(h: Hashing, line: nat, start: Time, end: Time, account: string, region: string, service: string,
                     d: LineDetail): seq<string> {
    [Decimal(line), h.format(start), h.format(end), account, region, service, d.resourceId, d.usageType, d.operation,
        d.lineItemType]
  }

  /** mapCURRow: rows without a start time, a cost or an account are dropped. */
  function MapRow(h: Hashing, key: string, line: nat, row: CsvRow): Option<CostRecord> {
    match row
    case Unreadable => None
    case Row(start, end, cost, account, service, family, region, currency, tags, detail) =>
      if start.None? || cost.None? || account == "" then None
      else
        var service := if service == "" then "unknown" else service;
        var usageEnd := if end.Some? then end.value else AddDays(start.value, 1);
        var hash := h.digest(Join(HashParts(h, line, start.value, usageEnd, account, region, service, detail)));
        Some(CostRecord(start.value, AWS, CUR_LINE_ITEM, key, SourceLine(key, line, hash),
                        Charge(account, service,
                            if family != "" then family else service, region, "linked_account", account, account,
                               if currency == "" then "USD" else currency, cost.value, tags)))
  }

  /** A row becomes a record exactly when it has a start time, a cost and an account. */
  predicate IsBilled(row: CsvRow) { row.Row? && row.usageStart.Some? && row.cost.Some? && row.accountId != "" }

  /** The record says what the row says, with the defaults for an empty service, product family and currency. */
  lemma RecordSays(h: Hashing, key: string, line: nat, row: CsvRow)
    ensures MapRow(h, key, line, row).Some? <==> IsBilled(row)
    ensures IsBilled(row) ==>
      var r := MapRow(h, key, line, row).value;
      var service := if row.service == "" then "unknown" else row.service;
      && r.timestamp == row.usageStart.value && r.provider == AWS && r.recordType == "cur_line_item"
      && r.sourceObject == r.line.fileKey == key && r.line.lineNumber == line
      && r.charge == Charge(row.accountId, service, if row.family == "" then service else row.family, row.region,
                            "linked_account", row.accountId, row.accountId,
                            if row.currency == "" then "USD" else row.currency, row.cost.value, row.tags)
    ensures IsBilled(row) ==>
      var end := if row.usageEnd.Some? then row.usageEnd.value else row.usageStart.value + DAY;
      var service := if row.service == "" then "unknown" else row.service;
      MapRow(h, key, line, row).value.line.recordHash ==
        h.digest(Join([Decimal(line), h.format(row.usageStart.value), h.format(end), row.accountId, row.region, service,
                       row.detail.resourceId, row.detail.usageType, row.detail.operation, row.detail.lineItemType]))
  {}

  /** The cost of a row that becomes a record. */
  function BilledCost(row: CsvRow): real { if IsBilled(row) then row.cost.value else 0.0 }

  function FileCost(rows: seq<CsvRow>): real {
    if rows == [] then 0.0 else FileCost(rows[..|rows| - 1]) + BilledCost(rows[|rows| - 1])
  }

  /** Parsing neither loses nor invents cost. */
  lemma {:induction false} AcceptedCost(h: Hashing, key: string, rows: seq<CsvRow>)
    ensures CostOfAll(Accepted(h, key, rows)) == FileCost(rows)
  {
    hide MapRow;
    if rows != [] {
      var init, last := rows[..|rows| - 1], rows[|rows| - 1];
      AcceptedCost(h, key, init);
      RecordSays(h, key, LineOf(|init|), last);
      CostSnoc(Accepted(h, key, init), MapRow(h, key, LineOf(|init|), last));
    }
  }

  lemma CostSnoc(rows: seq<CostRecord>, r: Option<CostRecord>)
    ensures r.Some? ==> CostOfAll(rows + [r.value]) == CostOfAll(rows) + r.value.charge.cost
  {
    if r.Some? {
      assert (rows + [r.value])[..|rows|] == rows;
    }
  }

  lemma UnreadableDropped(h: Hashing, key: string, line: nat)
    ensures MapRow(h, key, line, Unreadable).None?
  {}

  /** The first data row is line 2; unreadable rows count. */
  function LineOf(index: nat): nat { index + 2 }

  /** The records of the first rows of a file, in order. */
  function Accepted(h: Hashing, key: string, rows: seq<CsvRow>): seq<CostRecord> {
    if rows == [] then []
    else
      var init := Accepted(h, key, rows[..|rows| - 1]);
      match MapRow(h, key, LineOf(|rows| - 1), rows[|rows| - 1])
      case Some(r) => init + [r]
      case None => init
  }

  // ---- lines and hashes ------------------------------------------------------------------

  lemma HeadDecides(m: nat, n: nat, x: string, y: string)
    requires Decimal(m) + NUL + x == Decimal(n) + NUL + y
    ensures m == n
  {
    var a, b := Decimal(m), Decimal(n);
    var text := a + NUL + x;
    assert text[|a|] == '\0' && text[|b|] == '\0';
    assert forall i :: 0 <= i < |a| ==> text[i] == a[i];
    assert forall i :: 0 <= i < |b| ==> text[i] == b[i];
    assert |a| == |b|;
    assert a == text[..|a|] && b == text[..|b|];
    DecimalInjective(m, n);
  }

  /** Since the line number leads the hashed parts, records of different lines have different hashes. */
  lemma LinesApart(h: Hashing, key: string, m: nat, n: nat, row: CsvRow, other: CsvRow)
    requires CollisionFree(h) && m != n
    requires MapRow(h, key, m, row).Some? && MapRow(h, key, n, other).Some?
    ensures !Conflicts(MapRow(h, key, m, row).value, MapRow(h, key, n, other).value)
  {
    var a, b := MapRow(h, key, m, row).value, MapRow(h, key, n, other).value;
    if a.line.recordHash == b.line.recordHash {
      var x: string, y: string :| a.line.recordHash == h.digest(Decimal(m) + NUL + x)
          && b.line.recordHash == h.digest(Decimal(n) + NUL + y);
      HeadDecides(m, n, x, y);
    }
  }

  ghost predicate FromLine(r: CostRecord, h: Hashing, key: string, rows: seq<CsvRow>, index: nat) {
    index < |rows| && MapRow(h, key, LineOf(index), rows[index]) == Some(r)
  }

  lemma {:induction false} AcceptedFromLines(h: Hashing, key: string, rows: seq<CsvRow>)
    ensures forall r :: r in Accepted(h, key, rows) ==> exists i :: FromLine(r, h, key, rows, i)
  {
    hide MapRow;
    if rows != [] {
      var init := rows[..|rows| - 1];
      AcceptedFromLines(h, key, init);
      forall r | r in Accepted(h, key, rows) ensures exists i :: FromLine(r, h, key, rows, i) {
        if r in Accepted(h, key, init) {
          var i: nat :| FromLine(r, h, key, init, i);
          assert FromLine(r, h, key, rows, i);
        } else {
          assert FromLine(r, h, key, rows, |rows| - 1);
        }
      }
    }
  }

  lemma AcceptedBelong(h: Hashing, key: string, rows: seq<CsvRow>)
    ensures BelongTo(Accepted(h, key, rows), Source(AWS, key))
  {
    AcceptedFromLines(h, key, rows);
    forall r | r in Accepted(h, key, rows) ensures OwnedBy(r, Source(AWS, key)) {
      var i: nat :| FromLine(r, h, key, rows, i);
    }
  }

  /** A record of the next line conflicts with none of the lines before. */
  lemma NextLineClear(h: Hashing, key: string, rows: seq<CsvRow>, row: CsvRow)
    requires CollisionFree(h) && MapRow(h, key, LineOf(|rows|), row).Some?
    ensures Clear(Accepted(h, key, rows), MapRow(h, key, LineOf(|rows|), row).value)
  {
    hide MapRow, Conflicts;
    AcceptedFromLines(h, key, rows);
    forall a | a in Accepted(h, key, rows) ensures !Conflicts(a, MapRow(h, key, LineOf(|rows|), row).value) {
      var i: nat :| FromLine(a, h, key, rows, i);
      LinesApart(h, key, LineOf(i), LineOf(|rows|), rows[i], row);
    }
  }

  /** The accepted lines of one file have distinct upsert keys. */
  lemma {:induction false} AcceptedConflictFree(h: Hashing, key: string, rows: seq<CsvRow>)
    requires CollisionFree(h)
    ensures ConflictFree([], Accepted(h, key, rows))
  {
    hide MapRow, Conflicts;
    if rows != [] {
      var init, last := rows[..|rows| - 1], rows[|rows| - 1];
      AcceptedConflictFree(h, key, init);
      var next := MapRow(h, key, LineOf(|init|), last);
      if next.Some? {
        NextLineClear(h, key, init, last);
        assert (Accepted(h, key, init) + [next.value])[..|Accepted(h, key, init)|] == Accepted(h, key, init);
      }
    }
  }

  lemma {:induction false} NormalizedFrom(rows: seq<CostRecord>)
    ensures forall x :: x in NormalizeAll(rows) ==> exists r :: r in rows && x == Normalize(r)
  {
    hide Normalize;
    if rows != [] {
      var init, last := rows[..|rows| - 1], rows[|rows| - 1];
      NormalizedFrom(init);
      forall x | x in NormalizeAll(rows) ensures exists r :: r in rows && x == Normalize(r) {
        if x in NormalizeAll(init) {
          var r :| r in init && x == Normalize(r);
          assert r in rows;
        } else {
          assert last in rows;
        }
      }
    }
  }

  lemma NormalizedApart(a: CostRecord, b: CostRecord)
    requires !Conflicts(a, b)
    ensures !Conflicts(Normalize(a), Normalize(b))
  {}

  lemma {:induction false} NormalizedConflictFree(rows: seq<CostRecord>)
    requires ConflictFree([], rows)
    ensures ConflictFree([], NormalizeAll(rows))
  {
    hide Normalize, Conflicts;
    if rows != [] {
      var init, last := rows[..|rows| - 1], rows[|rows| - 1];
      NormalizedConflictFree(init);
      NormalizedFrom(init);
      var done := NormalizeAll(init);
      assert (done + [Normalize(last)])[..|done|] == done;
      forall a | a in done ensures !Conflicts(a, Normalize(last)) {
        var r :| r in init && a == Normalize(r);
        NormalizedApart(r, last);
      }
    }
  }

  /** Upserting the records of a file again, even without deleting them first, changes nothing. */
  lemma SecondUpsertChangesNothing(h: Hashing, key: string, rows: seq<CsvRow>, table: seq<CostRecord>)
    requires CollisionFree(h) && UniqueIndexes(table) && key != ""
    requires forall text :: h.digest(text) != ""
    ensures var rs := NormalizeAll(Accepted(h, key, rows));
            InsertAll(InsertAll(table, rs), rs) == InsertAll(table, rs)
  {
    var accepted := Accepted(h, key, rows);
    AcceptedConflictFree(h, key, rows);
    NormalizedConflictFree(accepted);
    NormalizedFrom(accepted);
    AcceptedFromLines(h, key, rows);
    forall x | x in NormalizeAll(accepted) ensures ConflictKeyOf(x) != NoKey {
      var r :| r in accepted && x == Normalize(r);
      var i: nat :| FromLine(r, h, key, rows, i);
    }
    UpsertIdempotent(table, NormalizeAll(accepted));
  }
}

/** The record store: source deletion, the two upserts, processed marks and checkpoints. */
module CostStore {
  import opened Calendar
  import opened Domain

  /** Records are owned by the object they were read from. */
  datatype Source = Source(provider: Provider, name: string)

  datatype ReportId = ReportId(provider: Provider, bucket: string, objectName: string, etag: string)

  function SourceOf(id: ReportId): Source { Source(id.provider, id.objectName) }

  predicate Owns(s: Source, r: CostRecord) { r.provider == s.provider && r.sourceObject == s.name }

  function OfSource(rows: seq<CostRecord>, s: Source): seq<CostRecord> {
    if rows == [] then []
    else if Owns(s, rows[|rows| - 1]) then OfSource(rows[..|rows| - 1], s) + [rows[|rows| - 1]]
    else OfSource(rows[..|rows| - 1], s)
  }

  function Others(rows: seq<CostRecord>, s: Source): seq<CostRecord> {
    if rows == [] then []
    else if Owns(s, rows[|rows| - 1]) then Others(rows[..|rows| - 1], s)
    else Others(rows[..|rows| - 1], s) + [rows[|rows| - 1]]
  }

  lemma {:induction false} SourceAppend(a: seq<CostRecord>, b: seq<CostRecord>, s: Source)
    ensures OfSource(a + b, s) == OfSource(a, s) + OfSource(b, s)
    ensures Others(a + b, s) == Others(a, s) + Others(b, s)
  {
    if b == [] {
      assert a + b == a;
    } else {
      assert (a + b)[..|a + b| - 1] == a + b[..|b| - 1];
      SourceAppend(a, b[..|b| - 1], s);
    }
  }

  lemma {:induction false} OthersMembers(rows: seq<CostRecord>, s: Source)
    ensures forall r :: r in Others(rows, s) ==> r in rows && !Owns(s, r)
  {
    if rows != [] {
      OthersMembers(rows[..|rows| - 1], s);
    }
  }

  lemma {:induction false} OwnedRows(rows: seq<CostRecord>, s: Source)
    requires forall r :: r in rows ==> Owns(s, r)
    ensures OfSource(rows, s) == rows && Others(rows, s) == []
  {
    if rows != [] {
      OwnedRows(rows[..|rows| - 1], s);
    }
  }

  lemma {:induction false} ForeignRows(rows: seq<CostRecord>, s: Source)
    requires forall r :: r in rows ==> !Owns(s, r)
    ensures OfSource(rows, s) == [] && Others(rows, s) == rows
  {
    if rows != [] {
      ForeignRows(rows[..|rows| - 1], s);
    }
  }

  /** Replacing what a source holds leaves every other source alone, and is undone by deleting the source. */
  lemma ReplacedSource(rows: seq<CostRecord>, s: Source, own: seq<CostRecord>)
    requires forall r :: r in own ==> Owns(s, r)
    ensures Others(Others(rows, s) + own, s) == Others(rows, s)
    ensures OfSource(Others(rows, s) + own, s) == own
  {
    OthersMembers(rows, s);
    ForeignRows(Others(rows, s), s);
    OwnedRows(own, s);
    SourceAppend(Others(rows, s), own, s);
  }

  lemma {:induction false} OtherSourceKept(rows: seq<CostRecord>, s: Source, t: Source)
    requires s != t
    ensures OfSource(Others(rows, s), t) == OfSource(rows, t)
  {
    if rows != [] {
      var init, last := rows[..|rows| - 1], rows[|rows| - 1];
      OtherSourceKept(init, s, t);
      assert (Others(init, s) + [last])[..|Others(init, s)|] == Others(init, s);
    }
  }

  /** The records of every source outside the given ones are as before. */
  ghost predicate OnlyChanged(before: seq<CostRecord>, now: seq<CostRecord>, sources: set<Source>) {
    forall s: Source :: s !in sources ==> OfSource(now, s) == OfSource(before, s)
  }

  lemma OnlyChangedStep(before: seq<CostRecord>, now: seq<CostRecord>, later: seq<CostRecord>, sources: set<Source>,
                        t: Source)
    requires OnlyChanged(before, now, sources) && t in sources && Others(later, t) == Others(now, t)
    ensures OnlyChanged(before, later, sources)
  {
    hide OfSource, Others;
    forall s: Source | s !in sources ensures OfSource(later, s) == OfSource(before, s) {
      OtherSourceKept(later, t, s);
      OtherSourceKept(now, t, s);
    }
  }

  /** DeleteCostRecordsForSource; an empty object name deletes nothing. */
  function DeleteSource(rows: seq<CostRecord>, s: Source): seq<CostRecord> {
    if s.name == "" then rows else Others(rows, s)
  }

  // ---- unique indexes and upserts ----------------------------------------------------

  datatype ConflictKey =
    | NoKey
    | CurKey(timestamp: Time, sourceFileKey: string, hash: string)
    | ExplorerKey(at: Time, region: string, scopeType: string, scopeId: string, service: string, recordType: string)

  /** The entry of a row in the partial unique index that its insert names as conflict target. */
  function ConflictKeyOf(r: CostRecord): ConflictKey {
    if r.provider != AWS then NoKey
    else if r.recordType == CUR_LINE_ITEM then
      if r.line.fileKey != "" && r.line.recordHash != ""
      then CurKey(r.timestamp, r.line.fileKey, r.line.recordHash) else NoKey
    else ExplorerKey(r.timestamp, r.charge.region, r.charge.billingScopeType, r.charge.billingScopeId, r.charge.service,
        r.recordType)
  }

  predicate Conflicts(a: CostRecord, b: CostRecord) {
    ConflictKeyOf(a) != NoKey && ConflictKeyOf(a) == ConflictKeyOf(b)
  }

  /** Rows conflict as the two partial unique indexes say: CUR rows by file and hash, other AWS rows by scope and
      service, both at one time; rows of other providers never do. */
  lemma ConflictsIff(a: CostRecord, b: CostRecord)
    ensures Conflicts(a, b) <==>
      && a.provider == AWS && b.provider == AWS && a.timestamp == b.timestamp && a.recordType == b.recordType
      && if a.recordType == "cur_line_item" then
           && a.line.fileKey == b.line.fileKey != "" && a.line.recordHash == b.line.recordHash != ""
         else
           && a.charge.region == b.charge.region && a.charge.service == b.charge.service
           && a.charge.billingScopeType == b.charge.billingScopeType
           && a.charge.billingScopeId == b.charge.billingScopeId
  {}

  /** INSERT ... ON CONFLICT DO UPDATE: replaces the conflicting row, or appends. */
  function InsertOne(rows: seq<CostRecord>, r: CostRecord): seq<CostRecord> {
    if rows == [] then [r]
    else if Conflicts(rows[0], r) then [r] + rows[1..]
    else [rows[0]] + InsertOne(rows[1..], r)
  }

  /** storeCostRecordsTx: the rows one after another. */
  function InsertAll(rows: seq<CostRecord>, rs: seq<CostRecord>): seq<CostRecord> {
    if rs == [] then rows else InsertOne(InsertAll(rows, rs[..|rs| - 1]), rs[|rs| - 1])
  }

  ghost predicate UniqueIndexes(rows: seq<CostRecord>) {
    forall i, j :: 0 <= i < j < |rows| ==> !Conflicts(rows[i], rows[j])
  }

  /** What the collectors write: scope types as given by the writers, and CUR rows that name one object as file key and
      as source object. */
  ghost predicate AsCollected(rows: seq<CostRecord>) {
    forall r :: r in rows ==> Collected(r)
  }

  predicate Collected(r: CostRecord) { ScopeAsWritten(r) && (IsCur(r) ==> r.line.fileKey == r.sourceObject) }

  /** No row of rs conflicts with a row of rows or with an earlier row of rs. */
  ghost predicate ConflictFree(rows: seq<CostRecord>, rs: seq<CostRecord>) {
    rs == [] ||
    (ConflictFree(rows, rs[..|rs| - 1]) && Clear(rows, rs[|rs| - 1]) && Clear(rs[..|rs| - 1], rs[|rs| - 1]))
  }

  ghost predicate Clear(rows: seq<CostRecord>, r: CostRecord) {
    forall a :: a in rows ==> !Conflicts(a, r)
  }

  lemma {:induction false} InsertAppends(rows: seq<CostRecord>, r: CostRecord)
    requires forall a :: a in rows ==> !Conflicts(a, r)
    ensures InsertOne(rows, r) == rows + [r]
  {
    if rows != [] {
      assert rows == [rows[0]] + rows[1..];
      InsertAppends(rows[1..], r);
    }
  }

  /** Without conflicts the upsert is a plain append. */
  lemma {:induction false} InsertAllAppends(rows: seq<CostRecord>, rs: seq<CostRecord>)
    requires ConflictFree(rows, rs)
    ensures InsertAll(rows, rs) == rows + rs
  {
    if rs != [] {
      var init, last := rs[..|rs| - 1], rs[|rs| - 1];
      InsertAllAppends(rows, init);
      assert Clear(rows + init, last);
      InsertAppends(rows + init, last);
      assert rows + init + [last] == rows + rs;
    } else {
      assert rows + [] == rows;
    }
  }

  lemma {:induction false} InsertReplacesSame(rows: seq<CostRecord>, r: CostRecord)
    requires UniqueIndexes(rows) && r in rows && ConflictKeyOf(r) != NoKey
    ensures InsertOne(rows, r) == rows
  {
    assert rows == [rows[0]] + rows[1..];
    if Conflicts(rows[0], r) {
      var i :| 0 <= i < |rows| && rows[i] == r;
      assert i == 0;
    } else {
      InsertReplacesSame(rows[1..], r);
    }
  }

  lemma {:induction false} InsertOneMembers(rows: seq<CostRecord>, r: CostRecord)
    ensures r in InsertOne(rows, r)
    ensures forall a :: a in rows && !Conflicts(a, r) ==> a in InsertOne(rows, r)
    ensures forall a :: a in InsertOne(rows, r) ==> a in rows || a == r
  {
    if rows != [] {
      InsertOneMembers(rows[1..], r);
    }
  }

  lemma {:induction false} InsertOneUnique(rows: seq<CostRecord>, r: CostRecord)
    requires UniqueIndexes(rows)
    ensures UniqueIndexes(InsertOne(rows, r))
  {
    if rows != [] {
      var rest := InsertOne(rows[1..], r);
      InsertOneUnique(rows[1..], r);
      InsertOneMembers(rows[1..], r);
      if !Conflicts(rows[0], r) {
        forall i | 0 <= i < |rest| ensures !Conflicts(rows[0], rest[i]) {
          assert rest[i] in rest;
          if rest[i] in rows[1..] {
            var j :| 1 <= j < |rows| && rows[j] == rest[i];
          }
        }
      } else {
        forall j | 1 <= j < |rows| ensures !Conflicts(r, rows[j]) {
          assert !Conflicts(rows[0], rows[j]);
        }
      }
    }
  }

  /** The unique indexes hold after any number of upserts, and upserted rows are in the table. */
  lemma {:induction false} InsertAllKeeps(rows: seq<CostRecord>, rs: seq<CostRecord>)
    requires UniqueIndexes(rows)
    ensures UniqueIndexes(InsertAll(rows, rs))
    ensures ConflictFree([], rs) ==> forall r :: r in rs ==> r in InsertAll(rows, rs)
  {
    if rs != [] {
      var init, last := rs[..|rs| - 1], rs[|rs| - 1];
      assert rs == init + [last];
      InsertAllKeeps(rows, init);
      InsertOneUnique(InsertAll(rows, init), last);
      InsertOneMembers(InsertAll(rows, init), last);
    }
  }

  lemma {:induction false} InsertAllSame(rows: seq<CostRecord>, rs: seq<CostRecord>)
    requires UniqueIndexes(rows)
    requires forall r :: r in rs ==> r in rows && ConflictKeyOf(r) != NoKey
    ensures InsertAll(rows, rs) == rows
  {
    if rs != [] {
      InsertAllSame(rows, rs[..|rs| - 1]);
      InsertReplacesSame(rows, rs[|rs| - 1]);
    }
  }

  /** Upserting keyed rows a second time changes nothing. */
  lemma UpsertIdempotent(rows: seq<CostRecord>, rs: seq<CostRecord>)
    requires UniqueIndexes(rows) && ConflictFree([], rs)
    requires forall r :: r in rs ==> ConflictKeyOf(r) != NoKey
    ensures InsertAll(InsertAll(rows, rs), rs) == InsertAll(rows, rs)
  {
    InsertAllKeeps(rows, rs);
    InsertAllSame(InsertAll(rows, rs), rs);
  }

  // ---- the tables ------------------------------------------------------------------------

  /** The ingestion tables. Every statement is atomic: one that fails leaves its table as it was. */
  class Store {
    var records: seq<CostRecord>
    /** processed_reports with status 'processed': the record count of each report version. */
    var processed: map<ReportId, nat>
    var checkpoints: map<Provider, Time>

    method DeleteCostRecordsForSource(s: Source) returns (ok: bool)
      modifies this`records
      ensures ok ==> records == DeleteSource(old(records), s)
      ensures !ok ==> records == old(records)
    {
      ok := true;
      if s.name == "" { return; }
      ok := *;
      if ok {
        records := Others(records, s);
      }
    }

    method StoreCostRecords(rs: seq<CostRecord>) returns (ok: bool)
      modifies this`records
      ensures ok ==> records == InsertAll(old(records), rs)
      ensures !ok ==> records == old(records)
    {
      ok := true;
      if |rs| == 0 { return; }
      ok := *;
      if ok {
        var table := records;
        for i := 0 to |rs|
          invariant table == InsertAll(records, rs[..i])
        {
          assert rs[..i + 1][..i] == rs[..i];
          table := InsertOne(table, rs[i]);
        }
        assert rs[..|rs|] == rs;
        records := table;
      }
    }

    method MarkReportProcessed(id: ReportId, recordCount: nat) returns (ok: bool)
      modifies this`processed
      ensures ok ==> processed == old(processed)[id := recordCount]
      ensures !ok ==> processed == old(processed)
    {
      ok := *;
      if ok {
        processed := processed[id := recordCount];
      }
    }

    /** A checkpoint only moves forward. */
    method MarkIngestionCheckpoint(provider: Provider, at: Time) returns (ok: bool)
      modifies this`checkpoints
      ensures !ok ==> checkpoints == old(checkpoints)
      ensures ok ==> checkpoints.Keys == old(checkpoints).Keys + {provider} && checkpoints[provider] >= at
      ensures ok && provider !in old(checkpoints) ==> checkpoints[provider] == at
      ensures forall p <- old(checkpoints) :: p in checkpoints && checkpoints[p] >= old(checkpoints)[p]
      ensures forall p <- checkpoints :: p != provider ==>
        p in old(checkpoints) && checkpoints[p] == old(checkpoints)[p]
      ensures ok && provider in old(checkpoints) ==> checkpoints[provider] in {at, old(checkpoints)[provider]}
    {
      ok := *;
      if ok {
        var greatest := if provider in checkpoints && checkpoints[provider] > at then checkpoints[provider] else at;
        checkpoints := checkpoints[provider := greatest];
      }
    }
  }
}

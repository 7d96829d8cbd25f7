/** The AWS CUR collector: streaming of one file, the run over the listed files, and ingesting a file again. */
module CurCollector {
  import opened Calendar
  import opened Domain
  import opened CostStore
  import opened Collect
  import opened Streaming
  import opened Retention
  import opened CurParser

  /** A file as the reader finds it: not even a header, no usable one, or data rows after a good header, some of them
      unreadable, up to the end. */
  datatype Content = NoHeader | BadHeader | Lines(rows: seq<CsvRow>)

  datatype CurFile = CurFile(key: string, etag: string, content: Content)

  function ReportOf(bucket: string, f: CurFile): ReportId { ReportId(AWS, bucket, f.key, f.etag) }

  function DataRows(f: CurFile): seq<CsvRow> { if f.content.Lines? then f.content.rows else [] }

  function Records(h: Hashing, f: CurFile): seq<CostRecord> { Accepted(h, f.key, DataRows(f)) }

  function ReadableRows(rows: seq<CsvRow>): nat {
    if rows == [] then 0 else ReadableRows(rows[..|rows| - 1]) + if rows[|rows| - 1].Unreadable? then 0 else 1
  }

  /** parseCURCSVStream with the collector's callback. */
  method ParseCurCsvStream(stream: FileStream, h: Hashing, file: CurFile)
    returns (ok: bool, rowsParsed: nat, rowsSkipped: nat)
    requires stream.Valid() && stream.rows == [] && stream.buffer == [] && stream.Src() == Source(AWS, file.key)
    requires CollisionFree(h) && 1 <= stream.limit
    modifies stream, stream.run, stream.run.store`records, stream.run.store`processed
    ensures ok ==> stream.Valid() && stream.rows == Records(h, file) && !file.content.BadHeader?
    ensures ok ==> rowsParsed == ReadableRows(DataRows(file)) && |stream.rows| + rowsSkipped == |DataRows(file)|
    ensures !ok ==> stream.Valid() || stream.Halted()
  {
    hide MapRow, InProgress, HaltedState, Chunked, ConflictFree, Handed, Stored, Others, EarliestOf, AsCollected, Clear,
         CollisionFree, CallsBetween;
    rowsParsed, rowsSkipped := 0, 0;
    if file.content.NoHeader? { return true, 0, 0; }
    if file.content.BadHeader? { return false, 0, 0; }
    var rows := file.content.rows;
    var lineNumber := 1;
    for i := 0 to |rows|
      invariant stream.Valid() && |stream.buffer| < stream.limit
      invariant stream.rows == Accepted(h, file.key, rows[..i]) && lineNumber == i + 1
      invariant rowsParsed == ReadableRows(rows[..i]) && |stream.rows| + rowsSkipped == i
    {
      assert rows[..i + 1][..i] == rows[..i];
      lineNumber := lineNumber + 1;
      if rows[i].Unreadable? {
        UnreadableDropped(h, file.key, lineNumber);
        rowsSkipped := rowsSkipped + 1;
        continue;
      }
      rowsParsed := rowsParsed + 1;
      var record := MapRow(h, file.key, lineNumber, rows[i]);
      if record.None? {
        rowsSkipped := rowsSkipped + 1;
        continue;
      }
      var cancelled: bool := *;
      if cancelled { return false, rowsParsed, rowsSkipped; }
      NextLineClear(h, file.key, rows[..i], rows[i]);
      AcceptedBelong(h, file.key, rows[..i + 1]);
      ok := stream.Accept(record.value);
      if !ok { return; }
    }
    assert rows[..|rows|] == rows;
    ok := true;
  }

  /** streamCURSource. A failed file leaves its old records or none, unless the cleanup failed as well. */
  method StreamCurSource(run: ProviderRun, h: Hashing, bucket: string, file: CurFile, limit: nat)
    returns (ok: bool, cleaned: bool, accepted: nat, rowsParsed: nat, rowsSkipped: nat, ghost calls: seq<Call>)
    requires run.Consistent() && CollisionFree(h) && 1 <= limit && file.key != "" && AsCollected(run.store.records)
    modifies run, run.store`records, run.store`processed
    ensures run.Consistent() && AsCollected(run.store.records)
    ensures Others(run.store.records, Source(AWS, file.key)) == Others(old(run.store.records), Source(AWS, file.key))
    ensures ok ==> !file.content.BadHeader? && accepted == |Records(h, file)|
    ensures ok ==> rowsParsed == ReadableRows(DataRows(file)) && accepted + rowsSkipped == |DataRows(file)|
    ensures ok ==>
      run.calls == old(run.calls) + calls && Streamed(calls, ReportOf(bucket, file), Records(h, file), limit)
    ensures Bounded(old(run.calls), limit) ==> Bounded(run.calls, limit)
    ensures ok ==> run.store.records == Others(old(run.store.records), Source(AWS, file.key)) + Stored(calls)
    ensures ok ==> OfSource(run.store.records, Source(AWS, file.key)) == Stored(calls)
    ensures run.clock >= old(run.clock)
    ensures ok ==> Retains(OfSource(run.store.records, Source(AWS, file.key)), Records(h, file),
      AddDays(old(run.clock), -run.lookbackDays), AddDays(run.clock, -run.lookbackDays))
    ensures ok ==> run.store.processed == old(run.store.processed)[ReportOf(bucket, file) := |Records(h, file)|]
    ensures ok ==> run.handed == old(run.handed) + |Records(h, file)| && run.failed == old(run.failed)
    ensures !ok ==> run.store.processed == old(run.store.processed) && run.handed <= old(run.handed) + accepted
    ensures !ok && cleaned ==>
      run.store.records == old(run.store.records)
      || run.store.records == Others(old(run.store.records), Source(AWS, file.key))
  {
    hide Chunked, BelongTo, ConflictFree, AsCollected, EarliestOf, Others, OfSource, Stored, Handed, Streamed,
         InProgress, Accepted, ReadableRows, CallsBetween, Retains, Bounded;
    var stream := new FileStream(run, ReportOf(bucket, file), limit);
    ok, rowsParsed, rowsSkipped := ParseCurCsvStream(stream, h, file);
    stream.HandedWithin();
    accepted, cleaned, calls := stream.accepted, true, [];
    if ok {
      ok := stream.Flush();
    }
    if ok {
      ok := stream.Finish();
    }
    if ok {
      calls := stream.calls;
      StreamedBounded(stream.log, calls, stream.id, Records(h, file), limit);
      StreamRetains(calls, stream.id, Records(h, file), limit, AddDays(stream.started, -run.lookbackDays),
                    AddDays(run.clock, -run.lookbackDays));
      CleanupLeavesOthers(stream.before, stream.Src(), calls);
      StaysCollected(stream.before, stream.Src(), calls);
    } else if !stream.firstBatch {
      stream.BatchesWithin();
      cleaned := stream.Cleanup();
    } else {
      stream.BatchesWithin();
      NothingAcknowledged(stream);
    }
  }

  /** Before the first acknowledged call a stopped stream has at most deleted the source. */
  lemma NothingAcknowledged(stream: FileStream)
    requires (stream.Valid() || stream.Halted()) && stream.firstBatch
    ensures stream.run.store.records == stream.before || stream.run.store.records == Others(stream.before, stream.Src())
    ensures Others(stream.run.store.records, stream.Src()) == Others(stream.before, stream.Src())
    ensures AsCollected(stream.run.store.records)
  {
    assert Others(stream.before, stream.Src()) + [] == Others(stream.before, stream.Src());
    OthersTwice(stream.before, stream.Src());
    OthersMembers(stream.before, stream.Src());
  }

  // ---- a run over the listed files -----------------------------------------------------------

  datatype Result = Result(
    filesProcessed: nat, failures: nat, recordsProcessed: nat, errors: nat, hitFileLimit: bool, hitRuntimeLimit: bool)

  predicate HitLimit(r: Result) { r.hitFileLimit || r.hitRuntimeLimit }

  function Reports(bucket: string, files: seq<CurFile>): set<ReportId> { set f | f in files :: ReportOf(bucket, f) }

  function SourcesOf(files: seq<CurFile>): set<Source> { set f | f in files :: Source(AWS, f.key) }

  /** For every key the accepted rows of the last file that has it. */
  function LastRows(h: Hashing, files: seq<CurFile>): map<string, seq<CostRecord>> {
    if files == [] then map[]
    else
      var last := files[|files| - 1];
      LastRows(h, files[..|files| - 1])[last.key := Records(h, last)]
  }

  lemma LastRowsSnoc(h: Hashing, files: seq<CurFile>, file: CurFile)
    ensures LastRows(h, files + [file]) == LastRows(h, files)[file.key := Records(h, file)]
  {
    assert (files + [file])[..|files|] == files;
  }

  /** What a run started with. */
  datatype Start = Start(marks: set<ReportId>, handed: nat, failed: bool, clock: Time)

  ghost function StartOf(run: ProviderRun): Start
    reads run, run.store
  {
    Start(run.store.processed.Keys, run.handed, run.failed, run.clock)
  }

  /** What the objects hold was retained by streams of this run; without errors it is known of every consumed file. */
  ghost predicate HeldSince(r: Result, h: Hashing, consumed: seq<CurFile>, held: map<string, seq<CostRecord>>,
                            run: ProviderRun, began: Time)
    reads run, run.store
  {
    && began <= run.clock && (r.errors == 0 ==> held == LastRows(h, consumed))
    && Holds(held, AWS, run.store.records, AddDays(began, -run.lookbackDays), AddDays(run.clock, -run.lookbackDays))
  }

  /** What a run has done with the consumed files: each is processed or failed, and without errors all are
      marked and every accepted record reached the handler. */
  ghost predicate Accounted(r: Result, bucket: string, consumed: seq<CurFile>, run: ProviderRun, start: Start)
    reads run, run.store
  {
    && r.filesProcessed + r.failures == |consumed| && r.failures <= r.errors
    && run.Consistent() && AsCollected(run.store.records)
    && start.marks <= run.store.processed.Keys <= start.marks + Reports(bucket, consumed)
    && (r.errors == 0 ==> Reports(bucket, consumed) <= run.store.processed.Keys && run.failed == start.failed)
    && (r.errors == 0 ==> run.handed == start.handed + r.recordsProcessed)
    && run.handed <= start.handed + r.recordsProcessed
  }

  /** One file of the run: download, then stream. */
  method ConsumeFile(run: ProviderRun, h: Hashing, bucket: string, ghost consumed: seq<CurFile>, file: CurFile,
                     limit: nat, r: Result, ghost held: map<string, seq<CostRecord>>, ghost start: Start)
    returns (next: Result, ghost holds: map<string, seq<CostRecord>>)
    requires CollisionFree(h) && 1 <= limit && file.key != ""
    requires Accounted(r, bucket, consumed, run, start) && HeldSince(r, h, consumed, held, run, start.clock)
    requires Bounded(run.calls, limit)
    modifies run, run.store`records, run.store`processed
    ensures Accounted(next, bucket, consumed + [file], run, start) && Bounded(run.calls, limit)
    ensures HeldSince(next, h, consumed + [file], holds, run, start.clock)
    ensures Others(run.store.records, Source(AWS, file.key)) == Others(old(run.store.records), Source(AWS, file.key))
    ensures next.hitFileLimit == r.hitFileLimit && next.hitRuntimeLimit == r.hitRuntimeLimit && next.errors >= r.errors
  {
    hide Streamed, EarliestOf, AsCollected, Others, OfSource, Stored, Accepted, ReadableRows, Reports, CollisionFree,
         Retains, Holds, LastRows, Bounded;
    ReportsSnoc(bucket, consumed, file);
    LastRowsSnoc(h, consumed, file);
    ghost var before, clock, days := run.store.records, run.clock, run.lookbackDays;
    var downloaded: bool := *;
    if !downloaded {
      return r.(failures := r.failures + 1, errors := r.errors + 1), held;
    }
    var ok, cleaned, accepted, rowsParsed, rowsSkipped;
    ghost var calls;
    ok, cleaned, accepted, rowsParsed, rowsSkipped, calls := StreamCurSource(run, h, bucket, file, limit);
    HoldsAfter(held, AWS, before, run.store.records, file.key, Records(h, file), AddDays(start.clock, -days),
               AddDays(clock, -days), AddDays(clock, -days), AddDays(run.clock, -days));
    holds := if ok then held[file.key := Records(h, file)] else held - {file.key};
    next := r.(recordsProcessed := r.recordsProcessed + accepted);
    if ok {
      next := next.(filesProcessed := next.filesProcessed + 1);
    } else {
      next := next.(failures := next.failures + 1, errors := next.errors + 1);
    }
  }

  lemma ReportsAreAws(bucket: string, files: seq<CurFile>)
    ensures forall id :: id in Reports(bucket, files) ==> id.provider == AWS
  {}

  lemma ReportsSnoc(bucket: string, files: seq<CurFile>, f: CurFile)
    ensures Reports(bucket, files + [f]) == Reports(bucket, files) + {ReportOf(bucket, f)}
  {
    assert forall x :: x in files + [f] <==> x in files || x == f;
  }

  method CollectStream(run: ProviderRun, h: Hashing, bucket: string, files: seq<CurFile>, maxFiles: nat, limit: nat)
    returns (r: Result, ghost consumed: nat, ghost held: map<string, seq<CostRecord>>)
    requires run.Consistent() && CollisionFree(h) && 1 <= limit && AsCollected(run.store.records)
    requires Bounded(run.calls, limit) && forall f :: f in files ==> f.key != ""
    modifies run, run.store`records, run.store`processed
    ensures consumed <= |files| && consumed <= maxFiles
    ensures r.errors == 0 && !HitLimit(r) ==> consumed == |files|
    ensures r.hitFileLimit ==> consumed == maxFiles < |files|
    ensures r.hitRuntimeLimit ==> 0 < consumed
    ensures Accounted(r, bucket, files[..consumed], run, old(StartOf(run))) && Bounded(run.calls, limit)
    ensures HeldSince(r, h, files[..consumed], held, run, old(run.clock))
    ensures OnlyChanged(old(run.store.records), run.store.records, SourcesOf(files))
  {
    hide CollisionFree, OnlyChanged, Reports, AsCollected, SourcesOf, EarliestOf, Others, OfSource, Holds, LastRows;
    r := Result(0, 0, 0, 0, false, false);
    consumed, held := 0, map[];
    ghost var records := run.store.records;
    NothingConsumed(h, bucket, run, files);
    for i := 0 to |files|
      invariant consumed == i <= maxFiles && !HitLimit(r)
      invariant Accounted(r, bucket, files[..i], run, old(StartOf(run))) && Bounded(run.calls, limit)
      invariant HeldSince(r, h, files[..i], held, run, old(run.clock))
      invariant OnlyChanged(records, run.store.records, SourcesOf(files))
    {
      var cancelled: bool := *;
      if cancelled {
        r := r.(errors := r.errors + 1);
        break;
      }
      if i >= maxFiles {
        r := r.(hitFileLimit := true);
        break;
      }
      var late: bool := *;
      if i > 0 && late {
        r := r.(hitRuntimeLimit := true);
        break;
      }
      assert files[..i + 1] == files[..i] + [files[i]];
      SourceListed(files, files[i]);
      ghost var stored := run.store.records;
      r, held := ConsumeFile(run, h, bucket, files[..i], files[i], limit, r, held, old(StartOf(run)));
      OnlyChangedStep(records, stored, run.store.records, SourcesOf(files), Source(AWS, files[i].key));
      consumed := i + 1;
    }
  }

  lemma SourceListed(files: seq<CurFile>, f: CurFile)
    requires f in files
    ensures Source(AWS, f.key) in SourcesOf(files)
  {}

  lemma NothingConsumed(h: Hashing, bucket: string, run: ProviderRun, files: seq<CurFile>)
    requires run.Consistent() && AsCollected(run.store.records)
    ensures Accounted(Result(0, 0, 0, 0, false, false), bucket, files[..0], run, StartOf(run))
    ensures HeldSince(Result(0, 0, 0, 0, false, false), h, files[..0], map[], run, run.clock)
    ensures OnlyChanged(run.store.records, run.store.records, SourcesOf(files))
  {}

  // ---- ingesting a file again ----------------------------------------------------------------

  /** Every row is too old in both passes or in neither. */
  ghost predicate SameAge(rows: seq<CostRecord>, c: seq<Time>, d: seq<Time>)
    requires |rows| == |c| == |d|
  {
    forall i :: 0 <= i < |rows| ==> IsOld(rows[i], c[i]) == IsOld(rows[i], d[i])
  }

  /** With later cutoffs no more rows are stored, and as many only if the same. */
  lemma {:induction false} LaterStoresFewer(rows: seq<CostRecord>, c: seq<Time>, d: seq<Time>)
    requires |rows| == |c| == |d| && forall i :: 0 <= i < |rows| ==> c[i] <= d[i]
    ensures |StoredRows(rows, d)| <= |StoredRows(rows, c)|
    ensures |StoredRows(rows, d)| == |StoredRows(rows, c)| ==> SameAge(rows, c, d)
  {
    hide Normalize;
    if rows != [] {
      var last := |rows| - 1;
      LaterStoresFewer(rows[..last], c[..last], d[..last]);
    }
  }

  lemma {:induction false} SameAgeSameRows(rows: seq<CostRecord>, c: seq<Time>, d: seq<Time>)
    requires |rows| == |c| == |d| && SameAge(rows, c, d)
    ensures StoredRows(rows, c) == StoredRows(rows, d)
  {
    hide Normalize, IsOld;
    if rows != [] {
      var last := |rows| - 1;
      SameAgeSameRows(rows[..last], c[..last], d[..last]);
    }
  }

  /** The calls of the second pass come after those of the first. */
  ghost predicate Later(first: seq<Call>, second: seq<Call>) {
    forall c, d :: c in first && d in second ==> c.cutoff <= d.cutoff
  }

  lemma {:induction false} StoredRowsOwned(rows: seq<CostRecord>, cutoffs: seq<Time>, s: Source)
    requires |rows| == |cutoffs| && BelongTo(rows, s)
    ensures forall x :: x in StoredRows(rows, cutoffs) ==> Owns(s, x)
  {
    if rows != [] {
      var last := |rows| - 1;
      assert rows[last] in rows && OwnedBy(rows[last], s);
      assert forall r :: r in rows[..last] ==> r in rows;
      StoredRowsOwned(rows[..last], cutoffs[..last], s);
    }
  }

  /** A second pass over the same file, with any batch size, leaves what it stores itself. The store is the same as
      after the first pass if no row has become too old in between; since clocks do not go back, only then. */
  lemma ReingestSameIff(before: seq<CostRecord>, id: ReportId, rows: seq<CostRecord>, first: seq<Call>,
                        second: seq<Call>, limit: nat, other: nat)
    requires Streamed(first, id, rows, limit) && Streamed(second, id, rows, other) && BelongTo(rows, SourceOf(id))
    ensures Handed(first) == Handed(second) == rows
    ensures var once := Others(before, SourceOf(id)) + Stored(first);
            var twice := Others(once, SourceOf(id)) + Stored(second);
            && twice == Others(before, SourceOf(id)) + Stored(second)
            && (SameAge(rows, Cutoffs(first), Cutoffs(second)) ==> twice == once)
            && (Later(first, second) && twice == once ==> SameAge(rows, Cutoffs(first), Cutoffs(second)))
  {
    hide Streamed, StoredRows, SameAge, Others, Owns, BelongTo, Cutoffs;
    StreamStores(first, id, rows, limit);
    StreamStores(second, id, rows, other);
    StoredRowsOwned(rows, Cutoffs(first), SourceOf(id));
    ReplacedSource(before, SourceOf(id), Stored(first));
    if SameAge(rows, Cutoffs(first), Cutoffs(second)) {
      SameAgeSameRows(rows, Cutoffs(first), Cutoffs(second));
    }
    var rest := Others(before, SourceOf(id));
    if Later(first, second) && rest + Stored(second) == rest + Stored(first) {
      assert |rest + Stored(second)| == |rest + Stored(first)|;
      forall i | 0 <= i < |rows| ensures Cutoffs(first)[i] <= Cutoffs(second)[i] {
        var c := CutoffsFrom(first, i);
        var d := CutoffsFrom(second, i);
      }
      LaterStoresFewer(rows, Cutoffs(first), Cutoffs(second));
    }
  }
}

/** The OCI collector: streaming of one report, and the run over the listed candidates. */
module OciCollector {
  import opened Calendar
  import opened Domain
  import opened CostStore
  import opened Collect
  import opened Streaming
  import opened Retention

  /** Every limit is at least 1 once the configuration defaults are applied. */
  datatype Limits = Limits(maxFilesPerRun: nat, maxZeroYieldFiles: nat, maxMemoryBufferRecords: nat)

  predicate ValidLimits(l: Limits) {
    1 <= l.maxFilesPerRun && 1 <= l.maxZeroYieldFiles && 1 <= l.maxMemoryBufferRecords
  }

  /** A listed report with its content: the rows the parser yields, and whether reading breaks off after them. */
  datatype Candidate = Candidate(name: string, etag: string, rows: seq<CostRecord>, broken: bool)

  function ReportOf(bucket: string, c: Candidate): ReportId { ReportId(OCI, bucket, c.name, c.etag) }

  ghost predicate Parsed(c: Candidate) {
    c.name != "" && BelongTo(c.rows, Source(OCI, c.name))
  }

  predicate InSelectionWindow(r: CostRecord, since: Time) {
    IsZero(since) || IsZero(r.timestamp) || since <= r.timestamp
  }

  /** Whether a report holds a record of the selection window. */
  predicate Yields(rows: seq<CostRecord>, since: Time) {
    exists r :: r in rows && (since == ZERO_TIME || r.timestamp == ZERO_TIME || since <= r.timestamp)
  }

  lemma {:induction false} OciRowsConflictFree(rows: seq<CostRecord>, name: string)
    requires BelongTo(rows, Source(OCI, name))
    ensures ConflictFree([], rows)
  {
    if rows != [] {
      var init, last := rows[..|rows| - 1], rows[|rows| - 1];
      assert OwnedBy(last, Source(OCI, name));
      assert forall r :: r in init ==> r in rows;
      OciRowsConflictFree(init, name);
    }
  }

  lemma {:induction false} ConflictFreePrefix(rows: seq<CostRecord>, n: nat)
    requires n < |rows| && ConflictFree([], rows)
    ensures Clear(rows[..n], rows[n])
  {
    if n < |rows| - 1 {
      var init := rows[..|rows| - 1];
      ConflictFreePrefix(init, n);
      assert init[..n] == rows[..n];
    }
  }

  /** ParseStream: the rows one by one through the buffer, counting those of the selection window. */
  method ParseReport(stream: FileStream, report: Candidate, since: Time) returns (ok: bool, inWindow: nat)
    requires stream.Valid() && stream.rows == [] && stream.buffer == [] && stream.Src() == Source(OCI, report.name)
    requires Parsed(report) && 1 <= stream.limit
    modifies stream, stream.run, stream.run.store`records, stream.run.store`processed
    ensures ok ==> stream.Valid() && stream.rows == report.rows && !report.broken
    ensures ok ==> (inWindow > 0 <==> Yields(report.rows, since))
    ensures !ok ==> stream.Valid() || stream.Halted()
  {
    hide InProgress, HaltedState, Chunked, ConflictFree, Handed, Stored, Others, EarliestOf, AsCollected, Clear,
         CallsBetween;
    OciRowsConflictFree(report.rows, report.name);
    inWindow := 0;
    for i := 0 to |report.rows|
      invariant stream.Valid() && |stream.buffer| < stream.limit && stream.rows == report.rows[..i]
      invariant inWindow > 0 <==> exists r :: r in report.rows[..i] && InSelectionWindow(r, since)
    {
      ConflictFreePrefix(report.rows, i);
      assert report.rows[..i + 1] == report.rows[..i] + [report.rows[i]];
      var cancelled: bool := *;
      if cancelled { return false, inWindow; }
      if InSelectionWindow(report.rows[i], since) {
        inWindow := inWindow + 1;
      }
      ok := stream.Accept(report.rows[i]);
      if !ok { return; }
    }
    assert report.rows[..|report.rows|] == report.rows;
    ok := !report.broken;
  }

  /** One report from first byte to processed mark. On success its recent rows, unaltered, replace the source's
      records and the calls have the shape of a complete stream; on failure nothing is marked, and a successful cleanup
      leaves no record of the source. */
  method StreamObject(run: ProviderRun, bucket: string, report: Candidate, limit: nat, since: Time)
    returns (ok: bool, cleaned: bool, accepted: nat, inWindow: nat, ghost calls: seq<Call>)
    requires run.Consistent() && 1 <= limit && Parsed(report) && AsCollected(run.store.records)
    modifies run, run.store`records, run.store`processed
    ensures run.Consistent() && AsCollected(run.store.records)
    ensures Others(run.store.records, Source(OCI, report.name)) ==
        Others(old(run.store.records), Source(OCI, report.name))
    ensures ok ==> !report.broken && accepted == |report.rows| && (inWindow > 0 <==> Yields(report.rows, since))
    ensures ok ==> run.calls == old(run.calls) + calls && Streamed(calls, ReportOf(bucket, report), report.rows, limit)
    ensures Bounded(old(run.calls), limit) ==> Bounded(run.calls, limit)
    ensures ok ==> run.store.records == Others(old(run.store.records), Source(OCI, report.name)) + Stored(calls)
    ensures ok ==> OfSource(run.store.records, Source(OCI, report.name)) == Stored(calls)
    ensures run.clock >= old(run.clock)
    ensures ok ==> Retains(OfSource(run.store.records, Source(OCI, report.name)), report.rows,
      AddDays(old(run.clock), -run.lookbackDays), AddDays(run.clock, -run.lookbackDays))
    ensures ok ==> run.store.processed == old(run.store.processed)[ReportOf(bucket, report) := |report.rows|]
    ensures ok ==> run.handed == old(run.handed) + |report.rows| && run.failed == old(run.failed)
    ensures !ok ==> run.store.processed == old(run.store.processed) && run.handed <= old(run.handed) + accepted
    ensures !ok && cleaned ==> run.store.records == Others(old(run.store.records), Source(OCI, report.name))
  {
    hide Chunked, BelongTo, ConflictFree, AsCollected, EarliestOf, Others, OfSource, Stored, Handed, Streamed, Yields,
         InProgress, HaltedState, CallsBetween, Retains, Bounded;
    var stream := new FileStream(run, ReportOf(bucket, report), limit);
    ok, inWindow := ParseReport(stream, report, since);
    stream.HandedWithin();
    cleaned, accepted, calls := false, stream.accepted, [];
    if ok {
      ok := stream.Flush();
    }
    if ok {
      ok := stream.Finish();
    }
    if ok {
      calls := stream.calls;
      StreamedBounded(stream.log, calls, stream.id, report.rows, limit);
      StreamRetains(calls, stream.id, report.rows, limit, AddDays(stream.started, -run.lookbackDays),
                    AddDays(run.clock, -run.lookbackDays));
      CleanupLeavesOthers(stream.before, stream.Src(), calls);
      StaysCollected(stream.before, stream.Src(), calls);
    } else {
      stream.BatchesWithin();
      cleaned := stream.Cleanup();
    }
  }

  // ---- a run over the listed reports -------------------------------------------------------

  const MAX_CONSECUTIVE_OBJECT_FAILURES := 3

  function Identity(c: Candidate): string { c.name + "|" + c.etag }

  function Identities(objects: seq<Candidate>): set<string> { set c | c in objects :: Identity(c) }

  /** The candidates that are not skipped as repeated: the first of each identity. */
  function Firsts(objects: seq<Candidate>): seq<Candidate> {
    if objects == [] then []
    else
      var init, last := objects[..|objects| - 1], objects[|objects| - 1];
      if Identity(last) in Identities(init) then Firsts(init) else Firsts(init) + [last]
  }

  function Reports(bucket: string, objects: seq<Candidate>): set<ReportId> {
    set c | c in objects :: ReportOf(bucket, c)
  }

  /** Length of the run of false at the end. */
  function Trailing(flags: seq<bool>): nat {
    if flags == [] || flags[|flags| - 1] then 0 else 1 + Trailing(flags[..|flags| - 1])
  }

  ghost predicate AllFalse(flags: seq<bool>, from: nat, to: nat)
    requires from <= to <= |flags|
  {
    forall k :: from <= k < to ==> !flags[k]
  }

  /** No run of false is longer than max. */
  ghost predicate RunsWithin(flags: seq<bool>, max: nat) {
    forall i, j :: 0 <= i <= j <= |flags| && AllFalse(flags, i, j) ==> j - i <= max
  }

  lemma {:induction false} TrailingIsLongest(flags: seq<bool>, from: nat)
    requires from <= |flags| && AllFalse(flags, from, |flags|)
    ensures |flags| - from <= Trailing(flags)
  {
    if from < |flags| {
      assert AllFalse(flags[..|flags| - 1], from, |flags| - 1);
      TrailingIsLongest(flags[..|flags| - 1], from);
    }
  }

  lemma RunsSnoc(flags: seq<bool>, flag: bool, max: nat)
    requires RunsWithin(flags, max) && (flag || Trailing(flags) < max)
    ensures RunsWithin(flags + [flag], max)
    ensures Trailing(flags + [flag]) == if flag then 0 else Trailing(flags) + 1
  {
    var longer := flags + [flag];
    assert longer[..|flags|] == flags;
    forall i, j | 0 <= i <= j <= |longer| && AllFalse(longer, i, j) ensures j - i <= max {
      if j <= |flags| {
        assert AllFalse(flags, i, j);
      } else {
        TrailingIsLongest(longer, i);
      }
    }
  }

  function YieldsOf(files: seq<Candidate>, since: Time): seq<bool> {
    if files == [] then [] else YieldsOf(files[..|files| - 1], since) + [Yields(files[|files| - 1].rows, since)]
  }

  datatype Result = Result(
    filesSkipped: nat, filesProcessed: nat, failures: nat, recordsProcessed: nat,
    hitFileLimit: bool, hitRuntimeLimit: bool, hitZeroYieldLimit: bool)

  /** The variables of a run. */
  datatype Tally = Tally(
    result: Result, errors: nat, seen: set<string>, started: nat, zeroYield: nat, consecutiveFailures: nat)

  /** History of a run: the reports downloaded, which of the downloads ended well, the files processed, and the rows
      that each object is known to hold. */
  datatype Trail = Trail(
    downloads: seq<ReportId>, outcomes: seq<bool>, done: seq<Candidate>, held: map<string, seq<CostRecord>>)

  /** For every name the rows of the last candidate that has it. */
  function LastRows(files: seq<Candidate>): map<string, seq<CostRecord>> {
    if files == [] then map[]
    else
      var last := files[|files| - 1];
      LastRows(files[..|files| - 1])[last.name := last.rows]
  }

  lemma LastRowsSnoc(files: seq<Candidate>, c: Candidate)
    ensures LastRows(files + [c]) == LastRows(files)[c.name := c.rows]
  {
    assert (files + [c])[..|files|] == files;
  }

  ghost predicate Distinct(ids: seq<ReportId>) {
    ids == [] || (ids[|ids| - 1] !in ids[..|ids| - 1] && Distinct(ids[..|ids| - 1]))
  }

  /** The limits of a run, as kept after every candidate: no more downloads than allowed and none repeated, no long
      run of failed downloads, no long run of files without yield. */
  ghost predicate WithinLimits(started: nat, processed: nat, trail: Trail, limits: Limits, since: Time) {
    && |trail.downloads| == |trail.outcomes| == started <= limits.maxFilesPerRun
    && Distinct(trail.downloads)
    && RunsWithin(trail.outcomes, 3)
    && |trail.done| == processed
    && RunsWithin(YieldsOf(trail.done, since), limits.maxZeroYieldFiles)
  }

  /** The counters that stop a run agree with its history. */
  ghost predicate Counted(seen: set<string>, failures: nat, zeroYield: nat, trail: Trail, since: Time) {
    && (forall id :: id in trail.downloads ==> id.objectName + "|" + id.etag in seen)
    && Trailing(trail.outcomes) == failures
    && Trailing(YieldsOf(trail.done, since)) == zeroYield
  }

  function Started(t: Tally, c: Candidate): Tally {
    t.(seen := t.seen + {Identity(c)}, started := t.started + 1)
  }

  /** A download or a stream that failed. */
  function FileFailed(t: Tally): Tally {
    t.(result := t.result.(failures := t.result.failures + 1), errors := t.errors + 1,
        consecutiveFailures := t.consecutiveFailures + 1)
  }

  function StreamFailed(t: Tally, records: nat, cleaned: bool): Tally {
    var failed := FileFailed(t);
    failed.(result := failed.result.(recordsProcessed := failed.result.recordsProcessed + records),
            errors := if cleaned then failed.errors else failed.errors + 1)
  }

  function FileDone(t: Tally, records: nat, fruitful: bool): Tally {
    t.(result := t.result.(filesProcessed := t.result.filesProcessed + 1,
        recordsProcessed := t.result.recordsProcessed + records),
       zeroYield := if fruitful then 0 else t.zeroYield + 1, consecutiveFailures := 0)
  }

  ghost function Downloaded(trail: Trail, id: ReportId, ok: bool): Trail {
    trail.(downloads := trail.downloads + [id], outcomes := trail.outcomes + [ok])
  }

  lemma DownloadStep(t: Tally, trail: Trail, limits: Limits, since: Time, bucket: string, c: Candidate, ok: bool)
    requires WithinLimits(t.started, t.result.filesProcessed, trail, limits, since)
        && Counted(t.seen, t.consecutiveFailures, t.zeroYield, trail, since)
    requires t.started < limits.maxFilesPerRun && t.consecutiveFailures < MAX_CONSECUTIVE_OBJECT_FAILURES
        && Identity(c) !in t.seen
    ensures var t1 := Started(t, c).(consecutiveFailures := if ok then 0 else t.consecutiveFailures + 1);
            var trail1 := Downloaded(trail, ReportOf(bucket, c), ok);
            WithinLimits(t1.started, t1.result.filesProcessed, trail1, limits, since)
                && Counted(t1.seen, t1.consecutiveFailures, t1.zeroYield, trail1, since)
  {
    hide YieldsOf, RunsWithin, Trailing;
    RunsSnoc(trail.outcomes, ok, MAX_CONSECUTIVE_OBJECT_FAILURES);
    var ids := trail.downloads + [ReportOf(bucket, c)];
    assert ids[..|ids| - 1] == trail.downloads;
  }

  lemma DoneStep(t: Tally, trail: Trail, limits: Limits, since: Time, c: Candidate, records: nat)
    requires WithinLimits(t.started, t.result.filesProcessed, trail, limits, since)
        && Counted(t.seen, t.consecutiveFailures, t.zeroYield, trail, since)
    requires t.zeroYield < limits.maxZeroYieldFiles && t.consecutiveFailures == 0
    ensures var t1 := FileDone(t, records, Yields(c.rows, since));
            var trail1 := trail.(done := trail.done + [c]);
            WithinLimits(t1.started, t1.result.filesProcessed, trail1, limits, since)
                && Counted(t1.seen, t1.consecutiveFailures, t1.zeroYield, trail1, since)
  {
    hide Distinct, RunsWithin, Trailing, Yields, YieldsOf;
    YieldsSnoc(trail.done, c, since);
    RunsSnoc(YieldsOf(trail.done, since), Yields(c.rows, since), limits.maxZeroYieldFiles);
  }

  /** The limits do not depend on what the objects hold. */
  lemma HeldApart(started: nat, processed: nat, seen: set<string>, failures: nat, zeroYield: nat, trail: Trail,
                  held: map<string, seq<CostRecord>>, limits: Limits, since: Time)
    requires WithinLimits(started, processed, trail, limits, since) && Counted(seen, failures, zeroYield, trail, since)
    ensures WithinLimits(started, processed, trail.(held := held), limits, since)
        && Counted(seen, failures, zeroYield, trail.(held := held), since)
  {}

  lemma YieldsSnoc(files: seq<Candidate>, c: Candidate, since: Time)
    ensures YieldsOf(files + [c], since) == YieldsOf(files, since) + [Yields(c.rows, since)]
  {
    hide Yields;
    assert (files + [c])[..|files|] == files;
  }

  /** What the objects hold was retained by streams of this run. */
  ghost predicate HeldSince(held: map<string, seq<CostRecord>>, run: ProviderRun, began: Time)
    reads run, run.store
  {
    Holds(held, OCI, run.store.records, AddDays(began, -run.lookbackDays), AddDays(run.clock, -run.lookbackDays))
  }

  /** What the run has done to the store and the handler's history. */
  ghost predicate Recorded(t: Tally, trail: Trail, bucket: string, run: ProviderRun,
                           marks: map<ReportId, nat>, handed: nat, failed: bool, began: Time)
    reads run, run.store
  {
    && began <= run.clock && HeldSince(trail.held, run, began)
    && (t.errors == 0 ==> trail.held == LastRows(trail.done))
    && run.handed <= handed + t.result.recordsProcessed
    && run.Consistent() && AsCollected(run.store.records)
    && run.store.processed.Keys == marks.Keys + Reports(bucket, trail.done)
    && (forall id :: id in trail.downloads ==> id !in marks)
    && (t.errors == 0 ==>
       t.result.failures == 0 && run.handed == handed + t.result.recordsProcessed && run.failed == failed)
  }

  function SourcesOf(objects: seq<Candidate>): set<Source> { set c | c in objects :: Source(OCI, c.name) }

  /** One more candidate is accounted for; the run stops only over an error or the zero-yield limit. */
  ghost predicate Advanced(t: Tally, next: Tally, stop: bool, c: Candidate, limits: Limits) {
    && next.seen == t.seen + {Identity(c)} && next.errors >= t.errors
    && next.result.filesSkipped == t.result.filesSkipped
    && next.result.filesProcessed + next.result.failures == t.result.filesProcessed + t.result.failures + 1
    && next.result.hitFileLimit == t.result.hitFileLimit && next.result.hitRuntimeLimit == t.result.hitRuntimeLimit
    && (next.result.hitZeroYieldLimit ==> stop || t.result.hitZeroYieldLimit)
    && (!stop ==>
        next.consecutiveFailures < MAX_CONSECUTIVE_OBJECT_FAILURES
        && next.zeroYield < limits.maxZeroYieldFiles)
    && (stop ==> next.errors > 0 || next.result.hitZeroYieldLimit)
    && (next.result.hitZeroYieldLimit ==> t.result.hitZeroYieldLimit || next.zeroYield >= limits.maxZeroYieldFiles)
  }

  /** Streams a report and keeps track of what the objects hold. */
  method StreamTracked(run: ProviderRun, bucket: string, c: Candidate, limit: nat, since: Time,
                       ghost held: map<string, seq<CostRecord>>, ghost began: Time)
    returns (ok: bool, cleaned: bool, accepted: nat, fruitful: bool)
    requires run.Consistent() && 1 <= limit && Parsed(c) && AsCollected(run.store.records)
    requires began <= run.clock && HeldSince(held, run, began) && Bounded(run.calls, limit)
    modifies run, run.store`records, run.store`processed
    ensures run.Consistent() && AsCollected(run.store.records) && began <= run.clock
    ensures HeldSince(HeldAfter(held, c, ok), run, began) && Bounded(run.calls, limit)
    ensures Others(run.store.records, Source(OCI, c.name)) == Others(old(run.store.records), Source(OCI, c.name))
    ensures ok ==> accepted == |c.rows| && (fruitful <==> Yields(c.rows, since))
    ensures ok ==> run.store.processed.Keys == old(run.store.processed).Keys + {ReportOf(bucket, c)}
    ensures ok ==> run.handed == old(run.handed) + accepted && run.failed == old(run.failed)
    ensures !ok ==> run.store.processed == old(run.store.processed) && run.handed <= old(run.handed) + accepted
  {
    hide EarliestOf, Parsed, Retains, Others, OfSource, AsCollected, Yields, Streamed, Stored, Holds, Bounded;
    ghost var before, clock, days := run.store.records, run.clock, run.lookbackDays;
    var inWindow;
    ghost var calls;
    ok, cleaned, accepted, inWindow, calls := StreamObject(run, bucket, c, limit, since);
    fruitful := inWindow > 0;
    HoldsAfter(held, OCI, before, run.store.records, c.name, c.rows, AddDays(began, -days), AddDays(clock, -days),
               AddDays(clock, -days), AddDays(run.clock, -days));
  }

  /** A streamed object holds its rows; of one whose stream failed nothing is known. */
  ghost function HeldAfter(held: map<string, seq<CostRecord>>, c: Candidate, ok: bool): map<string, seq<CostRecord>> {
    if ok then held[c.name := c.rows] else held - {c.name}
  }

  /** Downloads and streams one candidate. */
  method IngestObject(run: ProviderRun, bucket: string, c: Candidate, limits: Limits, since: Time, t: Tally,
                      ghost trail: Trail, ghost marks: map<ReportId, nat>, ghost handed: nat, ghost failed: bool,
                      ghost began: Time)
    returns (next: Tally, stop: bool, ghost longer: Trail)
    requires ValidLimits(limits) && Parsed(c)
    requires WithinLimits(t.started, t.result.filesProcessed, trail, limits, since)
        && Counted(t.seen, t.consecutiveFailures, t.zeroYield, trail, since)
    requires Recorded(t, trail, bucket, run, marks, handed, failed, began)
    requires Bounded(run.calls, limits.maxMemoryBufferRecords)
    requires t.started < limits.maxFilesPerRun && Identity(c) !in t.seen && ReportOf(bucket, c) !in marks
    requires t.consecutiveFailures < MAX_CONSECUTIVE_OBJECT_FAILURES && t.zeroYield < limits.maxZeroYieldFiles
    modifies run, run.store`records, run.store`processed
    ensures WithinLimits(next.started, next.result.filesProcessed, longer, limits, since)
        && Counted(next.seen, next.consecutiveFailures, next.zeroYield, longer, since)
    ensures Recorded(next, longer, bucket, run, marks, handed, failed, began)
    ensures longer.done == trail.done || longer.done == trail.done + [c]
    ensures Bounded(run.calls, limits.maxMemoryBufferRecords)
    ensures Others(run.store.records, Source(OCI, c.name)) == Others(old(run.store.records), Source(OCI, c.name))
    ensures Advanced(t, next, stop, c, limits)
    ensures next.errors == 0 ==> ReportOf(bucket, c) in run.store.processed
    ensures old(run.store.processed).Keys <= run.store.processed.Keys
            <= old(run.store.processed).Keys + {ReportOf(bucket, c)}
  {
    hide YieldsOf, RunsWithin, Trailing, Distinct, Yields, Streamed, Others, OfSource, Stored, AsCollected, Reports,
         EarliestOf, Parsed, HeldSince, LastRows, Bounded;
    hide WithinLimits, Counted;
    LastRowsSnoc(trail.done, c);
    ReportsSnoc(bucket, trail.done, c);
    var t1 := Started(t, c);
    var downloaded: bool := *;
    if !downloaded {
      next, longer := FileFailed(t1), Downloaded(trail, ReportOf(bucket, c), false);
      DownloadStep(t, trail, limits, since, bucket, c, false);
      stop := next.consecutiveFailures >= MAX_CONSECUTIVE_OBJECT_FAILURES;
      return;
    }
    var ok, cleaned, accepted, fruitful :=
        StreamTracked(run, bucket, c, limits.maxMemoryBufferRecords, since, trail.held, began);
    StreamedStep(t, trail, limits, since, bucket, c, ok, accepted, cleaned, fruitful);
    longer := AfterStream(trail, bucket, c, ok);
    if ok {
      next := FileDone(t1, accepted, fruitful);
      stop := next.zeroYield >= limits.maxZeroYieldFiles;
      if stop {
        next := next.(result := next.result.(hitZeroYieldLimit := true));
      }
    } else {
      next := StreamFailed(t1, accepted, cleaned);
      var cancelled: bool := *;
      stop := cancelled || next.consecutiveFailures >= MAX_CONSECUTIVE_OBJECT_FAILURES;
    }
  }

  /** The history after a stream: a file more is done and holds its rows, or nothing is known of what it holds. */
  ghost function AfterStream(trail: Trail, bucket: string, c: Candidate, ok: bool): Trail {
    var longer := Downloaded(trail, ReportOf(bucket, c), ok);
    longer.(done := if ok then trail.done + [c] else trail.done, held := HeldAfter(trail.held, c, ok))
  }

  lemma StreamedStep(t: Tally, trail: Trail, limits: Limits, since: Time, bucket: string, c: Candidate, ok: bool,
                     records: nat, cleaned: bool, fruitful: bool)
    requires WithinLimits(t.started, t.result.filesProcessed, trail, limits, since)
        && Counted(t.seen, t.consecutiveFailures, t.zeroYield, trail, since)
    requires t.started < limits.maxFilesPerRun && Identity(c) !in t.seen && t.zeroYield < limits.maxZeroYieldFiles
    requires t.consecutiveFailures < MAX_CONSECUTIVE_OBJECT_FAILURES && (ok ==> (fruitful <==> Yields(c.rows, since)))
    ensures var t1 := if ok then FileDone(Started(t, c), records, fruitful)
                      else StreamFailed(Started(t, c), records, cleaned);
            var longer := AfterStream(trail, bucket, c, ok);
            WithinLimits(t1.started, t1.result.filesProcessed, longer, limits, since)
                && Counted(t1.seen, t1.consecutiveFailures, t1.zeroYield, longer, since)
  {
    hide YieldsOf, RunsWithin, Trailing, Distinct, Yields, WithinLimits, Counted;
    var t1, longer := Started(t, c), Downloaded(trail, ReportOf(bucket, c), ok);
    DownloadStep(t, trail, limits, since, bucket, c, ok);
    if ok {
      DoneStep(t1.(consecutiveFailures := 0), longer, limits, since, c, records);
      var t2 := FileDone(t1.(consecutiveFailures := 0), records, Yields(c.rows, since));
      HeldApart(t2.started, t2.result.filesProcessed, t2.seen, t2.consecutiveFailures, t2.zeroYield,
                longer.(done := longer.done + [c]), trail.held[c.name := c.rows], limits, since);
    } else {
      HeldApart(t1.started, t1.result.filesProcessed, t1.seen, t.consecutiveFailures + 1, t1.zeroYield, longer,
                trail.held - {c.name}, limits, since);
    }
  }

  predicate HitLimit(r: Result) { r.hitFileLimit || r.hitRuntimeLimit || r.hitZeroYieldLimit }

  /** The reports marked so far: none but first candidates, and without errors all of them. */
  ghost predicate Marked(bucket: string, consumed: seq<Candidate>, before: set<ReportId>, now: set<ReportId>,
                         errors: nat) {
    && before <= now <= before + Reports(bucket, Firsts(consumed))
    && (errors == 0 ==> Reports(bucket, Firsts(consumed)) <= now)
  }

  lemma MarkedSkip(bucket: string, consumed: seq<Candidate>, c: Candidate, before: set<ReportId>, now: set<ReportId>,
                   errors: nat)
    requires Marked(bucket, consumed, before, now, errors) && Identity(c) in Identities(consumed)
    ensures Marked(bucket, consumed + [c], before, now, errors)
  {
    assert (consumed + [c])[..|consumed|] == consumed;
  }

  lemma MarkedStep(bucket: string, consumed: seq<Candidate>, c: Candidate, before: set<ReportId>, now: set<ReportId>,
                   later: set<ReportId>, errors: nat, moreErrors: nat)
    requires Marked(bucket, consumed, before, now, errors) && Identity(c) !in Identities(consumed)
    requires now <= later <= now + {ReportOf(bucket, c)} && errors <= moreErrors
    requires moreErrors == 0 ==> ReportOf(bucket, c) in later
    ensures Marked(bucket, consumed + [c], before, later, moreErrors)
  {
    var firsts := Firsts(consumed);
    assert (consumed + [c])[..|consumed|] == consumed;
    ReportsSnoc(bucket, firsts, c);
  }

  lemma IdentitiesSnoc(consumed: seq<Candidate>, c: Candidate)
    ensures Identities(consumed + [c]) == Identities(consumed) + {Identity(c)}
  {
    assert forall x :: x in consumed + [c] <==> x in consumed || x == c;
  }

  /** The part of the run's result that does not depend on how it ends. */
  ghost predicate Accounted(t: Tally, trail: Trail, bucket: string, consumed: seq<Candidate>, limits: Limits,
                            since: Time, before: set<ReportId>, now: set<ReportId>) {
    && t.result.filesSkipped + t.result.filesProcessed + t.result.failures == |consumed|
    && WithinLimits(t.started, t.result.filesProcessed, trail, limits, since)
    && Marked(bucket, consumed, before, now, t.errors)
    && forall c :: c in trail.done ==> c in consumed
  }

  /** What holds besides while the run goes on. */
  ghost predicate Continuing(t: Tally, trail: Trail, consumed: seq<Candidate>, limits: Limits, since: Time) {
    && Counted(t.seen, t.consecutiveFailures, t.zeroYield, trail, since)
    && t.seen == Identities(consumed) && !HitLimit(t.result)
    && t.consecutiveFailures < MAX_CONSECUTIVE_OBJECT_FAILURES && t.zeroYield < limits.maxZeroYieldFiles
  }

  /** What each limit means when it stops a run. */
  ghost predicate LimitReached(t: Tally, limits: Limits) {
    && (t.result.hitFileLimit ==> t.started == limits.maxFilesPerRun)
    && (t.result.hitRuntimeLimit ==> t.started > 0)
    && (t.result.hitZeroYieldLimit ==> t.zeroYield >= limits.maxZeroYieldFiles)
  }

  /** One turn of the run's loop. `taken` says whether the candidate is accounted for or left for a later run. */
  method ConsumeCandidate(run: ProviderRun, bucket: string, ghost consumed: seq<Candidate>, c: Candidate,
                          limits: Limits, since: Time, t: Tally, ghost trail: Trail, ghost marks: map<ReportId, nat>,
                          ghost handed: nat, ghost failed: bool, ghost began: Time)
    returns (next: Tally, stop: bool, taken: bool, ghost longer: Trail)
    requires ValidLimits(limits) && Parsed(c)
    requires Accounted(t, trail, bucket, consumed, limits, since, marks.Keys, run.store.processed.Keys)
    requires Continuing(t, trail, consumed, limits, since)
        && Recorded(t, trail, bucket, run, marks, handed, failed, began)
        && Bounded(run.calls, limits.maxMemoryBufferRecords)
    modifies run, run.store`records, run.store`processed
    ensures taken ==>
      Accounted(next, longer, bucket, consumed + [c], limits, since, marks.Keys, run.store.processed.Keys)
    ensures !taken ==> Accounted(next, longer, bucket, consumed, limits, since, marks.Keys, run.store.processed.Keys)
    ensures Recorded(next, longer, bucket, run, marks, handed, failed, began)
    ensures Bounded(run.calls, limits.maxMemoryBufferRecords)
    ensures !stop ==> taken && Continuing(next, longer, consumed + [c], limits, since)
    ensures stop ==> next.errors > 0 || HitLimit(next.result)
    ensures LimitReached(next, limits)
    ensures Others(run.store.records, Source(OCI, c.name)) == Others(old(run.store.records), Source(OCI, c.name))
  {
    hide WithinLimits, Marked, Identities, Parsed, Others, Yields, YieldsOf, Trailing, RunsWithin, EarliestOf,
         Reports, Firsts, HeldSince, LastRows, Bounded;
    next, longer, stop, taken := t, trail, false, true;
    ghost var now := run.store.processed.Keys;
    IdentitiesSnoc(consumed, c);
    StartedWithin(t, trail, limits, since);
    var late: bool := *;
    if t.started > 0 && late {
      next := t.(result := t.result.(hitRuntimeLimit := true));
      return next, true, false, longer;
    }
    if Identity(c) in t.seen {
      MarkedSkip(bucket, consumed, c, marks.Keys, now, t.errors);
      next := t.(result := t.result.(filesSkipped := t.result.filesSkipped + 1));
      return;
    }
    var readable: bool := *;
    if !readable {
      next := t.(seen := t.seen + {Identity(c)}, errors := t.errors + 1,
          result := t.result.(failures := t.result.failures + 1));
    } else if ReportOf(bucket, c) in run.store.processed {
      next := t.(seen := t.seen + {Identity(c)}, result := t.result.(filesSkipped := t.result.filesSkipped + 1));
    } else if t.started >= limits.maxFilesPerRun {
      next := t.(result := t.result.(hitFileLimit := true));
      return next, true, false, longer;
    } else {
      NotMarkedBefore(bucket, consumed, c, marks.Keys, now, t.errors);
      next, stop, longer := IngestObject(run, bucket, c, limits, since, t, trail, marks, handed, failed, began);
    }
    MarkedStep(bucket, consumed, c, marks.Keys, now, run.store.processed.Keys, t.errors, next.errors);
  }

  lemma NotMarkedBefore(bucket: string, consumed: seq<Candidate>, c: Candidate, before: set<ReportId>,
                        now: set<ReportId>, errors: nat)
    requires Marked(bucket, consumed, before, now, errors) && ReportOf(bucket, c) !in now
    ensures ReportOf(bucket, c) !in before
  {}

  lemma StartedWithin(t: Tally, trail: Trail, limits: Limits, since: Time)
    requires WithinLimits(t.started, t.result.filesProcessed, trail, limits, since)
    ensures t.started <= limits.maxFilesPerRun
  {}

  /** A run over the listed candidates. `consumed` of them are accounted for: skipped, processed or failed. */
  method CollectStream(run: ProviderRun, bucket: string, objects: seq<Candidate>, limits: Limits, since: Time)
    returns (t: Tally, ghost trail: Trail, ghost consumed: nat)
    requires run.Consistent() && ValidLimits(limits) && AsCollected(run.store.records)
    requires forall c :: c in objects ==> Parsed(c)
    requires Bounded(run.calls, limits.maxMemoryBufferRecords)
    modifies run, run.store`records, run.store`processed
    ensures consumed <= |objects| && (t.errors == 0 && !HitLimit(t.result) ==> consumed == |objects|)
    ensures Accounted(t, trail, bucket, objects[..consumed], limits, since, old(run.store.processed).Keys,
        run.store.processed.Keys)
    ensures LimitReached(t, limits) && Bounded(run.calls, limits.maxMemoryBufferRecords)
    ensures Recorded(t, trail, bucket, run, old(run.store.processed), old(run.handed), old(run.failed), old(run.clock))
    ensures OnlyChanged(old(run.store.records), run.store.records, SourcesOf(objects))
  {
    hide *;
    t := Tally(Result(0, 0, 0, 0, false, false, false), 0, {}, 0, 0, 0);
    trail := Trail([], [], [], map[]);
    consumed := 0;
    Initially(bucket, limits, since, run, objects);
    ghost var marks, records := run.store.processed, run.store.records;
    for i := 0 to |objects|
      invariant consumed == i && (forall c :: c in objects ==> Parsed(c))
      invariant Accounted(t, trail, bucket, objects[..i], limits, since, marks.Keys, run.store.processed.Keys)
      invariant Continuing(t, trail, objects[..i], limits, since) && LimitReached(t, limits)
      invariant Bounded(run.calls, limits.maxMemoryBufferRecords)
      invariant Recorded(t, trail, bucket, run, marks, old(run.handed), old(run.failed), old(run.clock))
      invariant OnlyChanged(records, run.store.records, SourcesOf(objects))
    {
      var cancelled: bool := *;
      if cancelled {
        Interrupted(t, trail, bucket, objects[..i], limits, since, run, marks, old(run.handed), old(run.failed),
                    old(run.clock));
        t := t.(errors := t.errors + 1);
        break;
      }
      assert objects[..i + 1] == objects[..i] + [objects[i]];
      SourceListed(objects, objects[i]);
      ghost var stored := run.store.records;
      var stop, taken;
      t, stop, taken, trail :=
          ConsumeCandidate(run, bucket, objects[..i], objects[i], limits, since, t, trail, marks, old(run.handed),
            old(run.failed), old(run.clock));
      OnlyChangedStep(records, stored, run.store.records, SourcesOf(objects), Source(OCI, objects[i].name));
      consumed := if taken then i + 1 else i;
      if stop { break; }
    }
  }

  lemma Interrupted(t: Tally, trail: Trail, bucket: string, consumed: seq<Candidate>, limits: Limits, since: Time,
                    run: ProviderRun, marks: map<ReportId, nat>, handed: nat, failed: bool, began: Time)
    requires Accounted(t, trail, bucket, consumed, limits, since, marks.Keys, run.store.processed.Keys)
    requires Recorded(t, trail, bucket, run, marks, handed, failed, began)
    ensures var t1 := t.(errors := t.errors + 1);
            && Accounted(t1, trail, bucket, consumed, limits, since, marks.Keys, run.store.processed.Keys)
            && (LimitReached(t, limits) ==> LimitReached(t1, limits))
            && Recorded(t1, trail, bucket, run, marks, handed, failed, began)
  {}

  lemma NothingReported(bucket: string)
    ensures Reports(bucket, []) == {}
  {}

  lemma SourceListed(objects: seq<Candidate>, c: Candidate)
    requires c in objects
    ensures Source(OCI, c.name) in SourcesOf(objects)
  {}

  lemma ReportsAreOci(bucket: string, objects: seq<Candidate>)
    ensures forall id :: id in Reports(bucket, objects) ==> id.provider == OCI
  {}

  lemma ReportsSnoc(bucket: string, objects: seq<Candidate>, c: Candidate)
    ensures Reports(bucket, objects + [c]) == Reports(bucket, objects) + {ReportOf(bucket, c)}
  {
    assert forall x :: x in objects + [c] <==> x in objects || x == c;
  }

  lemma Initially(bucket: string, limits: Limits, since: Time, run: ProviderRun, objects: seq<Candidate>)
    requires run.Consistent() && ValidLimits(limits) && AsCollected(run.store.records)
    ensures var t, trail := Tally(Result(0, 0, 0, 0, false, false, false), 0, {}, 0, 0, 0), Trail([], [], [], map[]);
            && Accounted(t, trail, bucket, objects[..0], limits, since, run.store.processed.Keys,
               run.store.processed.Keys)
            && Continuing(t, trail, objects[..0], limits, since) && LimitReached(t, limits)
            && Recorded(t, trail, bucket, run, run.store.processed, run.handed, run.failed, run.clock)
    ensures OnlyChanged(run.store.records, run.store.records, SourcesOf(objects))
  {}

  // ---- which candidates a complete run marks -------------------------------------------------

  /** Equal identities mean the same report. */
  ghost predicate Faithful(objects: seq<Candidate>) {
    forall a, b :: a in objects && b in objects && Identity(a) == Identity(b) ==> a.name == b.name && a.etag == b.etag
  }

  lemma {:induction false} FirstsListed(objects: seq<Candidate>)
    ensures forall f :: f in Firsts(objects) ==> f in objects
  {
    if objects != [] {
      FirstsListed(objects[..|objects| - 1]);
    }
  }

  /** Every candidate's identity has exactly one first candidate. */
  lemma {:induction false} FirstOf(objects: seq<Candidate>, c: Candidate) returns (f: Candidate)
    requires c in objects
    ensures f in Firsts(objects) && Identity(f) == Identity(c)
    ensures forall g :: g in Firsts(objects) && Identity(g) == Identity(c) ==> g == f
  {
    hide Identity;
    var init, last := objects[..|objects| - 1], objects[|objects| - 1];
    FirstsListed(init);
    if c in init {
      f := FirstOf(init, c);
      assert Identity(c) in Identities(init);
    } else if Identity(c) in Identities(init) {
      var d :| d in init && Identity(d) == Identity(c);
      f := FirstOf(init, d);
    } else {
      f := c;
      assert forall g :: g in Firsts(init) ==> Identity(g) in Identities(init);
    }
  }

  /** Every candidate is the same report as the first of its identity, or marked already. */
  ghost predicate Unmistaken(bucket: string, objects: seq<Candidate>, marks: set<ReportId>) {
    forall a, b :: a in Firsts(objects) && b in objects && Identity(a) == Identity(b) ==>
      (a.name == b.name && a.etag == b.etag) || ReportOf(bucket, b) in marks
  }

  /** A complete run over these marks, which adds the first candidates, leaves every listed report marked exactly when
      each is the same as the first of its identity or was marked before. */
  lemma AllMarkedIff(bucket: string, objects: seq<Candidate>, marks: set<ReportId>)
    ensures Reports(bucket, objects) <= marks + Reports(bucket, Firsts(objects)) <==>
      Unmistaken(bucket, objects, marks)
  {
    hide Firsts, Identity;
    FirstsListed(objects);
    if Unmistaken(bucket, objects, marks) {
      forall c | c in objects ensures ReportOf(bucket, c) in marks + Reports(bucket, Firsts(objects)) {
        var f := FirstOf(objects, c);
        assert ReportOf(bucket, f) in Reports(bucket, Firsts(objects));
      }
    }
    if Reports(bucket, objects) <= marks + Reports(bucket, Firsts(objects)) {
      forall a, b | a in Firsts(objects) && b in objects && Identity(a) == Identity(b)
          ensures (a.name == b.name && a.etag == b.etag) || ReportOf(bucket, b) in marks {
        assert ReportOf(bucket, b) in Reports(bucket, objects);
        if ReportOf(bucket, b) !in marks {
          var g :| g in Firsts(objects) && ReportOf(bucket, g) == ReportOf(bucket, b);
          SameReport(bucket, g, b);
          var f := FirstOf(objects, b);
        }
      }
    }
  }

  lemma SameReport(bucket: string, a: Candidate, b: Candidate)
    requires ReportOf(bucket, a) == ReportOf(bucket, b)
    ensures a.name == b.name && a.etag == b.etag && Identity(a) == Identity(b)
  {}

  /** On faithful identities a complete run marks everything, whatever was marked before. */
  lemma FaithfulUnmistaken(bucket: string, objects: seq<Candidate>, marks: set<ReportId>)
    requires Faithful(objects)
    ensures Unmistaken(bucket, objects, marks)
  {
    hide Firsts, Identity;
    FirstsListed(objects);
  }

  /** Entity tags without the separator keep identities apart. */
  lemma TagsKeepApart(objects: seq<Candidate>)
    requires forall c :: c in objects ==> '|' !in c.etag
    ensures Faithful(objects) && forall bucket, marks :: Unmistaken(bucket, objects, marks)
  {
    hide Firsts;
    forall a, b | a in objects && b in objects && Identity(a) == Identity(b)
        ensures a.name == b.name && a.etag == b.etag {
      if |a.name| < |b.name| {
        SeparatorInTag(a, b);
      } else if |b.name| < |a.name| {
        SeparatorInTag(b, a);
      } else {
        assert a.name == Identity(a)[..|a.name|] && a.etag == Identity(a)[|a.name| + 1..];
        assert b.name == Identity(b)[..|b.name|] && b.etag == Identity(b)[|b.name| + 1..];
      }
    }
    forall bucket, marks ensures Unmistaken(bucket, objects, marks) {
      FaithfulUnmistaken(bucket, objects, marks);
    }
  }

  lemma SeparatorInTag(a: Candidate, b: Candidate)
    requires Identity(a) == Identity(b) && |a.name| < |b.name|
    ensures '|' in a.etag
  {
    assert Identity(b)[|b.name|] == '|';
    assert Identity(a)[|b.name|] == a.etag[|b.name| - |a.name| - 1];
  }

  /** Two reports whose names and tags run together the same way: the second is skipped, and stays
      unmarked unless it was marked before. */
  lemma IdentityCollision(bucket: string)
    ensures var objects := [Candidate("a|b", "c", [], false), Candidate("a", "b|c", [], false)];
            && Identity(objects[0]) == Identity(objects[1])
            && Firsts(objects) == [objects[0]]
            && ReportOf(bucket, objects[1]) !in Reports(bucket, Firsts(objects))
            && forall marks :: Unmistaken(bucket, objects, marks) <==> ReportOf(bucket, objects[1]) in marks
  {
    hide Reports, Unmistaken;
    var a, b := Candidate("a|b", "c", [], false), Candidate("a", "b|c", [], false);
    assert Identity(a) == "a|b|c" == Identity(b);
    OnlyFirst(a, b);
    ReportsSnoc(bucket, [], a);
    NothingReported(bucket);
    assert [] + [a] == [a];
    forall marks ensures Unmistaken(bucket, [a, b], marks) <==> ReportOf(bucket, b) in marks {
      MistakenPair(bucket, a, b, marks);
    }
  }

  lemma OnlyFirst(a: Candidate, b: Candidate)
    requires Identity(a) == Identity(b)
    ensures Firsts([a, b]) == [a]
  {
    hide Identity;
    assert [a, b][..1] == [a] && [a][..0] == [] && a in [a];
    assert Firsts([a]) == [] + [a];
  }

  lemma MistakenPair(bucket: string, a: Candidate, b: Candidate, marks: set<ReportId>)
    requires Firsts([a, b]) == [a] && Identity(a) == Identity(b) && a.name != b.name
    ensures Unmistaken(bucket, [a, b], marks) <==> ReportOf(bucket, b) in marks
  {
    hide Firsts, Identity;
    assert a in [a] && b in [a, b];
  }
}

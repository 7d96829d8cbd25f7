/** The buffer both file collectors cut parsed records into batches with, and what a finished or
    failed file leaves in the store. */
module Streaming {
  import opened Calendar
  import opened Domain
  import opened CostStore
  import opened Collect

  // ---- the shape of the handler calls of one file -------------------------------------

  /** Acknowledged non-final batches: 1 to limit records each, First on exactly the first, rows in order. */
  ghost predicate Chunked(calls: seq<Call>, id: ReportId, rows: seq<CostRecord>, limit: nat) {
    && (forall i :: 0 <= i < |calls| ==> IsChunk(calls[i], id, i == 0, limit))
    && Handed(calls) == rows
  }

  ghost predicate IsChunk(c: Call, id: ReportId, first: bool, limit: nat) {
    c.acked && !c.batch.final && c.batch.id == id && c.batch.first == first && 1 <= |c.batch.records| <= limit
  }

  /** A complete stream: the chunks, then one Final batch with the true record count. */
  ghost predicate Streamed(calls: seq<Call>, id: ReportId, rows: seq<CostRecord>, limit: nat) {
    calls != [] &&
    var last := calls[|calls| - 1];
    && last.acked && last.batch == Batch(id, |rows|, [], |calls| == 1, true)
    && Chunked(calls[..|calls| - 1], id, rows, limit)
  }

  // ---- the records of one file ----------------------------------------------------------

  /** What the parsers write: provider and object of the file, and for CUR the file key as well. */
  ghost predicate BelongTo(rows: seq<CostRecord>, s: Source) {
    forall r :: r in rows ==> OwnedBy(r, s)
  }

  ghost predicate OwnedBy(r: CostRecord, s: Source) {
    && r.provider == s.provider && r.sourceObject == s.name && ScopeAsWritten(r)
    && (r.provider == AWS ==> IsCur(r) && r.line.fileKey == s.name)
  }

  lemma {:induction false} RetainedFrom(raw: seq<CostRecord>, cutoff: Time)
    ensures forall x :: x in Retained(raw, cutoff) ==> exists r :: r in raw && x == Normalize(r)
  {
    if raw != [] {
      var init, last := raw[..|raw| - 1], raw[|raw| - 1];
      RetainedFrom(init, cutoff);
      assert NormalizeAll(raw)[..|init|] == NormalizeAll(init);
      forall x | x in Retained(raw, cutoff) ensures exists r :: r in raw && x == Normalize(r) {
        if x in Retained(init, cutoff) {
          var r :| r in init && x == Normalize(r);
          assert r in raw;
        } else {
          assert last in raw;
        }
      }
    }
  }

  lemma {:induction false} StoredFrom(calls: seq<Call>)
    ensures forall x :: x in Stored(calls) ==> exists r :: r in Handed(calls) && x == Normalize(r)
  {
    if calls != [] {
      var init, last := calls[..|calls| - 1], calls[|calls| - 1];
      StoredFrom(init);
      RetainedFrom(last.batch.records, last.cutoff);
      forall x | x in Stored(calls) ensures exists r :: r in Handed(calls) && x == Normalize(r) {
        if x in Stored(init) {
          var r :| r in Handed(init) && x == Normalize(r);
          assert r in Handed(calls);
        } else {
          var r :| r in last.batch.records && x == Normalize(r);
          assert r in Handed(calls);
        }
      }
    }
  }

  /** Once the old rows of a source are gone, a row of its file conflicts with nothing stored. */
  lemma StoredClear(before: seq<CostRecord>, s: Source, calls: seq<Call>, r: CostRecord)
    requires AsCollected(before) && OwnedBy(r, s) && Clear(Handed(calls), r)
    ensures Clear(Others(before, s) + Stored(calls), Normalize(r))
  {
    OthersMembers(before, s);
    StoredFrom(calls);
    forall a | a in Others(before, s) + Stored(calls) ensures !Conflicts(a, Normalize(r)) {
      if a in Stored(calls) {
        var q :| q in Handed(calls) && a == Normalize(q);
      } else {
        assert a in before && !Owns(s, a);
      }
    }
  }

  lemma RetainedClear(raw: seq<CostRecord>, cutoff: Time, r: CostRecord)
    requires Clear(raw, r)
    ensures Clear(Retained(raw, cutoff), Normalize(r))
  {
    RetainedFrom(raw, cutoff);
    forall a | a in Retained(raw, cutoff) ensures !Conflicts(a, Normalize(r)) {
      var q :| q in raw && a == Normalize(q);
    }
  }

  lemma {:induction false} BatchConflictFree(before: seq<CostRecord>, s: Source, calls: seq<Call>, raw: seq<CostRecord>,
      cutoff: Time)
    requires AsCollected(before) && BelongTo(raw, s) && ConflictFree([], Handed(calls) + raw)
    ensures ConflictFree(Others(before, s) + Stored(calls), Retained(raw, cutoff))
  {
    hide ScopeAsWritten;
    if raw != [] {
      var init, last := raw[..|raw| - 1], raw[|raw| - 1];
      var all := Handed(calls) + raw;
      assert all[..|all| - 1] == Handed(calls) + init && all[|all| - 1] == last;
      assert Clear(Handed(calls) + init, last);
      assert Clear(Handed(calls), last) && Clear(init, last);
      BatchConflictFree(before, s, calls, init, cutoff);
      StoredClear(before, s, calls, last);
      RetainedClear(init, cutoff, last);
      assert NormalizeAll(raw)[..|init|] == NormalizeAll(init);
      var kept := Retained(init, cutoff);
      assert (kept + [Normalize(last)])[..|kept|] == kept;
    }
  }

  // ---- the store while a file streams ------------------------------------------------------

  /** The records after acknowledged chunks: as before until the first one replaces the source. */
  ghost function StateOf(before: seq<CostRecord>, s: Source, calls: seq<Call>): seq<CostRecord> {
    if calls == [] then before else Others(before, s) + Stored(calls)
  }

  /** The records after a failed call: those of the source are the old ones or none while nothing
      was acknowledged, the acknowledged new ones otherwise. */
  ghost predicate HaltedState(records: seq<CostRecord>, before: seq<CostRecord>, s: Source, acked: seq<Call>) {
    records == StateOf(before, s, acked) || records == Others(before, s) + Stored(acked)
  }

  /** A stream in progress: the records before it, its acknowledged calls, its buffer, the rows accepted
      and the records now. */
  datatype Progress = Progress(
    before: seq<CostRecord>, id: ReportId, limit: nat, calls: seq<Call>,
    buffer: seq<CostRecord>, rows: seq<CostRecord>, records: seq<CostRecord>)

  /** The acknowledged chunks and the buffer make up the accepted rows, and the store is in the state
      those chunks lead to. */
  ghost predicate InProgress(p: Progress) {
    match p
    case Progress(before, id, limit, calls, buffer, rows, records) =>
      && id.objectName != "" && 1 <= limit && AsCollected(before)
      && Chunked(calls, id, Handed(calls), limit)
      && Handed(calls) + buffer == rows && |buffer| <= limit
      && records == StateOf(before, SourceOf(id), calls)
      && BelongTo(Handed(calls), SourceOf(id)) && BelongTo(buffer, SourceOf(id)) && ConflictFree([], rows)
  }

  lemma ChunkSnoc(calls: seq<Call>, c: Call, id: ReportId, limit: nat)
    requires Chunked(calls, id, Handed(calls), limit) && IsChunk(c, id, calls == [], limit)
    ensures Chunked(calls + [c], id, Handed(calls) + c.batch.records, limit)
    ensures Handed(calls + [c]) == Handed(calls) + c.batch.records
  {
    LogSnoc(calls, c);
  }

  lemma FlushStep(p: Progress, cutoff: Time)
    requires InProgress(p) && p.buffer != []
    ensures var b := Batch(p.id, 0, p.buffer, p.calls == [], false);
            InProgress(p.(calls := p.calls + [Call(b, cutoff, true)], buffer := [],
                records := AfterBatch(p.records, b, cutoff)))
            && |Handed(p.calls + [Call(b, cutoff, true)])| == |Handed(p.calls)| + |p.buffer|
  {
    var b := Batch(p.id, 0, p.buffer, p.calls == [], false);
    ChunkStored(p.before, SourceOf(p.id), p.calls, b, cutoff);
    ChunkSnoc(p.calls, Call(b, cutoff, true), p.id, p.limit);
    assert Handed(p.calls + [Call(b, cutoff, true)]) + [] == p.rows;
  }

  lemma AcceptStep(p: Progress, record: CostRecord)
    requires InProgress(p) && |p.buffer| < p.limit
    requires OwnedBy(record, SourceOf(p.id)) && Clear(p.rows, record)
    ensures InProgress(p.(buffer := p.buffer + [record], rows := p.rows + [record]))
  {
    assert (p.rows + [record])[..|p.rows|] == p.rows;
    assert Handed(p.calls) + (p.buffer + [record]) == p.rows + [record];
  }

  lemma FinishStep(p: Progress, cutoff: Time)
    requires InProgress(p) && p.buffer == []
    ensures var b := Batch(p.id, |p.rows|, [], p.calls == [], true);
            && Streamed(p.calls + [Call(b, cutoff, true)], p.id, p.rows, p.limit)
            && AfterBatch(p.records, b, cutoff) ==
               Others(p.before, SourceOf(p.id)) + Stored(p.calls + [Call(b, cutoff, true)])
            && Handed(p.calls) == p.rows && Handed(p.calls + [Call(b, cutoff, true)]) == p.rows
            && BelongTo(p.rows, SourceOf(p.id))
  {
    var b := Batch(p.id, |p.rows|, [], p.calls == [], true);
    FinalStored(p.before, SourceOf(p.id), p.calls, b, cutoff);
    assert Handed(p.calls) + [] == Handed(p.calls);
    LogSnoc(p.calls, Call(b, cutoff, true));
    assert (p.calls + [Call(b, cutoff, true)])[..|p.calls|] == p.calls;
  }

  lemma StoredAppends(before: seq<CostRecord>, s: Source, calls: seq<Call>, raw: seq<CostRecord>, cutoff: Time)
    requires AsCollected(before) && BelongTo(raw, s) && ConflictFree([], Handed(calls) + raw)
    ensures InsertAll(Others(before, s) + Stored(calls), Retained(raw, cutoff)) ==
            Others(before, s) + (Stored(calls) + Retained(raw, cutoff))
  {
    var base, kept := Others(before, s) + Stored(calls), Retained(raw, cutoff);
    BatchConflictFree(before, s, calls, raw, cutoff);
    InsertAllAppends(base, kept);
    AppendAssociates(Others(before, s), Stored(calls), kept);
  }

  lemma AppendAssociates(a: seq<CostRecord>, b: seq<CostRecord>, c: seq<CostRecord>)
    ensures a + b + c == a + (b + c)
  {}

  /** The rows the next batch is added to. */
  lemma BaseOfState(before: seq<CostRecord>, s: Source, calls: seq<Call>, b: Batch)
    requires SourceOf(b.id) == s && s.name != "" && b.first == (calls == [])
    ensures BaseRecords(StateOf(before, s, calls), b) == Others(before, s) + Stored(calls)
  {
    assert Others(before, s) + [] == Others(before, s);
  }

  /** A stored batch moves the store to the state of the longer log. */
  lemma ChunkStored(before: seq<CostRecord>, s: Source, calls: seq<Call>, b: Batch, cutoff: Time)
    requires SourceOf(b.id) == s && s.name != "" && b.first == (calls == []) && !b.final
    requires AsCollected(before) && BelongTo(b.records, s) && ConflictFree([], Handed(calls) + b.records)
    ensures AfterBatch(StateOf(before, s, calls), b, cutoff) == StateOf(before, s, calls + [Call(b, cutoff, true)])
  {
    BaseOfState(before, s, calls, b);
    StoredAppends(before, s, calls, b.records, cutoff);
    LogSnoc(calls, Call(b, cutoff, true));
  }

  lemma FinalStored(before: seq<CostRecord>, s: Source, calls: seq<Call>, b: Batch, cutoff: Time)
    requires SourceOf(b.id) == s && s.name != "" && b.first == (calls == []) && b.final
    ensures AfterBatch(StateOf(before, s, calls), b, cutoff) ==
        Others(before, s) + Stored(calls + [Call(b, cutoff, true)])
    ensures Stored(calls + [Call(b, cutoff, true)]) == Stored(calls)
  {
    BaseOfState(before, s, calls, b);
    LogSnoc(calls, Call(b, cutoff, true));
    assert Stored(calls) + [] == Stored(calls);
  }

  lemma CallFailed(before: seq<CostRecord>, s: Source, calls: seq<Call>, b: Batch, records: seq<CostRecord>)
    requires SourceOf(b.id) == s && s.name != "" && b.first == (calls == [])
    requires records == StateOf(before, s, calls) || records == BaseRecords(StateOf(before, s, calls), b)
    ensures HaltedState(records, before, s, calls)
  {
    BaseOfState(before, s, calls, b);
  }

  /** The cutoffs of the calls lie between two times. */
  ghost predicate CallsBetween(calls: seq<Call>, earliest: Time, latest: Time) {
    forall c :: c in calls ==> earliest <= c.cutoff <= latest
  }

  /** No batch is longer than the buffer may grow. */
  ghost predicate Bounded(calls: seq<Call>, limit: nat) {
    forall c :: c in calls ==> |c.batch.records| <= limit
  }

  lemma ChunksBounded(calls: seq<Call>, id: ReportId, rows: seq<CostRecord>, limit: nat)
    requires Chunked(calls, id, rows, limit)
    ensures Bounded(calls, limit)
  {
    forall c | c in calls ensures |c.batch.records| <= limit {
      var i :| 0 <= i < |calls| && calls[i] == c;
      assert IsChunk(calls[i], id, i == 0, limit);
    }
  }

  lemma StreamedBounded(log: seq<Call>, calls: seq<Call>, id: ReportId, rows: seq<CostRecord>, limit: nat)
    requires Streamed(calls, id, rows, limit)
    ensures Bounded(log, limit) ==> Bounded(log + calls, limit)
  {
    var n := |calls| - 1;
    ChunksBounded(calls[..n], id, rows, limit);
    assert calls == calls[..n] + [calls[n]];
  }

  lemma OneCallMore(calls: seq<Call>, c: Call, earliest: Time, latest: Time, later: Time)
    requires CallsBetween(calls, earliest, latest) && latest <= later && earliest <= c.cutoff <= later
    ensures CallsBetween(calls + [c], earliest, later)
  {}

  // ---- the stream ------------------------------------------------------------------------

  class FileStream {
    const run: ProviderRun
    const id: ReportId
    const limit: nat
    var buffer: seq<CostRecord>
    var firstBatch: bool
    var accepted: nat
    ghost const before: seq<CostRecord>
    ghost const log: seq<Call>
    ghost const marks: map<ReportId, nat>
    ghost const handed: nat
    ghost const failed: bool
    ghost const started: Time
    /** The acknowledged calls for this file, and the records accepted so far. */
    ghost var calls: seq<Call>
    ghost var rows: seq<CostRecord>

    constructor (run: ProviderRun, id: ReportId, limit: nat)
      requires run.Consistent() && 1 <= limit && id.objectName != ""
      requires AsCollected(run.store.records)
      ensures this.run == run && this.id == id && this.limit == limit
      ensures before == run.store.records && log == run.calls && marks == run.store.processed
      ensures handed == run.handed && failed == run.failed && started == run.clock
      ensures Valid() && rows == [] && calls == [] && buffer == []
    {
      this.run, this.id, this.limit := run, id, limit;
      buffer, firstBatch, accepted := [], true, 0;
      before, log, marks := run.store.records, run.calls, run.store.processed;
      handed, failed, started := run.handed, run.failed, run.clock;
      calls, rows := [], [];
    }

    function Src(): Source { SourceOf(id) }

    ghost function State(): Progress
      reads this, run, run.store
    {
      Progress(before, id, limit, calls, buffer, rows, run.store.records)
    }

    ghost predicate Valid()
      reads this, run, run.store
    {
      && run.Consistent() && run.calls == log + calls && run.store.processed == marks
      && run.handed == handed + |Handed(calls)| && run.failed == failed
      && firstBatch == (calls == []) && accepted == |rows|
      && InProgress(State()) && Timed(calls)
    }

    /** The calls were made since the stream began, and none later than now. */
    ghost predicate Timed(calls: seq<Call>)
      reads this, run
    {
      started <= run.clock &&
      CallsBetween(calls, AddDays(started, -run.lookbackDays), AddDays(run.clock, -run.lookbackDays))
    }

    /** After a failed handler call nothing is marked and only the source's own records may have changed. */
    ghost predicate Halted()
      reads this, run, run.store
    {
      && run.Consistent() && run.store.processed == marks && run.failed && started <= run.clock
      && run.handed <= handed + accepted
      && run.calls != [] && run.calls[..|run.calls| - 1] == log + calls && !run.calls[|run.calls| - 1].acked
      && id.objectName != "" && firstBatch == (calls == []) && AsCollected(before)
      && BelongTo(Handed(calls), Src())
      && HaltedState(run.store.records, before, Src(), calls)
      && Bounded(calls, limit) && |run.calls[|run.calls| - 1].batch.records| <= limit
    }

    /** The handler has been given no more than was accepted. */
    lemma HandedWithin()
      requires Valid() || Halted()
      ensures run.handed <= handed + accepted
    {}

    /** And in batches within the limit. */
    lemma BatchesWithin()
      requires Valid() || Halted()
      ensures Bounded(log, limit) ==> Bounded(run.calls, limit)
    {
      hide HaltedState, BelongTo, ConflictFree, AsCollected, EarliestOf, CallsBetween, Handed, StateOf;
      if Valid() {
        ChunksBounded(calls, id, Handed(calls), limit);
      } else {
        var n := |run.calls| - 1;
        assert run.calls == run.calls[..n] + [run.calls[n]];
      }
    }

    /** Calls the handler with the buffer; a failed call halts the stream. */
    method HandOver() returns (ok: bool, ghost c: Call)
      requires Valid() && buffer != []
      modifies run, run.store`records, run.store`processed
      ensures ok ==> run.Consistent() && run.calls == log + calls + [c] && run.store.processed == marks
      ensures ok ==> run.handed == handed + |Handed(calls + [c])| && run.failed == failed && Timed(calls + [c])
      ensures ok ==> InProgress(State().(calls := calls + [c], buffer := []))
      ensures !ok ==> Halted()
    {
      hide Chunked, BelongTo, ConflictFree, AsCollected, AfterBatch, EarliestOf, CallsBetween;
      ghost var cutoff := 0;
      var batch := Batch(id, 0, buffer, firstBatch, false);
      ok, cutoff := run.Handle(batch);
      c := Call(batch, cutoff, ok);
      if ok {
        FlushStep(old(State()), cutoff);
        OneCallMore(calls, c, AddDays(started, -run.lookbackDays), AddDays(old(run.clock), -run.lookbackDays),
                    AddDays(run.clock, -run.lookbackDays));
      } else {
        CallFailed(before, Src(), calls, batch, run.store.records);
        ChunksBounded(calls, id, Handed(calls), limit);
      }
    }

    method Flush() returns (ok: bool)
      requires Valid()
      modifies this`calls, this`buffer, this`firstBatch, run, run.store`records, run.store`processed
      ensures ok ==> Valid() && buffer == []
      ensures !ok ==> Halted()
    {
      hide InProgress, HaltedState, Others, Stored, Handed, EarliestOf;
      if |buffer| == 0 { return true; }
      ghost var c;
      ok, c := HandOver();
      if ok {
        calls := calls + [c];
        firstBatch := false;
        buffer := [];
      }
    }

    /** The parser's callback. */
    method Accept(record: CostRecord) returns (ok: bool)
      requires Valid() && |buffer| < limit && OwnedBy(record, Src())
      requires Clear(rows, record)
      modifies this, run, run.store`records, run.store`processed
      ensures ok ==> Valid() && |buffer| < limit && rows == old(rows) + [record]
      ensures !ok ==> Halted()
    {
      hide InProgress, HaltedState, Others, Stored, Handed, EarliestOf;
      AcceptStep(State(), record);
      buffer := buffer + [record];
      rows := rows + [record];
      accepted := accepted + 1;
      ok := true;
      if |buffer| >= limit {
        ok := Flush();
      }
    }

    /** The Final call, after the last flush. */
    method Finish() returns (ok: bool)
      requires Valid() && buffer == []
      modifies this`calls, run, run.store`records, run.store`processed
      ensures ok ==> run.Consistent() && run.calls == log + calls && Streamed(calls, id, rows, limit)
      ensures ok ==> run.handed == handed + |rows| && run.failed == failed && Timed(calls)
      ensures ok ==> run.store.records == Others(before, Src()) + Stored(calls)
      ensures ok ==> run.store.processed == marks[id := |rows|]
      ensures ok ==> Handed(calls) == rows && BelongTo(Handed(calls), Src())
      ensures !ok ==> Halted()
    {
      hide Chunked, BelongTo, ConflictFree, AsCollected, AfterBatch, EarliestOf, Streamed, CallsBetween;
      ghost var cutoff := 0;
      var batch := Batch(id, accepted, [], firstBatch, true);
      ok, cutoff := run.Handle(batch);
      if ok {
        FinishStep(old(State()), cutoff);
        OneCallMore(calls, Call(batch, cutoff, true), AddDays(started, -run.lookbackDays),
                    AddDays(old(run.clock), -run.lookbackDays), AddDays(run.clock, -run.lookbackDays));
        calls := calls + [Call(batch, cutoff, true)];
      } else {
        CallFailed(before, Src(), calls, batch, run.store.records);
        ChunksBounded(calls, id, Handed(calls), limit);
      }
    }

    /** cleanupPartialIngest: the records of the source are deleted, whatever they are. */
    method Cleanup() returns (ok: bool)
      requires Halted() || Valid()
      modifies run.store`records
      ensures ok ==> run.store.records == Others(before, Src())
      ensures !ok ==> run.store.records == old(run.store.records)
      ensures Others(run.store.records, Src()) == Others(before, Src()) && AsCollected(run.store.records)
    {
      hide Chunked, BelongTo, ConflictFree, AsCollected, EarliestOf, Others, Stored, Handed;
      CleanupLeavesOthers(before, Src(), calls);
      StaysCollected(before, Src(), calls);
      OthersTwice(before, Src());
      ok := run.store.DeleteCostRecordsForSource(Src());
    }
  }

  /** CUR rows keep naming one object as key and source, whatever part of a file was stored. */
  lemma StaysCollected(before: seq<CostRecord>, s: Source, calls: seq<Call>)
    requires AsCollected(before) && BelongTo(Handed(calls), s)
    ensures AsCollected(Others(before, s) + Stored(calls))
    ensures AsCollected(Others(before, s)) && AsCollected(StateOf(before, s, calls))
  {
    OthersMembers(before, s);
    StoredFrom(calls);
    forall r | r in Stored(calls) ensures Collected(r) {
      var q :| q in Handed(calls) && r == Normalize(q);
      assert OwnedBy(q, s);
    }
  }

  lemma OthersTwice(rows: seq<CostRecord>, s: Source)
    ensures Others(Others(rows, s), s) == Others(rows, s)
  {
    OthersMembers(rows, s);
    ForeignRows(Others(rows, s), s);
  }

  lemma CleanupLeavesOthers(before: seq<CostRecord>, s: Source, calls: seq<Call>)
    requires BelongTo(Handed(calls), s)
    ensures Others(StateOf(before, s, calls), s) == Others(before, s)
    ensures Others(Others(before, s) + Stored(calls), s) == Others(before, s)
    ensures OfSource(Others(before, s) + Stored(calls), s) == Stored(calls)
  {
    StoredFrom(calls);
    forall x | x in Stored(calls) ensures Owns(s, x) {
      var r :| r in Handed(calls) && x == Normalize(r);
      assert OwnedBy(r, s);
    }
    ReplacedSource(before, s, Stored(calls));
    ReplacedSource(before, s, []);
    assert Others(before, s) + [] == Others(before, s);
  }
}

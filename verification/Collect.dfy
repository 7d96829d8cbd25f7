/** The collection service's side of ingestion: normalisation, the lookback filter, and the handler
    that turns each batch of a streamed file into statements on the store. */
module Collect {
  import opened Calendar
  import opened Domain
  import opened CostStore

  datatype Batch = Batch(id: ReportId, recordCount: nat, records: seq<CostRecord>, first: bool, final: bool)

  /** A call of the handler: the batch, the lookback cutoff of that moment, and whether it was acknowledged. */
  datatype Call = Call(batch: Batch, cutoff: Time, acked: bool)

  /** Normalize: the parsed fields are kept, an empty category becomes the service. */
  function Normalize(r: CostRecord): CostRecord {
    r.(charge := r.charge.(category := if r.charge.category != "" then r.charge.category else r.charge.service))
  }

  function NormalizeAll(raw: seq<CostRecord>): (normalized: seq<CostRecord>)
    ensures |normalized| == |raw|
  {
    if raw == [] then [] else NormalizeAll(raw[..|raw| - 1]) + [Normalize(raw[|raw| - 1])]
  }

  predicate IsOld(r: CostRecord, cutoff: Time) { !IsZero(r.timestamp) && r.timestamp < cutoff }

  function WithinLookback(records: seq<CostRecord>, cutoff: Time): seq<CostRecord> {
    if records == [] then []
    else
      var last := records[|records| - 1];
      if IsOld(last, cutoff) then WithinLookback(records[..|records| - 1], cutoff)
      else WithinLookback(records[..|records| - 1], cutoff) + [last]
  }

  /** What a batch of parsed records leaves to be stored. */
  function Retained(raw: seq<CostRecord>, cutoff: Time): seq<CostRecord> {
    WithinLookback(NormalizeAll(raw), cutoff)
  }

  method FilterRecordsWithinLookback(records: seq<CostRecord>, cutoff: Time)
    returns (retained: seq<CostRecord>, skippedOld: nat)
    ensures retained == WithinLookback(records, cutoff)
    ensures |retained| + skippedOld == |records|
  {
    retained, skippedOld := [], 0;
    for i := 0 to |records|
      invariant retained == WithinLookback(records[..i], cutoff)
      invariant |retained| + skippedOld == i
    {
      assert records[..i + 1][..i] == records[..i];
      if !IsZero(records[i].timestamp) && records[i].timestamp < cutoff {
        skippedOld := skippedOld + 1;
        continue;
      }
      retained := retained + [records[i]];
    }
    assert records[..|records|] == records;
  }

  /** The records a batch starts from: the first batch of a file replaces what the source held. */
  function BaseRecords(rows: seq<CostRecord>, b: Batch): seq<CostRecord> {
    if b.first then DeleteSource(rows, SourceOf(b.id)) else rows
  }

  function AfterBatch(rows: seq<CostRecord>, b: Batch, cutoff: Time): seq<CostRecord> {
    if b.final then BaseRecords(rows, b) else InsertAll(BaseRecords(rows, b), Retained(b.records, cutoff))
  }

  /** The records a call stored: none when it failed or was the final one. */
  ghost function StoredBy(c: Call): seq<CostRecord> {
    if c.acked && !c.batch.final then Retained(c.batch.records, c.cutoff) else []
  }

  /** The parsed records a call handed over, stored or not. */
  ghost function HandedBy(c: Call): seq<CostRecord> { if c.batch.final then [] else c.batch.records }

  ghost function Stored(calls: seq<Call>): seq<CostRecord> {
    if calls == [] then [] else Stored(calls[..|calls| - 1]) + StoredBy(calls[|calls| - 1])
  }

  ghost function Handed(calls: seq<Call>): seq<CostRecord> {
    if calls == [] then [] else Handed(calls[..|calls| - 1]) + HandedBy(calls[|calls| - 1])
  }

  lemma LogSnoc(calls: seq<Call>, c: Call)
    ensures Stored(calls + [c]) == Stored(calls) + StoredBy(c)
    ensures Handed(calls + [c]) == Handed(calls) + HandedBy(c)
  {
    assert (calls + [c])[..|calls|] == calls;
  }

  /** One provider's share of a run: the counters of its result and the handler it passes to the collector. */
  class ProviderRun {
    const store: Store
    const lookbackDays: int
    var clock: Time
    var recordsWithinLookback: nat
    var recordsSkippedOld: nat
    var recordsInserted: nat
    var earliestRecord: Time
    /** History: the handler calls, the records handed over, the records stored, and whether a call failed. */
    ghost var calls: seq<Call>
    ghost var handed: nat
    ghost var stored: seq<CostRecord>
    ghost var failed: bool

    constructor (store: Store, lookbackDays: int, clock: Time)
      ensures this.store == store && this.lookbackDays == lookbackDays && this.clock == clock
      ensures recordsWithinLookback == recordsSkippedOld == recordsInserted == 0 && IsZero(earliestRecord)
      ensures calls == [] && handed == 0 && stored == [] && !failed
      ensures Consistent()
    {
      this.store, this.lookbackDays, this.clock := store, lookbackDays, clock;
      recordsWithinLookback, recordsSkippedOld, recordsInserted := 0, 0, 0;
      earliestRecord := ZERO_TIME;
      calls, handed, stored, failed := [], 0, [], false;
    }

    /** The history is the given one followed by call c. */
    ghost predicate Logged(calls: seq<Call>, handed: nat, stored: seq<CostRecord>, failed: bool, c: Call)
      reads this
    {
      && this.calls == calls + [c]
      && this.handed == handed + |HandedBy(c)|
      && this.stored == stored + StoredBy(c)
      && this.failed == (failed || !c.acked)
    }

    /** What the counters say about the history. */
    ghost predicate Consistent()
      reads this
    {
      && recordsWithinLookback + recordsSkippedOld == handed
      && recordsInserted == |stored| && recordsInserted <= recordsWithinLookback
      && (!failed ==> recordsWithinLookback == recordsInserted)
      && EarliestOf(earliestRecord, stored)
    }

    method Now() returns (t: Time)
      modifies this`clock
      ensures t == clock && clock >= old(clock)
    {
      var elapsed :| 0 <= elapsed;
      clock := clock + elapsed;
      t := clock;
    }

    /** The handler: a Final batch marks the report processed, any other is normalised, filtered and stored;
        the First one deletes the source's records before. */
    method Handle(batch: Batch) returns (ok: bool, ghost cutoff: Time)
      requires Consistent()
      modifies this, store`records, store`processed
      ensures Consistent()
      ensures Logged(old(calls), old(handed), old(stored), old(failed), Call(batch, cutoff, ok))
      ensures clock >= old(clock) && AddDays(old(clock), -lookbackDays) <= cutoff <= AddDays(clock, -lookbackDays)
      ensures ok ==> store.records == AfterBatch(old(store.records), batch, cutoff)
      ensures !ok ==> store.records == old(store.records) || store.records == BaseRecords(old(store.records), batch)
      ensures store.processed ==
        if ok && batch.final then old(store.processed)[batch.id := batch.recordCount] else old(store.processed)
    {
      if !batch.final {
        ok, cutoff := StoreNormalizedBatch(batch);
        return;
      }
      cutoff := AddDays(clock, -lookbackDays);
      ok := true;
      if batch.first {
        ok := store.DeleteCostRecordsForSource(SourceOf(batch.id));
      }
      if ok {
        var processedAt := Now();
        ok := store.MarkReportProcessed(batch.id, batch.recordCount);
      }
      assert stored + [] == stored;
      LogCall(Call(batch, cutoff, ok));
    }

    method StoreNormalizedBatch(batch: Batch) returns (ok: bool, ghost cutoff: Time)
      requires Consistent() && !batch.final
      modifies this, store`records
      ensures Consistent()
      ensures Logged(old(calls), old(handed), old(stored), old(failed), Call(batch, cutoff, ok))
      ensures clock >= old(clock) && cutoff == AddDays(clock, -lookbackDays)
      ensures ok ==> store.records == AfterBatch(old(store.records), batch, cutoff)
      ensures !ok ==> store.records == old(store.records) || store.records == BaseRecords(old(store.records), batch)
    {
      hide NormalizeAll, WithinLookback, InsertAll, BaseRecords, EarliestOf;
      var normalized := NormalizeAll(batch.records);
      var now := Now();
      var limit := AddDays(now, -lookbackDays);
      cutoff := limit;
      var retained, skippedOld := FilterRecordsWithinLookback(normalized, limit);
      recordsWithinLookback := recordsWithinLookback + |retained|;
      recordsSkippedOld := recordsSkippedOld + skippedOld;
      ok := Replace(batch, retained);
      if ok {
        recordsInserted := recordsInserted + |retained|;
        TrackEarliest(retained, stored);
      }
      assert stored + [] == stored;
      LogCall(Call(batch, cutoff, ok));
    }

    /** The statements of a streamed batch: delete the old source before its first batch, then store. */
    method Replace(batch: Batch, retained: seq<CostRecord>) returns (ok: bool)
      modifies store`records
      ensures ok ==> store.records == InsertAll(BaseRecords(old(store.records), batch), retained)
      ensures !ok ==> store.records == old(store.records) || store.records == BaseRecords(old(store.records), batch)
    {
      ok := true;
      if batch.first {
        ok := store.DeleteCostRecordsForSource(SourceOf(batch.id));
        if !ok { return; }
      }
      if |retained| > 0 {
        ok := store.StoreCostRecords(retained);
      }
    }

    method TrackEarliest(retained: seq<CostRecord>, ghost stored: seq<CostRecord>)
      requires EarliestOf(earliestRecord, stored)
      modifies this`earliestRecord
      ensures EarliestOf(earliestRecord, stored + retained)
    {
      assert stored + retained[..0] == stored;
      for i := 0 to |retained|
        invariant EarliestOf(earliestRecord, stored + retained[..i])
      {
        assert stored + retained[..i + 1] == stored + retained[..i] + [retained[i]];
        if IsZero(earliestRecord) || retained[i].timestamp < earliestRecord {
          earliestRecord := retained[i].timestamp;
        }
      }
      assert retained[..|retained|] == retained;
    }

    ghost method LogCall(c: Call)
      modifies this`calls, this`handed, this`stored, this`failed
      ensures Logged(old(calls), old(handed), old(stored), old(failed), c)
    {
      calls := calls + [c];
      handed := handed + |HandedBy(c)|;
      stored := stored + StoredBy(c);
      failed := failed || !c.acked;
    }
  }

  /** With no zero timestamps, the earliest-record field is the least timestamp stored, and zero when nothing is. */
  ghost predicate EarliestOf(earliest: Time, stored: seq<CostRecord>) {
    (forall r :: r in stored ==> !IsZero(r.timestamp)) ==>
      && (stored == [] <==> IsZero(earliest))
      && (forall r :: r in stored ==> earliest <= r.timestamp)
      && (stored != [] ==> exists r :: r in stored && r.timestamp == earliest)
  }
}

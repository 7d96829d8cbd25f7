/** Collect: whole files rebuilt from the batches of a stream. */
module CurAssembly {
  import opened Domain
  import opened CostStore
  import opened Collect
  import opened Streaming

  /** What one file sent to the handler: a complete stream, or the chunks sent before it failed. */
  datatype FileLog = FileLog(id: ReportId, rows: seq<CostRecord>, calls: seq<Call>, finished: bool)

  ghost predicate Sent(log: FileLog, limit: nat) {
    && log.id.objectName != ""
    && if log.finished then Streamed(log.calls, log.id, log.rows, limit)
       else Chunked(log.calls, log.id, Handed(log.calls), limit)
  }

  ghost predicate FreshName(logs: seq<FileLog>, name: string) {
    forall log :: log in logs ==> log.id.objectName != name
  }

  /** The listed keys of a bucket are distinct. */
  ghost predicate DistinctNames(logs: seq<FileLog>) {
    logs == [] ||
    (DistinctNames(logs[..|logs| - 1]) && FreshName(logs[..|logs| - 1], logs[|logs| - 1].id.objectName))
  }

  /** One batch for every finished file, with all its records in order. */
  ghost function WholeFiles(logs: seq<FileLog>): seq<Batch> {
    if logs == [] then []
    else
      var log := logs[|logs| - 1];
      WholeFiles(logs[..|logs| - 1]) + if log.finished then [Batch(log.id, |log.rows|, log.rows, false, false)] else []
  }

  /** The variables of Collect, updated by the handler it passes to the stream. */
  class Assembly {
    var batches: seq<Batch>
    var records: seq<CostRecord>
    var currentObject: string

    constructor ()
      ensures batches == [] && records == [] && currentObject == ""
    {
      batches, records, currentObject := [], [], "";
    }

    /** Records are held back for the object named last; none are without one. */
    ghost predicate Holding(name: string, held: seq<CostRecord>)
      reads this
    {
      currentObject == name && records == held
    }

    /** What is held back belongs to no file called name. */
    ghost predicate Foreign(name: string)
      reads this
    {
      currentObject != name && (currentObject == "" ==> records == [])
    }

    method Handle(batch: Batch)
      requires batch.id.objectName != ""
      modifies this
      ensures !batch.final ==> batches == old(batches)
      ensures !batch.final && old(Foreign(batch.id.objectName)) ==> Holding(batch.id.objectName, batch.records)
      ensures !batch.final && old(currentObject) == batch.id.objectName ==>
        Holding(batch.id.objectName, old(records) + batch.records)
      ensures batch.final ==> Holding("", [])
      ensures batch.final && old(Foreign(batch.id.objectName)) ==>
        batches == old(batches) + [Batch(batch.id, batch.recordCount, [], false, false)]
      ensures batch.final && old(currentObject) == batch.id.objectName ==>
        batches == old(batches) + [Batch(batch.id, batch.recordCount, old(records), false, false)]
    {
      if !batch.final {
        if currentObject != "" && currentObject != batch.id.objectName {
          records := [];
        }
        currentObject := batch.id.objectName;
        records := records + batch.records;
        return;
      }
      if currentObject != "" && currentObject != batch.id.objectName {
        records := [];
      }
      batches := batches + [Batch(batch.id, batch.recordCount, records, false, false)];
      records := [];
      currentObject := "";
    }

    /** The non-final batches of a file whose name is new: the records held back become exactly its own. */
    method HandleChunks(ghost id: ReportId, calls: seq<Call>, ghost limit: nat)
      requires id.objectName != "" && Foreign(id.objectName) && Chunked(calls, id, Handed(calls), limit)
      modifies this
      ensures batches == old(batches)
      ensures calls == [] ==> currentObject == old(currentObject) && records == old(records)
      ensures calls != [] ==> Holding(id.objectName, Handed(calls))
    {
      for i := 0 to |calls|
        invariant batches == old(batches)
        invariant i == 0 ==> currentObject == old(currentObject) && records == old(records)
        invariant i > 0 ==> Holding(id.objectName, Handed(calls[..i]))
      {
        assert IsChunk(calls[i], id, i == 0, limit);
        assert calls[..i + 1][..i] == calls[..i];
        Handle(calls[i].batch);
      }
      assert calls[..|calls|] == calls;
    }

    method HandleFile(log: FileLog, ghost limit: nat)
      requires Sent(log, limit) && Foreign(log.id.objectName)
      modifies this
      ensures batches == old(batches) + if log.finished then [Batch(log.id, |log.rows|, log.rows, false, false)] else []
      ensures currentObject in {"", old(currentObject), log.id.objectName} && (currentObject == "" ==> records == [])
    {
      if !log.finished {
        HandleChunks(log.id, log.calls, limit);
        return;
      }
      var chunks, last := log.calls[..|log.calls| - 1], log.calls[|log.calls| - 1];
      HandleChunks(log.id, chunks, limit);
      Handle(last.batch);
    }
  }

  /** Files that failed part way contribute nothing, wherever their batches were cut. */
  method CollectFiles(logs: seq<FileLog>, ghost limit: nat) returns (batches: seq<Batch>)
    requires DistinctNames(logs) && forall log :: log in logs ==> Sent(log, limit)
    ensures batches == WholeFiles(logs)
  {
    hide Sent, Chunked, Streamed;
    var assembly := new Assembly();
    for i := 0 to |logs|
      invariant assembly.batches == WholeFiles(logs[..i])
      invariant assembly.currentObject == "" ==> assembly.records == []
      invariant assembly.currentObject == ""
          || exists k :: 0 <= k < i && logs[k].id.objectName == assembly.currentObject
      invariant fresh(assembly)
    {
      assert logs[..i + 1][..i] == logs[..i];
      NamesApart(logs, i);
      assert logs[i] in logs;
      NameOfSent(logs[i], limit);
      assembly.HandleFile(logs[i], limit);
    }
    assert logs[..|logs|] == logs;
    batches := assembly.batches;
  }

  lemma NameOfSent(log: FileLog, limit: nat)
    requires Sent(log, limit)
    ensures log.id.objectName != ""
  {}

  lemma {:induction false} NamesApart(logs: seq<FileLog>, i: nat)
    requires DistinctNames(logs) && i < |logs|
    ensures forall k :: 0 <= k < i ==> logs[k].id.objectName != logs[i].id.objectName
  {
    var init := logs[..|logs| - 1];
    if i < |init| {
      NamesApart(init, i);
      assert forall k :: 0 <= k <= i ==> init[k] == logs[k];
    } else {
      assert forall k :: 0 <= k < i ==> logs[k] in init;
    }
  }
}

/** Providers collect concurrently against one store. Their statements may interleave in any order; what a
    provider finds and leaves there depends on its own statements only. */
module Interleaving {
  import opened Calendar
  import opened Domain
  import opened CostStore

  datatype State = State(records: seq<CostRecord>, processed: map<ReportId, nat>, checkpoints: map<Provider, Time>)

  /** A statement that succeeded; one that fails changes nothing. */
  datatype Statement =
    | Delete(source: Source)
    | Insert(owner: Provider, rows: seq<CostRecord>)
    | Mark(id: ReportId, recordCount: nat)
    | Checkpoint(provider: Provider, at: Time)

  function IssuedBy(st: Statement): Provider {
    match st
    case Delete(source) => source.provider
    case Insert(owner, rows) => owner
    case Mark(id, n) => id.provider
    case Checkpoint(provider, at) => provider
  }

  /** A provider stores its own records only. */
  ghost predicate OwnRows(st: Statement) {
    st.Insert? ==> forall r :: r in st.rows ==> r.provider == st.owner
  }

  function Execute(s: State, st: Statement): State {
    match st
    case Delete(source) => s.(records := DeleteSource(s.records, source))
    case Insert(owner, rows) => s.(records := InsertAll(s.records, rows))
    case Mark(id, n) => s.(processed := s.processed[id := n])
    case Checkpoint(provider, at) =>
      s.(checkpoints := s.checkpoints[provider := Latest(s.checkpoints, provider, at)])
  }

  function ExecuteAll(s: State, sts: seq<Statement>): State {
    if sts == [] then s else Execute(ExecuteAll(s, sts[..|sts| - 1]), sts[|sts| - 1])
  }

  function OwnRecords(rows: seq<CostRecord>, p: Provider): seq<CostRecord> {
    if rows == [] then []
    else if rows[0].provider == p then [rows[0]] + OwnRecords(rows[1..], p)
    else OwnRecords(rows[1..], p)
  }

  /** The part of the store that belongs to a provider. */
  function Own(s: State, p: Provider): State {
    State(OwnRecords(s.records, p), OwnMarks(s.processed, p), OwnCheckpoints(s.checkpoints, p))
  }

  function OwnMarks(marks: map<ReportId, nat>, p: Provider): map<ReportId, nat> {
    map id | id in marks && id.provider == p :: marks[id]
  }

  function OwnCheckpoints(checkpoints: map<Provider, Time>, p: Provider): map<Provider, Time> {
    map q | q in checkpoints && q == p :: checkpoints[q]
  }

  lemma MarkOwn(marks: map<ReportId, nat>, id: ReportId, n: nat, p: Provider)
    ensures OwnMarks(marks[id := n], p) == if id.provider == p then OwnMarks(marks, p)[id := n] else OwnMarks(marks, p)
  {}

  lemma CheckpointOwn(checkpoints: map<Provider, Time>, q: Provider, at: Time, p: Provider)
    ensures OwnCheckpoints(checkpoints[q := at], p) ==
      if q == p then OwnCheckpoints(checkpoints, p)[q := at] else OwnCheckpoints(checkpoints, p)
    ensures q == p ==> (q in checkpoints <==> q in OwnCheckpoints(checkpoints, p))
    ensures q == p && q in checkpoints ==> checkpoints[q] == OwnCheckpoints(checkpoints, p)[q]
  {}

  function Latest(checkpoints: map<Provider, Time>, q: Provider, at: Time): Time {
    if q in checkpoints && checkpoints[q] > at then checkpoints[q] else at
  }

  function StatementsOf(sts: seq<Statement>, p: Provider): seq<Statement> {
    if sts == [] then []
    else
      var last := sts[|sts| - 1];
      StatementsOf(sts[..|sts| - 1], p) + if IssuedBy(last) == p then [last] else []
  }

  // ---- records -----------------------------------------------------------------------------

  lemma {:induction false} OwnAppend(a: seq<CostRecord>, b: seq<CostRecord>, p: Provider)
    ensures OwnRecords(a + b, p) == OwnRecords(a, p) + OwnRecords(b, p)
  {
    if a == [] {
      assert a + b == b;
    } else {
      assert (a + b)[1..] == a[1..] + b;
      OwnAppend(a[1..], b, p);
    }
  }

  lemma OwnSnoc(rows: seq<CostRecord>, r: CostRecord, p: Provider)
    ensures OwnRecords(rows + [r], p) == if r.provider == p then OwnRecords(rows, p) + [r] else OwnRecords(rows, p)
  {
    OwnAppend(rows, [r], p);
  }

  lemma {:induction false} InsertOneOwn(rows: seq<CostRecord>, r: CostRecord, p: Provider)
    ensures OwnRecords(InsertOne(rows, r), p) ==
      if r.provider == p then InsertOne(OwnRecords(rows, p), r) else OwnRecords(rows, p)
  {
    if rows != [] {
      InsertOneOwn(rows[1..], r, p);
      if Conflicts(rows[0], r) {
        assert rows[0].provider == r.provider;
        assert ([r] + rows[1..])[1..] == rows[1..];
      } else {
        assert ([rows[0]] + InsertOne(rows[1..], r))[1..] == InsertOne(rows[1..], r);
      }
      if rows[0].provider == p {
        assert ([rows[0]] + OwnRecords(rows[1..], p))[1..] == OwnRecords(rows[1..], p);
      }
    }
  }

  lemma {:induction false} InsertAllOwn(rows: seq<CostRecord>, rs: seq<CostRecord>, owner: Provider, p: Provider)
    requires forall r :: r in rs ==> r.provider == owner
    ensures OwnRecords(InsertAll(rows, rs), p) ==
      if owner == p then InsertAll(OwnRecords(rows, p), rs) else OwnRecords(rows, p)
  {
    if rs != [] {
      InsertAllOwn(rows, rs[..|rs| - 1], owner, p);
      InsertOneOwn(InsertAll(rows, rs[..|rs| - 1]), rs[|rs| - 1], p);
    }
  }

  lemma {:induction false} OthersOwn(rows: seq<CostRecord>, s: Source, p: Provider)
    ensures OwnRecords(Others(rows, s), p) ==
      if s.provider == p then Others(OwnRecords(rows, p), s) else OwnRecords(rows, p)
  {
    if rows != [] {
      var init, last := rows[..|rows| - 1], rows[|rows| - 1];
      assert rows == init + [last];
      OthersOwn(init, s, p);
      OwnSnoc(init, last, p);
      OwnSnoc(Others(init, s), last, p);
      var own := OwnRecords(init, p);
      assert (own + [last])[..|own|] == own;
    }
  }

  // ---- statements ----------------------------------------------------------------------------

  /** A statement of another provider is invisible, one of the provider acts as if it were alone. */
  lemma ExecuteOwn(s: State, st: Statement, p: Provider)
    requires OwnRows(st)
    ensures Own(Execute(s, st), p) == if IssuedBy(st) == p then Execute(Own(s, p), st) else Own(s, p)
  {
    hide OwnRecords, InsertAll, Others, OwnMarks, OwnCheckpoints;
    match st
    case Delete(source) =>
      if source.name != "" { OthersOwn(s.records, source, p); }
    case Insert(owner, rows) =>
      InsertAllOwn(s.records, rows, owner, p);
    case Mark(id, n) =>
      MarkOwn(s.processed, id, n, p);
    case Checkpoint(provider, at) =>
      CheckpointOwn(s.checkpoints, provider, Latest(s.checkpoints, provider, at), p);
  }

  /** Whatever the interleaving, each provider's part of the store is what its own statements alone would make it. */
  lemma {:induction false} ProvidersAreIndependent(s: State, sts: seq<Statement>, p: Provider)
    requires forall st :: st in sts ==> OwnRows(st)
    ensures Own(ExecuteAll(s, sts), p) == ExecuteAll(Own(s, p), StatementsOf(sts, p))
  {
    hide Own, Execute;
    if sts != [] {
      var init, last := sts[..|sts| - 1], sts[|sts| - 1];
      ProvidersAreIndependent(s, init, p);
      ExecuteOwn(ExecuteAll(s, init), last, p);
      var own := StatementsOf(init, p);
      assert (own + [last])[..|own|] == own && own + [] == own;
    }
  }

  /** Two interleavings of the same statements leave every provider with the same part of the store, and answer
      its questions about processed reports and checkpoints alike. */
  lemma InterleavingsAgree(s: State, sts: seq<Statement>, others: seq<Statement>, p: Provider, id: ReportId)
    requires forall st :: st in sts || st in others ==> OwnRows(st)
    requires StatementsOf(sts, p) == StatementsOf(others, p) && id.provider == p
    ensures Own(ExecuteAll(s, sts), p) == Own(ExecuteAll(s, others), p)
    ensures id in ExecuteAll(s, sts).processed <==> id in ExecuteAll(s, others).processed
    ensures p in ExecuteAll(s, sts).checkpoints <==> p in ExecuteAll(s, others).checkpoints
    ensures p in ExecuteAll(s, sts).checkpoints ==>
      ExecuteAll(s, sts).checkpoints[p] == ExecuteAll(s, others).checkpoints[p]
  {
    hide ExecuteAll, StatementsOf;
    ProvidersAreIndependent(s, sts, p);
    ProvidersAreIndependent(s, others, p);
    var a, b := Own(ExecuteAll(s, sts), p), Own(ExecuteAll(s, others), p);
    assert id in a.processed <==> id in b.processed;
    assert p in a.checkpoints <==> p in b.checkpoints;
    assert p in a.checkpoints ==> a.checkpoints[p] == b.checkpoints[p];
  }

  // ---- the statements and the store ---------------------------------------------------------------

  ghost function StateOf(store: Store): State
    reads store
  {
    State(store.records, store.processed, store.checkpoints)
  }

  /** Each statement is one call on the store, and a call that fails changes nothing: the histories above are those of
      the store's own operations. */
  method Perform(store: Store, st: Statement) returns (ok: bool)
    modifies store
    ensures ok ==> StateOf(store) == Execute(old(StateOf(store)), st)
    ensures !ok ==> StateOf(store) == old(StateOf(store))
  {
    match st
    case Delete(source) =>
      ok := store.DeleteCostRecordsForSource(source);
    case Insert(owner, rows) =>
      ok := store.StoreCostRecords(rows);
    case Mark(id, n) =>
      ok := store.MarkReportProcessed(id, n);
    case Checkpoint(provider, at) =>
      ok := store.MarkIngestionCheckpoint(provider, at);
  }

  /** Any number of calls, some of which may fail: the store is as after those that succeeded, so what it holds for a
      provider is what that provider's successful statements alone would make it. */
  method PerformAll(store: Store, sts: seq<Statement>, p: Provider) returns (ghost done: seq<Statement>)
    requires forall st :: st in sts ==> OwnRows(st)
    modifies store
    ensures forall st :: st in done ==> st in sts
    ensures StateOf(store) == ExecuteAll(old(StateOf(store)), done)
    ensures Own(StateOf(store), p) == ExecuteAll(Own(old(StateOf(store)), p), StatementsOf(done, p))
  {
    hide Own, Execute, OwnRows, StatementsOf;
    done := [];
    ghost var before := StateOf(store);
    for i := 0 to |sts|
      invariant forall st :: st in done ==> st in sts
      invariant StateOf(store) == ExecuteAll(before, done)
    {
      var ok := Perform(store, sts[i]);
      if ok {
        assert (done + [sts[i]])[..|done|] == done;
        done := done + [sts[i]];
      }
    }
    ProvidersAreIndependent(before, done, p);
  }
}

/** What a streamed file leaves in the store, in terms of its parsed rows: which of them, and what of each. */
module Retention {
  import opened Calendar
  import opened Domain
  import opened CostStore
  import opened Collect
  import opened Streaming

  // ---- the stored rows of a stream ---------------------------------------------------------------

  /** The rows that are not too old, each for the cutoff of its own moment. */
  ghost function StoredRows(rows: seq<CostRecord>, cutoffs: seq<Time>): seq<CostRecord>
    requires |rows| == |cutoffs|
  {
    if rows == [] then []
    else
      var last := |rows| - 1;
      StoredRows(rows[..last], cutoffs[..last]) + StoredRow(rows[last], cutoffs[last])
  }

  ghost function Repeated(cutoff: Time, n: nat): (cutoffs: seq<Time>)
    ensures |cutoffs| == n && forall i :: 0 <= i < n ==> cutoffs[i] == cutoff
  {
    if n == 0 then [] else Repeated(cutoff, n - 1) + [cutoff]
  }

  /** For every row handed over, the cutoff of its call. */
  ghost function Cutoffs(calls: seq<Call>): (cutoffs: seq<Time>)
    ensures |cutoffs| == |Handed(calls)|
  {
    if calls == [] then []
    else Cutoffs(calls[..|calls| - 1]) + Repeated(calls[|calls| - 1].cutoff, |HandedBy(calls[|calls| - 1])|)
  }

  ghost function StoredRow(r: CostRecord, cutoff: Time): seq<CostRecord> {
    if IsOld(r, cutoff) then [] else [Normalize(r)]
  }

  lemma StoredRowsSnoc(rows: seq<CostRecord>, cutoffs: seq<Time>, r: CostRecord, cutoff: Time)
    requires |rows| == |cutoffs|
    ensures StoredRows(rows + [r], cutoffs + [cutoff]) == StoredRows(rows, cutoffs) + StoredRow(r, cutoff)
  {
    assert (rows + [r])[..|rows|] == rows && (cutoffs + [cutoff])[..|rows|] == cutoffs;
  }

  lemma {:induction false} StoredRowsAppend(a: seq<CostRecord>, c: seq<Time>, b: seq<CostRecord>, d: seq<Time>)
    requires |a| == |c| && |b| == |d|
    ensures StoredRows(a + b, c + d) == StoredRows(a, c) + StoredRows(b, d)
  {
    hide StoredRows, StoredRow;
    if b == [] {
      assert d == [] && a + b == a && c + d == c;
      assert StoredRows([], []) == [] by { NothingStored(); }
    } else {
      var last := |b| - 1;
      assert b == b[..last] + [b[last]] && d == d[..last] + [d[last]];
      assert a + b == a + b[..last] + [b[last]] && c + d == c + d[..last] + [d[last]];
      StoredRowsAppend(a, c, b[..last], d[..last]);
      StoredRowsSnoc(a + b[..last], c + d[..last], b[last], d[last]);
      StoredRowsSnoc(b[..last], d[..last], b[last], d[last]);
    }
  }

  lemma NothingStored()
    ensures StoredRows([], []) == []
  {}

  lemma {:induction false} RetainedIsStoredRows(raw: seq<CostRecord>, cutoff: Time)
    ensures Retained(raw, cutoff) == StoredRows(raw, Repeated(cutoff, |raw|))
  {
    if raw != [] {
      var init := raw[..|raw| - 1];
      RetainedIsStoredRows(init, cutoff);
      assert NormalizeAll(raw)[..|init|] == NormalizeAll(init);
      assert Repeated(cutoff, |raw|)[..|init|] == Repeated(cutoff, |init|);
    }
  }

  lemma {:induction false} StoredByCutoffs(calls: seq<Call>)
    requires forall c :: c in calls ==> c.acked
    ensures Stored(calls) == StoredRows(Handed(calls), Cutoffs(calls))
  {
    hide Normalize, NormalizeAll, WithinLookback, IsOld, Repeated;
    if calls != [] {
      var init, last := calls[..|calls| - 1], calls[|calls| - 1];
      assert last in calls;
      StoredByCutoffs(init);
      RetainedIsStoredRows(HandedBy(last), last.cutoff);
      StoredRowsAppend(Handed(init), Cutoffs(init), HandedBy(last), Repeated(last.cutoff, |HandedBy(last)|));
      assert Retained([], last.cutoff) == StoredRows([], []) by { RetainedIsStoredRows([], last.cutoff); }
    }
  }

  /** A complete stream stores each of its rows that is not too old for its moment, once and in order. */
  lemma StreamStores(calls: seq<Call>, id: ReportId, rows: seq<CostRecord>, limit: nat)
    requires Streamed(calls, id, rows, limit)
    ensures Handed(calls) == rows && Stored(calls) == StoredRows(rows, Cutoffs(calls))
  {
    hide StoredRows;
    var chunks := calls[..|calls| - 1];
    assert Handed(chunks) + [] == Handed(chunks);
    forall c | c in calls ensures c.acked {
      var i :| 0 <= i < |calls| && calls[i] == c;
      assert i < |chunks| ==> IsChunk(chunks[i], id, i == 0, limit);
    }
    StoredByCutoffs(calls);
  }

  lemma {:induction false} CutoffsFrom(calls: seq<Call>, i: nat) returns (c: Call)
    requires i < |Cutoffs(calls)|
    ensures c in calls && Cutoffs(calls)[i] == c.cutoff
  {
    var init, last := calls[..|calls| - 1], calls[|calls| - 1];
    if i < |Cutoffs(init)| {
      c := CutoffsFrom(init, i);
    } else {
      c := last;
    }
  }

  // ---- what they say -----------------------------------------------------------------------------

  /** The rows dated at or after their cutoff, or not at all. */
  function RecentRows(rows: seq<CostRecord>, cutoffs: seq<Time>): seq<CostRecord>
    requires |rows| == |cutoffs|
  {
    if rows == [] then []
    else
      var last := |rows| - 1;
      RecentRows(rows[..last], cutoffs[..last]) +
      if rows[last].timestamp >= cutoffs[last] || rows[last].timestamp == ZERO_TIME then [rows[last]] else []
  }

  /** Everything as parsed, but for an empty category, which becomes the service. */
  predicate Unaltered(raw: CostRecord, stored: CostRecord) {
    && stored.(charge := stored.charge.(category := raw.charge.category)) == raw
    && (raw.charge.category != "" ==> stored.charge.category == raw.charge.category)
    && (raw.charge.category == "" ==> stored.charge.category == raw.charge.service)
  }

  ghost predicate AllUnaltered(raw: seq<CostRecord>, stored: seq<CostRecord>) {
    |raw| == |stored| && forall i :: 0 <= i < |raw| ==> Unaltered(raw[i], stored[i])
  }

  function CostOfAll(rows: seq<CostRecord>): real {
    if rows == [] then 0.0 else CostOfAll(rows[..|rows| - 1]) + rows[|rows| - 1].charge.cost
  }

  lemma {:induction false} UnalteredCost(raw: seq<CostRecord>, stored: seq<CostRecord>)
    requires AllUnaltered(raw, stored)
    ensures CostOfAll(stored) == CostOfAll(raw)
  {
    if raw != [] {
      assert Unaltered(raw[|raw| - 1], stored[|raw| - 1]);
      UnalteredCost(raw[..|raw| - 1], stored[..|raw| - 1]);
    }
  }

  lemma {:induction false} StoredRowsSay(rows: seq<CostRecord>, cutoffs: seq<Time>)
    requires |rows| == |cutoffs|
    ensures AllUnaltered(RecentRows(rows, cutoffs), StoredRows(rows, cutoffs))
  {
    if rows != [] {
      StoredRowsSay(rows[..|rows| - 1], cutoffs[..|rows| - 1]);
    }
  }

  /** The cutoffs are those of moments between two times. */
  ghost predicate CutoffsBetween(cutoffs: seq<Time>, earliest: Time, latest: Time) {
    forall i :: 0 <= i < |cutoffs| ==> earliest <= cutoffs[i] <= latest
  }

  /** The stored records are the rows that were recent when they were handed over, in order and unaltered. */
  ghost predicate Retains(stored: seq<CostRecord>, rows: seq<CostRecord>, earliest: Time, latest: Time) {
    exists cutoffs: seq<Time> ::
      |cutoffs| == |rows| && CutoffsBetween(cutoffs, earliest, latest) &&
      AllUnaltered(RecentRows(rows, cutoffs), stored)
  }

  /** A complete stream within these moments retains its rows. */
  lemma StreamRetains(calls: seq<Call>, id: ReportId, rows: seq<CostRecord>, limit: nat, earliest: Time, latest: Time)
    requires Streamed(calls, id, rows, limit) && CallsBetween(calls, earliest, latest)
    ensures Retains(Stored(calls), rows, earliest, latest)
  {
    hide Streamed, StoredRows, RecentRows, AllUnaltered, Cutoffs;
    StreamStores(calls, id, rows, limit);
    StoredRowsSay(rows, Cutoffs(calls));
    forall i | 0 <= i < |Cutoffs(calls)| ensures earliest <= Cutoffs(calls)[i] <= latest {
      var c := CutoffsFrom(calls, i);
    }
  }

  /** Rows between the two cutoffs aside, what is retained is decided, and so is its cost. */
  lemma RetainedCost(stored: seq<CostRecord>, rows: seq<CostRecord>, earliest: Time, latest: Time)
    requires Retains(stored, rows, earliest, latest)
    requires forall r :: r in rows ==> !(earliest <= r.timestamp < latest)
    ensures CostOfAll(stored) == CostOfAll(RecentRows(rows, Repeated(latest, |rows|)))
  {
    var cutoffs: seq<Time> :| |cutoffs| == |rows| && CutoffsBetween(cutoffs, earliest, latest) &&
      AllUnaltered(RecentRows(rows, cutoffs), stored);
    SameRecent(rows, cutoffs, earliest, latest);
    UnalteredCost(RecentRows(rows, cutoffs), stored);
  }

  lemma {:induction false} SameRecent(rows: seq<CostRecord>, cutoffs: seq<Time>, earliest: Time, latest: Time)
    requires |cutoffs| == |rows| && CutoffsBetween(cutoffs, earliest, latest)
    requires forall r :: r in rows ==> !(earliest <= r.timestamp < latest)
    ensures RecentRows(rows, cutoffs) == RecentRows(rows, Repeated(latest, |rows|))
  {
    if rows != [] {
      var last := |rows| - 1;
      assert rows[last] in rows;
      assert Repeated(latest, |rows|)[..last] == Repeated(latest, last);
      SameRecent(rows[..last], cutoffs[..last], earliest, latest);
    }
  }

  /** Longer spans retain as well. */
  lemma RetainsLater(stored: seq<CostRecord>, rows: seq<CostRecord>, earliest: Time, latest: Time, from: Time, to: Time)
    requires Retains(stored, rows, earliest, latest) && from <= earliest && latest <= to
    ensures Retains(stored, rows, from, to)
  {
    var cutoffs: seq<Time> :| |cutoffs| == |rows| && CutoffsBetween(cutoffs, earliest, latest) &&
      AllUnaltered(RecentRows(rows, cutoffs), stored);
    assert CutoffsBetween(cutoffs, from, to);
  }

  // ---- what a provider's sources hold ------------------------------------------------------------

  /** Each of these objects of a provider holds its rows, as a stream between these moments retained them. */
  ghost predicate Holds(held: map<string, seq<CostRecord>>, provider: Provider, records: seq<CostRecord>,
                        earliest: Time, latest: Time) {
    forall name <- held :: Retains(OfSource(records, Source(provider, name)), held[name], earliest, latest)
  }

  /** One object was replaced, or emptied. */
  lemma HoldsAfter(held: map<string, seq<CostRecord>>, provider: Provider, before: seq<CostRecord>,
                   after: seq<CostRecord>, name: string, rows: seq<CostRecord>, earliest: Time, from: Time,
                   latest: Time, to: Time)
    requires Holds(held, provider, before, earliest, latest) && earliest <= from && latest <= to
    requires Others(after, Source(provider, name)) == Others(before, Source(provider, name))
    ensures Holds(held - {name}, provider, after, earliest, to)
    ensures Retains(OfSource(after, Source(provider, name)), rows, from, to) ==>
      Holds(held[name := rows], provider, after, earliest, to)
  {
    hide Retains, OfSource, Others;
    var s := Source(provider, name);
    forall other | other in held && other != name
      ensures Retains(OfSource(after, Source(provider, other)), held[other], earliest, to)
    {
      OtherSourceKept(before, s, Source(provider, other));
      OtherSourceKept(after, s, Source(provider, other));
      RetainsLater(OfSource(before, Source(provider, other)), held[other], earliest, latest, earliest, to);
    }
    if Retains(OfSource(after, s), rows, from, to) {
      RetainsLater(OfSource(after, s), rows, from, to, earliest, to);
    }
  }

  /** Nothing of the provider was touched. */
  lemma HoldsStill(held: map<string, seq<CostRecord>>, provider: Provider, before: seq<CostRecord>,
                   after: seq<CostRecord>, sources: set<Source>, earliest: Time, latest: Time, from: Time, to: Time)
    requires Holds(held, provider, before, earliest, latest) && from <= earliest && latest <= to
    requires OnlyChanged(before, after, sources) && forall s :: s in sources ==> s.provider != provider
    ensures Holds(held, provider, after, from, to)
  {
    hide Retains, OfSource;
    forall name <- held ensures Retains(OfSource(after, Source(provider, name)), held[name], from, to) {
      assert Source(provider, name) !in sources;
      RetainsLater(OfSource(before, Source(provider, name)), held[name], earliest, latest, from, to);
    }
  }
}

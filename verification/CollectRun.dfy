/** A collection run: the window each provider is asked for, the checkpoint it may advance, and the dashboard
    refresh over what was inserted. */
module CollectRun {
  import opened Calendar
  import opened Domain
  import opened CostStore
  import opened Collect
  import opened Retention
  import opened Rows
  import opened Summaries
  import opened SummariesExact
  import DashboardRefresh
  import Cur = CurCollector
  import CurParser
  import Oci = OciCollector

  // ---- the requested window ----------------------------------------------------------------

  /** effectiveSince; None when the checkpoint cannot be read. */
  function EffectiveSince(requested: Time, now: Time, lookbackDays: int, checkpoint: Option<Time>): Time {
    var lookbackSince := AddDays(now, -lookbackDays);
    var effective := if IsZero(requested) || requested < lookbackSince then lookbackSince else requested;
    if checkpoint.None? then effective
    else if checkpoint.value > effective && checkpoint.value - HOUR > effective then checkpoint.value - HOUR
    else effective
  }

  /** LastIngestionCheckpoint: the epoch when there is none. */
  function LastCheckpoint(checkpoints: map<Provider, Time>, provider: Provider): Time {
    if provider in checkpoints then checkpoints[provider] else 0
  }

  function Max(a: Time, b: Time): Time { if a < b then b else a }

  /** The window starts at the latest of the requested time, the lookback limit and an hour before the checkpoint. */
  lemma EffectiveSinceIsLatest(requested: Time, now: Time, lookbackDays: int, checkpoint: Time)
    requires !IsZero(requested) || ZERO_TIME <= AddDays(now, -lookbackDays)
    ensures EffectiveSince(requested, now, lookbackDays, Some(checkpoint)) ==
            Max(Max(requested, now - lookbackDays * DAY), checkpoint - DAY / 24)
    ensures EffectiveSince(requested, now, lookbackDays, None) == Max(requested, now - lookbackDays * DAY)
  {}

  /** A window never lies ahead of its run, if neither the request nor the checkpoint does. */
  lemma SinceNotAhead(requested: Time, now: Time, lookbackDays: nat, checkpoint: Option<Time>)
    requires requested <= now && (checkpoint.Some? ==> checkpoint.value <= now)
    ensures EffectiveSince(requested, now, lookbackDays, checkpoint) <= now
  {}

  // ---- one provider --------------------------------------------------------------------------

  datatype ProviderResult = ProviderResult(
    recordsParsed: nat, recordsWithinLookback: nat, recordsSkippedOld: nat, recordsInserted: nat,
    earliestRecord: Time, failed: bool)

  /** No record is counted that was not parsed, and in an error-free run every parsed record is either stored or counted
      as too old. */
  ghost predicate Conserved(pr: ProviderResult, stored: seq<CostRecord>) {
    && pr.recordsInserted == |stored| <= pr.recordsWithinLookback && EarliestOf(pr.earliestRecord, stored)
    && pr.recordsWithinLookback + pr.recordsSkippedOld <= pr.recordsParsed
    && (!pr.failed ==>
        pr.recordsParsed == pr.recordsWithinLookback + pr.recordsSkippedOld
        && pr.recordsInserted == pr.recordsWithinLookback)
  }

  ghost predicate CheckpointsKept(before: map<Provider, Time>, now: map<Provider, Time>, provider: Provider) {
    && (forall p <- before :: p in now && before[p] <= now[p])
    && (forall p <- now :: p != provider ==> p in before && now[p] == before[p])
  }

  /** A checkpoint is the old one or a moment of the run. */
  ghost predicate MovedWithin(before: map<Provider, Time>, now: map<Provider, Time>, began: Time, ended: Time) {
    forall p <- now :: (p in before && now[p] == before[p]) || began <= now[p] <= ended
  }

  /** No checkpoint lies ahead of this moment. */
  ghost predicate NoneAhead(checkpoints: map<Provider, Time>, now: Time) {
    forall p <- checkpoints :: checkpoints[p] <= now
  }

  /** No checkpoint decreases or disappears. */
  ghost predicate NeverFall(before: map<Provider, Time>, now: map<Provider, Time>) {
    forall p <- before :: p in now && before[p] <= now[p]
  }

  /** Marks are only added, and only the provider's. */
  ghost predicate OnlyMarks(before: set<ReportId>, now: set<ReportId>, provider: Provider) {
    before <= now && forall id :: id in now && id !in before ==> id.provider == provider
  }

  function ResultOf(run: ProviderRun, parsed: nat, failed: bool): ProviderResult
    reads run
  {
    ProviderResult(parsed, run.recordsWithinLookback, run.recordsSkippedOld, run.recordsInserted,
        run.earliestRecord, failed)
  }

  method AdvanceCheckpoint(run: ProviderRun, provider: Provider) returns (ok: bool)
    modifies run`clock, run.store`checkpoints
    ensures old(run.clock) <= run.clock
    ensures MovedWithin(old(run.store.checkpoints), run.store.checkpoints, old(run.clock), run.clock)
    ensures CheckpointsKept(old(run.store.checkpoints), run.store.checkpoints, provider)
    ensures ok ==> provider in run.store.checkpoints && run.store.checkpoints[provider] >= old(run.clock)
  {
    var now := run.Now();
    ok := run.store.MarkIngestionCheckpoint(provider, now);
  }

  /** The OCI provider's share of a run. A checkpoint that moves says that every first candidate is marked, and every
      listed report exactly when none is mistaken for another. */
  method RunOci(store: Store, lookbackDays: int, bucket: string, objects: seq<Oci.Candidate>, limits: Oci.Limits,
                requested: Time, clock: Time)
    returns (pr: ProviderResult, result: Oci.Result, errors: nat, since: Time, ended: Time,
             ghost stored: seq<CostRecord>, ghost trail: Oci.Trail)
    requires AsCollected(store.records) && Oci.ValidLimits(limits)
    requires forall c :: c in objects ==> Oci.Parsed(c)
    modifies store
    ensures Conserved(pr, stored) && AsCollected(store.records)
    ensures CheckpointsKept(old(store.checkpoints), store.checkpoints, OCI)
    ensures OnlyMarks(old(store.processed).Keys, store.processed.Keys, OCI)
    ensures pr.failed ==> errors > 0
    ensures clock <= ended && MovedWithin(old(store.checkpoints), store.checkpoints, clock, ended)
    ensures var checkpoint := old(if OCI in store.checkpoints then store.checkpoints[OCI] else 0);
            since in {EffectiveSince(requested, clock, lookbackDays, None),
                      EffectiveSince(requested, clock, lookbackDays, Some(checkpoint))}
    ensures Oci.WithinLimits(|trail.downloads|, result.filesProcessed, trail, limits, since)
    ensures store.processed.Keys == old(store.processed).Keys + Oci.Reports(bucket, trail.done)
    ensures forall c :: c in trail.done ==> c in objects
    ensures Holds(trail.held, OCI, store.records, AddDays(clock, -lookbackDays), AddDays(ended, -lookbackDays))
    ensures !pr.failed ==> trail.held == Oci.LastRows(trail.done)
    ensures store.checkpoints != old(store.checkpoints) ==>
      !pr.failed && result.filesProcessed > 0 && !Oci.HitLimit(result)
    ensures errors == 0 && result.filesProcessed > 0 && !Oci.HitLimit(result) ==> OCI in store.checkpoints
    ensures store.checkpoints != old(store.checkpoints) ==>
      store.processed.Keys == old(store.processed).Keys + Oci.Reports(bucket, Oci.Firsts(objects))
    ensures store.checkpoints != old(store.checkpoints) ==>
      (Oci.Reports(bucket, objects) <= store.processed.Keys <==>
         Oci.Unmistaken(bucket, objects, old(store.processed).Keys))
    ensures OnlyChanged(old(store.records), store.records, Oci.SourcesOf(objects))
  {
    hide EarliestOf, AsCollected, OnlyChanged, Oci.Parsed, Oci.Reports, Oci.Firsts, Oci.SourcesOf, Oci.Unmistaken,
         Oci.RunsWithin, Oci.Distinct, Holds, Oci.LastRows;
    var readable: bool := *;
    since := EffectiveSince(requested, clock, lookbackDays,
        if readable then Some(LastCheckpoint(store.checkpoints, OCI)) else None);
    var run := new ProviderRun(store, lookbackDays, clock);
    ghost var consumed;
    var t;
    t, trail, consumed := Oci.CollectStream(run, bucket, objects, limits, since);
    pr, stored, errors := ResultOf(run, t.result.recordsProcessed, t.errors > 0), run.stored, t.errors;
    result := t.result;
    ghost var collected := run.clock;
    Oci.ReportsAreOci(bucket, Oci.Firsts(objects[..consumed]));
    if t.errors == 0 && t.result.filesProcessed > 0 && !Oci.HitLimit(t.result) {
      assert objects[..consumed] == objects;
      Oci.AllMarkedIff(bucket, objects, old(store.processed).Keys);
      var ok := AdvanceCheckpoint(run, OCI);
      errors := if ok then errors else errors + 1;
    }
    ended := run.clock;
    NothingChanged(store.records);
    HoldsStill(trail.held, OCI, store.records, store.records, {}, AddDays(clock, -lookbackDays),
               AddDays(collected, -lookbackDays), AddDays(clock, -lookbackDays), AddDays(ended, -lookbackDays));
  }

  /** The AWS provider's share of a run. */
  method RunAws(store: Store, lookbackDays: int, h: CurParser.Hashing, bucket: string, files: seq<Cur.CurFile>,
                maxFiles: nat, limit: nat, clock: Time)
    returns (pr: ProviderResult, result: Cur.Result, errors: nat, ended: Time, ghost stored: seq<CostRecord>,
             ghost consumed: nat, ghost held: map<string, seq<CostRecord>>)
    requires AsCollected(store.records) && CurParser.CollisionFree(h) && 1 <= limit
    requires forall f :: f in files ==> f.key != ""
    modifies store
    ensures Conserved(pr, stored) && AsCollected(store.records)
    ensures CheckpointsKept(old(store.checkpoints), store.checkpoints, AWS)
    ensures OnlyMarks(old(store.processed).Keys, store.processed.Keys, AWS)
    ensures pr.failed ==> errors > 0
    ensures clock <= ended && MovedWithin(old(store.checkpoints), store.checkpoints, clock, ended)
    ensures consumed <= |files| && (!pr.failed && !Cur.HitLimit(result) ==> consumed == |files|)
    ensures Holds(held, AWS, store.records, AddDays(clock, -lookbackDays), AddDays(ended, -lookbackDays))
    ensures !pr.failed ==> held == Cur.LastRows(h, files[..consumed])
    ensures store.checkpoints != old(store.checkpoints) ==>
      !pr.failed && result.filesProcessed > 0 && !Cur.HitLimit(result)
    ensures errors == 0 && result.filesProcessed > 0 && !Cur.HitLimit(result) ==> AWS in store.checkpoints
    ensures store.checkpoints != old(store.checkpoints) ==>
      store.processed.Keys == old(store.processed).Keys + Cur.Reports(bucket, files)
    ensures OnlyChanged(old(store.records), store.records, Cur.SourcesOf(files))
  {
    hide EarliestOf, AsCollected, OnlyChanged, Cur.Reports, Cur.SourcesOf, CurParser.CollisionFree, Holds, Cur.LastRows;
    var run := new ProviderRun(store, lookbackDays, clock);
    var r;
    r, consumed, held := Cur.CollectStream(run, h, bucket, files, maxFiles, limit);
    pr, stored, errors := ResultOf(run, r.recordsProcessed, r.errors > 0), run.stored, r.errors;
    result := r;
    ghost var collected := run.clock;
    Cur.ReportsAreAws(bucket, files[..consumed]);
    if r.errors == 0 && r.filesProcessed > 0 && !Cur.HitLimit(r) {
      assert files[..consumed] == files;
      var ok := AdvanceCheckpoint(run, AWS);
      errors := if ok then errors else errors + 1;
    }
    ended := run.clock;
    NothingChanged(store.records);
    HoldsStill(held, AWS, store.records, store.records, {}, AddDays(clock, -lookbackDays),
               AddDays(collected, -lookbackDays), AddDays(clock, -lookbackDays), AddDays(ended, -lookbackDays));
  }

  // ---- the refresh after the providers ------------------------------------------------------

  function TotalInserted(results: seq<ProviderResult>): nat {
    if results == [] then 0 else TotalInserted(results[..|results| - 1]) + results[|results| - 1].recordsInserted
  }

  /** The earliest record of the run, or now when no provider has one. */
  method EarliestRecord(results: seq<ProviderResult>, now: Time) returns (earliest: Time, totalInserted: nat)
    ensures totalInserted == TotalInserted(results)
    ensures earliest <= now
        && forall pr :: pr in results && !IsZero(pr.earliestRecord) ==> earliest <= pr.earliestRecord
    ensures earliest == now || exists pr :: pr in results && !IsZero(pr.earliestRecord) && earliest == pr.earliestRecord
  {
    earliest, totalInserted := now, 0;
    for i := 0 to |results|
      invariant totalInserted == TotalInserted(results[..i])
      invariant earliest <= now
          && forall pr :: pr in results[..i] && !IsZero(pr.earliestRecord) ==> earliest <= pr.earliestRecord
      invariant earliest == now
          || exists pr :: pr in results[..i] && !IsZero(pr.earliestRecord) && earliest == pr.earliestRecord
    {
      assert results[..i + 1] == results[..i] + [results[i]];
      totalInserted := totalInserted + results[i].recordsInserted;
      if !IsZero(results[i].earliestRecord) && results[i].earliestRecord < earliest {
        earliest := results[i].earliestRecord;
      }
    }
    assert results[..|results|] == results;
  }

  function RefreshSince(earliest: Time, now: Time, since: Time): Time {
    if IsZero(DayStart(earliest)) || DayStart(earliest) > now then since else DayStart(earliest)
  }

  /** Dated after the first day of year 1, on which the zero time lies. */
  ghost predicate Dated(records: seq<CostRecord>) {
    forall r :: r in records ==> !IsZero(DayStart(r.timestamp))
  }

  /** The bucket of every record dated up to `to` lies in the refreshed window. */
  ghost predicate Covered(records: seq<CostRecord>, from: Time, to: Time) {
    forall r, w :: r in records && r.timestamp <= to ==> InWindow(w, r.timestamp, from, to)
  }

  ghost predicate InWindow(w: Window, t: Time, from: Time, to: Time) {
    var (wf, wt) := AlignRefreshWindow(w, from, to);
    wf <= TimeBucket(w, t) < wt
  }

  lemma InstantCovered(w: Window, t: Time, from: Time, to: Time)
    requires from <= t <= to
    ensures InWindow(w, t, from, to)
  {
    var (wf, wt) := AlignRefreshWindow(w, from, to);
    RefreshWindowAligned(w, from, to);
    NoBucketSplit(w, wf, wt, t);
  }

  /** The refresh starts no later than any record a provider stored. */
  lemma StoredRecordsCovered(pr: ProviderResult, stored: seq<CostRecord>, earliest: Time, now: Time, since: Time,
                             end: Time)
    requires Conserved(pr, stored) && Dated(stored) && (!IsZero(pr.earliestRecord) ==> earliest <= pr.earliestRecord)
    requires earliest <= now && !IsZero(DayStart(earliest))
    ensures Covered(stored, RefreshSince(earliest, now, since), end)
  {
    forall r, w | r in stored && r.timestamp <= end
        ensures InWindow(w, r.timestamp, RefreshSince(earliest, now, since), end) {
      assert !IsZero(r.timestamp);
      InstantCovered(w, r.timestamp, RefreshSince(earliest, now, since), end);
    }
  }

  /** After a successful refresh the summary rows of every covered record's bucket are those of the aggregation of
      all records, and so are missing ones; buckets before the retention cutoff are gone. */
  lemma CoveredBucketsExact(t: DashboardRefresh.Tables, records: seq<CostRecord>, covered: seq<CostRecord>, from: Time,
                            to: Time, cutoff: Time, r: CostRecord, w: Window, row: SummaryRow)
    requires t.summaries.Keys == {Daily, Weekly, Monthly} && from <= to
    requires Covered(covered, from, to) && r in covered && r.timestamp <= to
    requires row.key.periodStart == TimeBucket(w, r.timestamp)
    ensures row in DashboardRefresh.Refreshed(t, records, from, to, cutoff).summaries[w] <==>
            row in FullSummary(records, w) && cutoff <= row.key.periodStart
    ensures row in DashboardRefresh.Refreshed(t, records, from, to, cutoff).summaries[w] <==>
            IsSummary(records, w, row) && cutoff <= row.key.periodStart
  {
    hide IsSummary;
    SummaryRowsSay(records, w);
    hide FullSummary, AlignRefreshWindow, TimeBucket, DashboardRefresh.Refreshed, Filter;
    var (wf, wt) := AlignRefreshWindow(w, from, to);
    DashboardRefresh.RefreshedSummariesExact(t, records, from, to, cutoff, w);
    assert InWindow(w, r.timestamp, from, to);
    assert RowIn(wf, wt)(row);
  }

  // ---- the whole run ---------------------------------------------------------------------------

  /** What the listings of the two file collectors return, and their limits. */
  datatype Plan = Plan(
    lookbackDays: int, retentionDays: int, requested: Time,
    ociBucket: string, ociObjects: seq<Oci.Candidate>, ociLimits: Oci.Limits,
    hashing: CurParser.Hashing, awsBucket: string, awsFiles: seq<Cur.CurFile>, awsMaxFiles: nat, awsBuffer: nat)

  ghost predicate Wellformed(p: Plan) {
    && Oci.ValidLimits(p.ociLimits) && 1 <= p.awsBuffer && CurParser.CollisionFree(p.hashing)
    && (forall c :: c in p.ociObjects ==> Oci.Parsed(c)) && (forall f :: f in p.awsFiles ==> f.key != "")
  }

  /** The refresh that a run ends with, and its moment. */
  datatype Refresh = Refresh(at: Time, from: Time, to: Time, cutoff: Time)

  /** The provider's checkpoint is not what it was. */
  ghost predicate Moved(before: map<Provider, Time>, now: map<Provider, Time>, provider: Provider) {
    provider in now && (provider in before ==> before[provider] != now[provider])
  }

  /** Checkpoints move only forward, and a provider's only after a collection without limit that processed something,
      when every first candidate, or every listed file, is marked; every listed report then is exactly if none was
      mistaken for another under the marks of the start. */
  ghost predicate MovesEarned(before: map<Provider, Time>, now: map<Provider, Time>, marked: set<ReportId>,
                              marks: set<ReportId>, p: Plan, oci: Oci.Result, aws: Cur.Result) {
    && NeverFall(before, now)
    && (Moved(before, now, OCI) ==>
          && oci.filesProcessed > 0 && !Oci.HitLimit(oci)
          && Oci.Reports(p.ociBucket, Oci.Firsts(p.ociObjects)) <= marks
          && (Oci.Reports(p.ociBucket, p.ociObjects) <= marks <==>
                Oci.Unmistaken(p.ociBucket, p.ociObjects, marked)))
    && (Moved(before, now, AWS) ==>
          aws.filesProcessed > 0 && !Cur.HitLimit(aws) && Cur.Reports(p.awsBucket, p.awsFiles) <= marks)
  }

  /** AWS marks make no difference to OCI reports. */
  lemma OtherMarks(bucket: string, objects: seq<Oci.Candidate>, before: set<ReportId>, now: set<ReportId>)
    requires OnlyMarks(before, now, AWS)
    ensures Oci.Reports(bucket, objects) <= before <==> Oci.Reports(bucket, objects) <= now
    ensures Oci.Unmistaken(bucket, objects, before) <==> Oci.Unmistaken(bucket, objects, now)
  {
    hide Oci.Firsts, Oci.Identity, Oci.Reports;
    Oci.ReportsAreOci(bucket, objects);
  }

  /** The sources a run may change. */
  function ListedSources(p: Plan): set<Source> { Oci.SourcesOf(p.ociObjects) + Cur.SourcesOf(p.awsFiles) }

  lemma OnlyChangedTwice(a: seq<CostRecord>, b: seq<CostRecord>, c: seq<CostRecord>, s: set<Source>, t: set<Source>)
    requires OnlyChanged(a, b, s) && OnlyChanged(b, c, t)
    ensures OnlyChanged(a, c, s + t) && OnlyChanged(a, c, t + s)
  {
    hide OfSource;
  }

  /** What a run leaves in the objects of both providers: of which reports and files it is known, and whether a provider
      failed. */
  datatype Gathering = Gathering(
    trail: Oci.Trail, ociFailed: bool, held: map<string, seq<CostRecord>>, consumed: nat, awsFailed: bool)

  /** The objects hold their recent rows, unaltered, as of moments of the run; a provider without errors accounts for
      everything it processed. */
  ghost predicate Gathered(g: Gathering, p: Plan, records: seq<CostRecord>, began: Time, ended: Time) {
    && Holds(g.trail.held, OCI, records, AddDays(began, -p.lookbackDays), AddDays(ended, -p.lookbackDays))
    && Holds(g.held, AWS, records, AddDays(began, -p.lookbackDays), AddDays(ended, -p.lookbackDays))
    && (forall c :: c in g.trail.done ==> c in p.ociObjects) && g.consumed <= |p.awsFiles|
    && (!g.ociFailed ==> g.trail.held == Oci.LastRows(g.trail.done))
    && (!g.awsFailed ==> g.held == Cur.LastRows(p.hashing, p.awsFiles[..g.consumed]))
  }

  /** Both providers in turn. */
  method RunProviders(store: Store, p: Plan, ociFirst: bool, clock: Time)
    returns (results: seq<ProviderResult>, oci: Oci.Result, aws: Cur.Result, errors: nat, ended: Time,
        ghost stored: seq<seq<CostRecord>>, ghost g: Gathering)
    requires AsCollected(store.records) && Wellformed(p)
    modifies store
    ensures AsCollected(store.records) && OnlyChanged(old(store.records), store.records, ListedSources(p))
    ensures MovesEarned(old(store.checkpoints), store.checkpoints, old(store.processed).Keys, store.processed.Keys, p,
        oci, aws)
    ensures clock <= ended && MovedWithin(old(store.checkpoints), store.checkpoints, clock, ended)
    ensures NoneAhead(old(store.checkpoints), clock) ==> NoneAhead(store.checkpoints, ended)
    ensures Gathered(g, p, store.records, clock, ended) && (errors == 0 ==> !g.ociFailed && !g.awsFailed)
    ensures |results| == |stored| == 2
    ensures forall i :: 0 <= i < 2 ==> Conserved(results[i], stored[i])
  {
    hide Conserved, AsCollected, OnlyChanged, Oci.Reports, Oci.Firsts, Oci.Unmistaken, Cur.Reports, Oci.SourcesOf,
         Cur.SourcesOf, Holds, Oci.LastRows, Cur.LastRows, EffectiveSince, Oci.WithinLimits, MovedWithin, NoneAhead;
    var first, second, ociErrors, awsErrors, since, ociEnded, awsEnded;
    ghost var moved;
    ghost var earlier, later, trail, held, consumed;
    ghost var before, marks, from := store.records, store.processed.Keys, AddDays(clock, -p.lookbackDays);
    if ociFirst {
      first, oci, ociErrors, since, ociEnded, earlier, trail :=
          RunOci(store, p.lookbackDays, p.ociBucket, p.ociObjects, p.ociLimits, p.requested, clock);
      ghost var between, marked := store.records, store.processed.Keys;
      moved := store.checkpoints;
      second, aws, awsErrors, awsEnded, later, consumed, held :=
          RunAws(store, p.lookbackDays, p.hashing, p.awsBucket, p.awsFiles, p.awsMaxFiles, p.awsBuffer, clock);
      OtherMarks(p.ociBucket, p.ociObjects, marked, store.processed.Keys);
      OnlyChangedTwice(before, between, store.records, Oci.SourcesOf(p.ociObjects), Cur.SourcesOf(p.awsFiles));
      g := Gathering(trail, first.failed, held, consumed, second.failed);
      ended := if ociEnded < awsEnded then awsEnded else ociEnded;
      SourcesApart(p);
      HoldsStill(trail.held, OCI, between, store.records, Cur.SourcesOf(p.awsFiles), from,
                 AddDays(ociEnded, -p.lookbackDays), from, AddDays(ended, -p.lookbackDays));
      HoldsStill(held, AWS, store.records, store.records, {}, from, AddDays(awsEnded, -p.lookbackDays), from,
                 AddDays(ended, -p.lookbackDays)) by { NothingChanged(store.records); }
    } else {
      first, aws, awsErrors, awsEnded, earlier, consumed, held :=
          RunAws(store, p.lookbackDays, p.hashing, p.awsBucket, p.awsFiles, p.awsMaxFiles, p.awsBuffer, clock);
      ghost var between := store.records;
      moved := store.checkpoints;
      OtherMarks(p.ociBucket, p.ociObjects, marks, store.processed.Keys);
      second, oci, ociErrors, since, ociEnded, later, trail :=
          RunOci(store, p.lookbackDays, p.ociBucket, p.ociObjects, p.ociLimits, p.requested, clock);
      OnlyChangedTwice(before, between, store.records, Cur.SourcesOf(p.awsFiles), Oci.SourcesOf(p.ociObjects));
      g := Gathering(trail, second.failed, held, consumed, first.failed);
      ended := if ociEnded < awsEnded then awsEnded else ociEnded;
      SourcesApart(p);
      HoldsStill(held, AWS, between, store.records, Oci.SourcesOf(p.ociObjects), from,
                 AddDays(awsEnded, -p.lookbackDays), from, AddDays(ended, -p.lookbackDays));
      HoldsStill(trail.held, OCI, store.records, store.records, {}, from, AddDays(ociEnded, -p.lookbackDays), from,
                 AddDays(ended, -p.lookbackDays)) by { NothingChanged(store.records); }
    }
    TwoMoves(old(store.checkpoints), moved, store.checkpoints, clock, if ociFirst then ociEnded else awsEnded,
             if ociFirst then awsEnded else ociEnded, ended);
    results, errors, stored := [first, second], ociErrors + awsErrors, [earlier, later];
  }

  lemma TwoMoves(a: map<Provider, Time>, b: map<Provider, Time>, c: map<Provider, Time>, began: Time, first: Time,
                 second: Time, ended: Time)
    requires MovedWithin(a, b, began, first) && MovedWithin(b, c, began, second) && first <= ended && second <= ended
    ensures MovedWithin(a, c, began, ended)
    ensures began <= ended && NoneAhead(a, began) ==> NoneAhead(c, ended)
  {}

  lemma SourcesApart(p: Plan)
    ensures forall s :: s in Oci.SourcesOf(p.ociObjects) ==> s.provider == OCI
    ensures forall s :: s in Cur.SourcesOf(p.awsFiles) ==> s.provider == AWS
  {}

  lemma NothingChanged(records: seq<CostRecord>)
    ensures OnlyChanged(records, records, {})
  {}

  /** The dashboard holds the refreshed tables, and the refreshed windows cover the stored records. */
  ghost predicate RefreshedOver(before: DashboardRefresh.Tables, after: DashboardRefresh.Tables,
                                records: seq<CostRecord>, stored: seq<seq<CostRecord>>, r: Refresh)
    requires before.summaries.Keys == {Daily, Weekly, Monthly} && |stored| == 2
  {
    && r.from <= r.to
    && Covered(stored[0], r.from, r.to) && Covered(stored[1], r.from, r.to)
    && after == DashboardRefresh.Refreshed(before, records, r.from, r.to, r.cutoff)
  }

  /** Up to a day ahead of its moment; what is older than the retention, 90 days by default, goes. */
  ghost predicate Scheduled(r: Refresh, began: Time, retentionDays: int) {
    began <= r.at && r.to == r.at + DAY && r.cutoff == r.at - (if retentionDays > 0 then retentionDays else 90) * DAY
  }

  /** The refresh after the providers, from the day of the earliest stored record to a day ahead. */
  method RefreshAfter(store: Store, dashboard: DashboardRefresh.Repository, p: Plan, clock: Time,
                      results: seq<ProviderResult>, ghost stored: seq<seq<CostRecord>>)
    returns (errors: nat, refused: bool, refreshed: Option<Refresh>)
    requires AsCollected(store.records)
    requires |results| == |stored| == 2 && forall i :: 0 <= i < 2 ==> Conserved(results[i], stored[i])
    requires DashboardRefresh.Unique(dashboard.summaries) && ZERO_TIME + DAY <= clock
    modifies dashboard
    ensures DashboardRefresh.Unique(dashboard.summaries) && !refused
    ensures refreshed.None? ==> dashboard.Contents() == old(dashboard.Contents())
    ensures refreshed.None? && errors == 0 ==> stored[0] == [] && stored[1] == []
    ensures refreshed.Some? ==> Scheduled(refreshed.value, clock, p.retentionDays)
    ensures refreshed.Some? && Dated(stored[0]) && Dated(stored[1]) ==>
      RefreshedOver(old(dashboard.Contents()), dashboard.Contents(), store.records, stored, refreshed.value)
  {
    hide Conserved, Covered, DashboardRefresh.Refreshed, DashboardRefresh.WindowsAgree, RefreshSince,
         TotalInserted, Dated;
    refreshed, errors, refused := None, 0, false;
    var waited :| 0 <= waited;
    var now := clock + waited;
    var earliest, totalInserted := EarliestRecord(results, now);
    InsertedCounts(results, stored);
    if totalInserted == 0 { return; }
    waited :| 0 <= waited;
    var refreshSince := RefreshSince(earliest, now + waited, p.requested);
    var refreshEnd := AddDays(now + waited, 1);
    dashboard.records := store.records;
    var outcome := dashboard.RefreshDashboardAnalytics(refreshSince, refreshEnd, now + waited, p.retentionDays);
    if outcome == DashboardRefresh.Done {
      refreshed := Some(Refresh(now + waited, refreshSince, refreshEnd,
          AddDays(now + waited, -DashboardRefresh.EffectiveRetention(p.retentionDays))));
      if Dated(stored[0]) && Dated(stored[1]) {
        RefreshStartsEarly(results, stored, earliest, now, now + waited, p.requested, refreshEnd);
      }
    } else {
      errors, refused := 1, outcome == DashboardRefresh.DuplicateKey;
      ghost var range := DashboardRefresh.EffectiveRange(refreshSince, refreshEnd, now + waited);
      DashboardRefresh.WrittenWindowsAgree(dashboard.records, range.0, range.1);
    }
  }

  /** A run: the providers in either order, then the refresh. */
  method Run(store: Store, dashboard: DashboardRefresh.Repository, p: Plan, clock: Time)
    returns (results: seq<ProviderResult>, oci: Oci.Result, aws: Cur.Result, errors: nat, refused: bool,
             refreshed: Option<Refresh>, ended: Time, ghost stored: seq<seq<CostRecord>>, ghost g: Gathering)
    requires AsCollected(store.records) && Wellformed(p)
    requires DashboardRefresh.Unique(dashboard.summaries) && ZERO_TIME + DAY <= clock
    modifies store, dashboard
    ensures AsCollected(store.records) && OnlyChanged(old(store.records), store.records, ListedSources(p))
    ensures DashboardRefresh.Unique(dashboard.summaries) && !refused
    ensures MovesEarned(old(store.checkpoints), store.checkpoints, old(store.processed).Keys, store.processed.Keys, p,
        oci, aws)
    ensures clock <= ended && MovedWithin(old(store.checkpoints), store.checkpoints, clock, ended)
    ensures NoneAhead(old(store.checkpoints), clock) ==> NoneAhead(store.checkpoints, ended)
    ensures Gathered(g, p, store.records, clock, ended) && (errors == 0 ==> !g.ociFailed && !g.awsFailed)
    ensures |results| == |stored| == 2 && forall i :: 0 <= i < 2 ==> Conserved(results[i], stored[i])
    ensures refreshed.None? ==> dashboard.Contents() == old(dashboard.Contents())
    ensures refreshed.None? && errors == 0 ==> stored[0] == [] && stored[1] == []
    ensures refreshed.Some? ==> Scheduled(refreshed.value, clock, p.retentionDays)
    ensures refreshed.Some? && Dated(stored[0]) && Dated(stored[1]) ==>
      RefreshedOver(old(dashboard.Contents()), dashboard.Contents(), store.records, stored, refreshed.value)
  {
    hide Conserved, Covered, AsCollected, RefreshedOver, Dated, MovesEarned, OnlyChanged, ListedSources, Gathered,
         MovedWithin, NoneAhead, DashboardRefresh.Unique;
    var ociFirst: bool := *;
    var ingestErrors, refreshErrors;
    results, oci, aws, ingestErrors, ended, stored, g := RunProviders(store, p, ociFirst, clock);
    refreshErrors, refused, refreshed := RefreshAfter(store, dashboard, p, ended, results, stored);
    errors := ingestErrors + refreshErrors;
  }

  lemma InsertedCounts(results: seq<ProviderResult>, stored: seq<seq<CostRecord>>)
    requires |results| == |stored| == 2 && forall i :: 0 <= i < 2 ==> Conserved(results[i], stored[i])
    ensures TotalInserted(results) == |stored[0]| + |stored[1]|
  {
    assert results[..2][..1] == results[..1] && results[..1][..0] == [] && results[..2] == results;
    assert TotalInserted(results[..1]) == results[0].recordsInserted;
  }

  lemma RefreshStartsEarly(results: seq<ProviderResult>, stored: seq<seq<CostRecord>>, earliest: Time, before: Time,
                           now: Time, since: Time, end: Time)
    requires |results| == |stored| == 2
        && forall i :: 0 <= i < 2 ==> Conserved(results[i], stored[i]) && Dated(stored[i])
    requires earliest <= before <= now <= end && ZERO_TIME + DAY <= before
    requires forall pr :: pr in results && !IsZero(pr.earliestRecord) ==> earliest <= pr.earliestRecord
    requires earliest == before
        || exists pr :: pr in results && !IsZero(pr.earliestRecord) && earliest == pr.earliestRecord
    ensures Covered(stored[0], RefreshSince(earliest, now, since), end)
        && Covered(stored[1], RefreshSince(earliest, now, since), end)
    ensures RefreshSince(earliest, now, since) == DayStart(earliest) <= end && !IsZero(DayStart(earliest))
  {
    hide Covered;
    assert !IsZero(DayStart(earliest)) by {
      if earliest != before {
        var i :| 0 <= i < 2 && !IsZero(results[i].earliestRecord) && earliest == results[i].earliestRecord;
        assert forall r :: r in stored[i] ==> !IsZero(r.timestamp);
      }
    }
    assert results[0] in results && results[1] in results;
    StoredRecordsCovered(results[0], stored[0], earliest, now, since, end);
    StoredRecordsCovered(results[1], stored[1], earliest, now, since, end);
  }
}

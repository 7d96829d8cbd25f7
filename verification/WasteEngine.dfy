/** The waste scan: evaluate the rules, upsert what they find, resolve what they no longer find. */
module WasteEngine {
  import opened Calendar
  import opened Domain
  import opened WasteRules
  import opened WasteFindings

  // ---- keys and their text -------------------------------------------------------------------

  lemma CatalogHasNoSeparator(rule: string)
    requires rule in Catalog()
    ensures '|' !in rule
  {}

  /** Among catalog rules the text of a key determines the key. */
  lemma SeenTextInjective(a: Key, b: Key)
    requires a.ruleId in Catalog() && b.ruleId in Catalog()
    requires SeenText(a.resourceId, a.ruleId) == SeenText(b.resourceId, b.ruleId)
    ensures a.resourceId == b.resourceId && a.ruleId == b.ruleId
  {
    hide Catalog;
    var text := SeenText(a.resourceId, a.ruleId);
    CatalogHasNoSeparator(a.ruleId);
    CatalogHasNoSeparator(b.ruleId);
    if |a.resourceId| < |b.resourceId| { SeparatorInRule(a, b); }
    if |b.resourceId| < |a.resourceId| { SeparatorInRule(b, a); }
    assert a.resourceId == text[..|a.resourceId|] && a.ruleId == text[|a.resourceId| + 1..];
    assert b.resourceId == text[..|b.resourceId|] && b.ruleId == text[|b.resourceId| + 1..];
  }

  lemma SeparatorInRule(a: Key, b: Key)
    requires SeenText(a.resourceId, a.ruleId) == SeenText(b.resourceId, b.ruleId) && |a.resourceId| < |b.resourceId|
    ensures '|' in a.ruleId
  {
    var at := |b.resourceId|;
    assert SeenText(b.resourceId, b.ruleId)[at] == '|';
    assert SeenText(a.resourceId, a.ruleId)[at] == a.ruleId[at - |a.resourceId| - 1];
  }

  function Keys(fs: seq<Finding>): set<Key> { set f | f in fs :: KeyOf(f) }

  function SeenTexts(fs: seq<Finding>): set<string> { set f | f in fs :: SeenText(f.resourceId, f.ruleId) }

  lemma FindingsAreCatalogued(input: Input)
    ensures forall f :: f in Evaluated(input) ==> f.ruleId in Catalog()
  {
    forall f | f in Evaluated(input) ensures f.ruleId in Catalog() {
      var r := FindingsAreSound(input, f);
    }
  }

  predicate Catalogued(k: Key) { k.provider == OCI && k.ruleId in Catalog() }

  /** A catalogued key is among the seen texts exactly when it was detected. */
  lemma SeenMeansDetected(fs: seq<Finding>, k: Key)
    requires forall f :: f in fs ==> f.ruleId in Catalog()
    requires Catalogued(k)
    ensures SeenText(k.resourceId, k.ruleId) in SeenTexts(fs) <==> k in Keys(fs)
  {
    hide Catalog, SeenText;
    if SeenText(k.resourceId, k.ruleId) in SeenTexts(fs) {
      var f :| f in fs && SeenText(f.resourceId, f.ruleId) == SeenText(k.resourceId, k.ruleId);
      SeenTextInjective(KeyOf(f), k);
      assert k == KeyOf(f);
    }
  }

  // ---- the effect of a scan --------------------------------------------------------------------

  /** The last finding with this key. */
  function LastFinding(fs: seq<Finding>, k: Key): Finding
    requires k in Keys(fs)
  {
    if KeyOf(fs[|fs| - 1]) == k then fs[|fs| - 1]
    else
      assert fs == fs[..|fs| - 1] + [fs[|fs| - 1]];
      LastFinding(fs[..|fs| - 1], k)
  }

  /** A detected finding's row: it says what was found now, keeps its identity and a user's decision, and is open again
      when it was resolved or fixed. */
  ghost predicate RowUpserted(before: Table, row: Row, f: Finding) {
    var k := KeyOf(f);
    && row.finding == f
    && (k !in before ==> row.status == Open && row.resolvedAt == None)
    && (k in before && before[k].status in {Resolved, Fixed} ==>
          row.id == before[k].id && row.status == Open && row.resolvedAt == None)
    && (k in before && before[k].status !in {Resolved, Fixed} ==>
          row.id == before[k].id && row.status == before[k].status && row.resolvedAt == before[k].resolvedAt)
  }

  /** The table after upserting these findings. */
  ghost predicate UpsertsDone(before: Table, after: Table, fs: seq<Finding>) {
    && after.Keys == before.Keys + Keys(fs)
    && (forall k <- before :: k !in Keys(fs) ==> after[k] == before[k])
    && (forall k <- Keys(fs) :: RowUpserted(before, after[k], LastFinding(fs, k)))
  }

  lemma {:induction false} LastFindingKey(fs: seq<Finding>, k: Key)
    requires k in Keys(fs)
    ensures KeyOf(LastFinding(fs, k)) == k && LastFinding(fs, k) in fs
  {
    if KeyOf(fs[|fs| - 1]) != k {
      assert fs == fs[..|fs| - 1] + [fs[|fs| - 1]];
      LastFindingKey(fs[..|fs| - 1], k);
    }
  }

  lemma LastFindingSnoc(fs: seq<Finding>, f: Finding, k: Key)
    requires k in Keys(fs + [f])
    ensures KeyOf(f) != k ==> k in Keys(fs)
    ensures LastFinding(fs + [f], k) == if KeyOf(f) == k then f else LastFinding(fs, k)
  {
    KeysSnoc(fs, f);
    assert (fs + [f])[..|fs|] == fs;
  }

  lemma UpsertStep(before: Table, now: Table, fs: seq<Finding>, f: Finding, newId: nat)
    requires UpsertsDone(before, now, fs)
    ensures UpsertsDone(before, Upserted(now, f, newId), fs + [f])
  {
    hide Keys, LastFinding;
    var after := Upserted(now, f, newId);
    KeysSnoc(fs, f);
    forall k <- Keys(fs + [f]) ensures RowUpserted(before, after[k], LastFinding(fs + [f], k)) {
      LastFindingSnoc(fs, f, k);
      if k in Keys(fs) {
        LastFindingKey(fs, k);
      }
    }
  }

  /** The open catalogued findings of OCI. */
  ghost function OpenCatalogued(t: Table): set<Key> { set k | k in t && Catalogued(k) && t[k].status == Open }

  /** The keys a scan leaves open: those detected, unless a user has decided otherwise. */
  ghost function LeftOpen(before: Table, fs: seq<Finding>): set<Key> {
    set k | k in Keys(fs) && !(k in before && Decided(before[k].status))
  }

  lemma ScanLeavesDetectedOpen(before: Table, upserted: Table, fs: seq<Finding>, at: Time)
    requires forall f :: f in fs ==> f.ruleId in Catalog()
    requires UpsertsDone(before, upserted, fs)
    ensures OpenCatalogued(ResolvedMissing(upserted, Catalog(), SeenTexts(fs), at)) == LeftOpen(before, fs)
  {
    hide Catalog, SeenTexts, Keys, SeenText;
    var after := ResolvedMissing(upserted, Catalog(), SeenTexts(fs), at);
    forall k ensures k in OpenCatalogued(after) <==> k in LeftOpen(before, fs) {
      if k in Keys(fs) {
        KeyIsCatalogued(fs, k);
        LastFindingKey(fs, k);
      }
      if Catalogued(k) {
        SeenMeansDetected(fs, k);
      }
    }
  }

  lemma KeyIsCatalogued(fs: seq<Finding>, k: Key)
    requires (forall f :: f in fs ==> f.ruleId in Catalog()) && k in Keys(fs)
    ensures Catalogued(k)
  {}

  /** The keys a scan resolves. */
  ghost function NoLongerDetected(before: Table, fs: seq<Finding>): set<Key> { OpenCatalogued(before) - Keys(fs) }

  /** What no scan changes, complete or not: decisions, and findings of other providers or rules. */
  ghost predicate ScanKeeps(before: Table, after: Table) {
    forall k <- before ::
      k in after && (Decided(before[k].status) ==> after[k].status == before[k].status)
          && (!Catalogued(k) ==> after[k] == before[k])
  }

  /** A scan that failed has resolved nothing and changed nothing it did not detect. */
  ghost predicate NothingResolved(before: Table, after: Table, fs: seq<Finding>) {
    && (forall k <- after :: k in before || k in Keys(fs))
    && (forall k <- before ::
        k in after && (k !in Keys(fs) ==> after[k] == before[k])
        && (Closed(after[k].status) ==> Closed(before[k].status)))
  }

  lemma UpsertsHarmless(before: Table, after: Table, fs: seq<Finding>, n: nat)
    requires forall f :: f in fs ==> f.ruleId in Catalog()
    requires n <= |fs| && UpsertsDone(before, after, fs[..n])
    ensures NothingResolved(before, after, fs) && ScanKeeps(before, after)
  {
    hide Catalog;
    assert forall k :: k in Keys(fs[..n]) ==> k in Keys(fs);
    forall k | k in Keys(fs) ensures Catalogued(k) {
      KeyIsCatalogued(fs, k);
    }
    forall k | k in Keys(fs[..n]) ensures KeyOf(LastFinding(fs[..n], k)) == k {
      LastFindingKey(fs[..n], k);
    }
  }

  lemma ResolveKeeps(before: Table, upserted: Table, seen: set<string>, at: Time)
    requires ScanKeeps(before, upserted)
    ensures ScanKeeps(before, ResolvedMissing(upserted, Catalog(), seen, at))
    ensures |ResolvedMissing(upserted, Catalog(), seen, at)| == |upserted|
  {
    hide Catalog, SeenText;
    var after := ResolvedMissing(upserted, Catalog(), seen, at);
    assert after.Keys == upserted.Keys;
  }

  lemma ResolvedKeys(before: Table, upserted: Table, fs: seq<Finding>)
    requires forall f :: f in fs ==> f.ruleId in Catalog()
    requires UpsertsDone(before, upserted, fs)
    ensures (set k | k in upserted && Missing(k, upserted[k], Catalog(), SeenTexts(fs))) == NoLongerDetected(before, fs)
  {
    hide Catalog, SeenTexts, Keys, SeenText;
    var missing := set k | k in upserted && Missing(k, upserted[k], Catalog(), SeenTexts(fs));
    forall k ensures k in missing <==> k in NoLongerDetected(before, fs) {
      if Catalogued(k) {
        SeenMeansDetected(fs, k);
      }
    }
  }

  /** The rules of the catalog. */
  predicate IsScanned(k: Key) {
    k.provider == OCI &&
    k.ruleId in {"OCI_DETACHED_BLOCK_VOLUME", "OCI_DETACHED_BOOT_VOLUME", "OCI_STOPPED_COMPUTE_WITH_PAID_STORAGE",
                 "OCI_UNUSED_RESERVED_PUBLIC_IP"}
  }

  /** The whole table after a scan: what was found says what was found, open findings under the scanned rules that were
      not found are resolved, and every other row is as before. */
  ghost predicate ScanDone(before: Table, after: Table, fs: seq<Finding>, at: Time) {
    && after.Keys == before.Keys + Keys(fs)
    && (forall k <- Keys(fs) :: RowUpserted(before, after[k], LastFinding(fs, k)))
    && (forall k <- before :: k !in Keys(fs) ==>
          after[k] == if IsScanned(k) && before[k].status == Open
                      then Row(before[k].id, Resolved, Some(at), before[k].finding) else before[k])
  }

  lemma ScanIsDone(before: Table, upserted: Table, fs: seq<Finding>, at: Time)
    requires forall f :: f in fs ==> f.ruleId in Catalog()
    requires UpsertsDone(before, upserted, fs)
    ensures ScanDone(before, ResolvedMissing(upserted, Catalog(), SeenTexts(fs), at), fs, at)
  {
    hide SeenTexts, Keys, SeenText, LastFinding;
    forall k <- upserted
      ensures Missing(k, upserted[k], Catalog(), SeenTexts(fs)) <==>
              k !in Keys(fs) && IsScanned(k) && upserted[k].status == Open
    {
      if Catalogued(k) {
        SeenMeansDetected(fs, k);
      }
    }
  }

  /** With distinct resources every finding is the last with its key. */
  lemma {:induction false} LastWhenDistinct(fs: seq<Finding>, f: Finding)
    requires OnePerResource(fs) && f in fs
    ensures KeyOf(f) in Keys(fs) && LastFinding(fs, KeyOf(f)) == f
  {
    LastFindingKey(fs, KeyOf(f));
    var g := LastFinding(fs, KeyOf(f));
    var i :| 0 <= i < |fs| && fs[i] == f;
    var j :| 0 <= j < |fs| && fs[j] == g;
    assert i == j;
  }

  lemma NoUpserts(t: Table)
    ensures UpsertsDone(t, t, []) && SeenTexts([]) == {}
  {}

  lemma UpsertCount(t: Table, f: Finding, newId: nat)
    ensures |Upserted(t, f, newId)| == |t| + if KeyOf(f) in t then 0 else 1
  {
    assert KeyOf(f) in t ==> Upserted(t, f, newId).Keys == t.Keys;
  }

  lemma KeysSnoc(fs: seq<Finding>, f: Finding)
    ensures Keys(fs + [f]) == Keys(fs) + {KeyOf(f)}
    ensures SeenTexts(fs + [f]) == SeenTexts(fs) + {SeenText(f.resourceId, f.ruleId)}
  {
    assert forall x :: x in fs + [f] <==> x in fs || x == f;
  }

  function StatusText(status: Status): string {
    match status
    case Open => "open"
    case Accepted => "accepted"
    case Ignored => "ignored"
    case FalsePositive => "false_positive"
    case Fixed => "fixed"
    case Resolved => "resolved"
  }

  /** The texts that name a status are its own, and no other text does. */
  lemma StatusTextIff(text: string, status: Status)
    ensures ParseStatus(text) == Some(status) <==> text == StatusText(status)
  {}

  // ---- the repository and the service ----------------------------------------------------------

  class FindingStore {
    var findings: Table
    /** The sequence that ids are drawn from. */
    var nextId: nat

    ghost predicate Valid()
      reads this
    {
      UniqueIds(findings) && forall k <- findings :: findings[k].id < nextId
    }

    method UpsertWasteFinding(f: Finding) returns (ok: bool, created: bool, ghost newId: nat)
      requires Valid()
      modifies this
      ensures Valid()
      ensures ok ==> findings == Upserted(old(findings), f, newId) && (created <==> KeyOf(f) !in old(findings))
      ensures ok ==> findings.Keys == old(findings).Keys + {KeyOf(f)}
      ensures ok ==> RowUpserted(old(findings), findings[KeyOf(f)], f)
      ensures ok ==> forall k <- old(findings) :: k != KeyOf(f) ==> findings[k] == old(findings)[k]
      ensures !ok ==> findings == old(findings)
    {
      var id := nextId;
      newId, created := id, false;
      nextId := nextId + 1;
      ok := *;
      if !ok { return; }
      created := KeyOf(f) !in findings;
      findings := Upserted(findings, f, id);
    }

    method ResolveMissingWasteFindings(rules: set<string>, seen: set<string>)
      returns (ok: bool, resolved: nat, ghost at: Time)
      requires Valid()
      modifies this`findings
      ensures Valid()
      ensures ok ==> findings == ResolvedMissing(old(findings), rules, seen, at)
      ensures ok ==> findings.Keys == old(findings).Keys
      ensures ok ==> forall k <- findings ::
        var row := old(findings)[k];
        findings[k] ==
        if k.provider == OCI && k.ruleId in rules && row.status == Open && k.resourceId + "|" + k.ruleId !in seen
        then Row(row.id, Resolved, Some(at), row.finding) else row
      ensures ok ==> resolved == |set k | k in old(findings) && Missing(k, old(findings)[k], rules, seen)|
      ensures !ok ==> findings == old(findings)
    {
      resolved, at := 0, 0;
      ok := *;
      if !ok { return; }
      var now: Time := *;
      at := now;
      resolved := |set k | k in findings && Missing(k, findings[k], rules, seen)|;
      findings := ResolvedMissing(findings, rules, seen, now);
    }

    /** None when no finding has the id. */
    method UpdateWasteFindingStatus(id: nat, status: Status) returns (ok: bool, found: bool, ghost at: Time)
      requires Valid()
      modifies this`findings
      ensures Valid()
      ensures ok ==> findings == StatusUpdated(old(findings), id, status, at)
      ensures ok ==> findings.Keys == old(findings).Keys
      ensures ok ==> forall k <- findings ::
        var row := old(findings)[k];
        findings[k] ==
        if row.id != id then row
        else Row(id, status, if status in {Resolved, Fixed} then Some(at) else row.resolvedAt, row.finding)
      ensures ok ==> (found <==> exists k <- old(findings) :: old(findings)[k].id == id)
      ensures !ok ==> findings == old(findings)
    {
      found, at := false, 0;
      ok := *;
      if !ok { return; }
      var now: Time := *;
      at := now;
      found := exists k <- findings :: findings[k].id == id;
      findings := StatusUpdated(findings, id, status, now);
    }
  }

  /** Ids identify findings. */
  ghost predicate UniqueIds(t: Table) {
    forall k, l :: k in t && l in t && t[k].id == t[l].id ==> k == l
  }

  // ---- the service -------------------------------------------------------------------------------

  datatype Outcome =
    Skipped | AlreadyActive | ScanFailed | Scanned(created: nat, updated: nat, resolved: nat, excluded: nat)

  lemma NoSuchId(t: Table, id: nat, status: Status, at: Time)
    requires !exists k <- t :: t[k].id == id
    ensures StatusUpdated(t, id, status, at) == t
  {}

  function ParseStatus(text: string): Option<Status> {
    if text == "open" then Some(Open) else if text == "accepted" then Some(Accepted)
    else if text == "ignored" then Some(Ignored)
    else if text == "false_positive" then Some(FalsePositive) else if text == "fixed" then Some(Fixed)
    else if text == "resolved" then Some(Resolved) else None
  }

  /** What a scan found is what the table says of it. */
  lemma FoundAsFound(before: Table, after: Table, input: Input, at: Time)
    requires ScanDone(before, after, Evaluated(input), at) && DistinctIds(input.resources)
    ensures forall f :: f in Evaluated(input) ==> KeyOf(f) in after && after[KeyOf(f)].finding == f
  {
    hide Evaluated, Keys, LastFinding;
    OneEvaluated(input);
    forall f | f in Evaluated(input) ensures KeyOf(f) in after && after[KeyOf(f)].finding == f {
      LastWhenDistinct(Evaluated(input), f);
    }
  }

  lemma OneEvaluated(input: Input)
    requires DistinctIds(input.resources)
    ensures OnePerResource(Evaluated(input))
  {
    OneFindingPerResource(input.resources, input, ById(input.resources));
  }

  class Service {
    const store: FindingStore
    const enabled: bool
    const provider: Provider
    var running: bool

    constructor (store: FindingStore, enabled: bool, provider: Provider)
      ensures this.store == store && this.enabled == enabled && this.provider == provider && !running
    {
      this.store, this.enabled, this.provider, running := store, enabled, provider, false;
    }

    /** A scan, any of whose repository calls may fail. */
    method Run(input: Input) returns (outcome: Outcome)
      requires store.Valid()
      modifies this, store
      ensures store.Valid() && running == old(running)
      ensures outcome.AlreadyActive? <==> enabled && old(running)
      ensures outcome.Skipped? || outcome.AlreadyActive? ==> store.findings == old(store.findings)
      ensures !enabled ==> outcome.Skipped?
      ensures outcome.Scanned? ==> enabled && !old(running) && provider in {OCI, Other("")}
      ensures outcome.Scanned? ==>
        exists at :: ScanDone(old(store.findings), store.findings, Evaluated(input), at)
      ensures outcome.Scanned? && DistinctIds(input.resources) ==>
        forall f :: f in Evaluated(input) ==> KeyOf(f) in store.findings && store.findings[KeyOf(f)].finding == f
      ensures outcome.Scanned? ==> OpenCatalogued(store.findings) == LeftOpen(old(store.findings), Evaluated(input))
      ensures outcome.Scanned? ==> outcome.created + outcome.updated == |Evaluated(input)|
      ensures outcome.Scanned? ==> |store.findings| == |old(store.findings)| + outcome.created
      ensures outcome.Scanned? ==> outcome.resolved == |NoLongerDetected(old(store.findings), Evaluated(input))|
      ensures outcome.Scanned? ==> outcome.excluded == SkippedResources(input.resources)
      ensures outcome.ScanFailed? ==> NothingResolved(old(store.findings), store.findings, Evaluated(input))
      ensures ScanKeeps(old(store.findings), store.findings)
    {
      outcome := Skipped;
      if !enabled { return; }
      if running { return AlreadyActive; }
      running := true;
      outcome := Scan(input);
      running := false;
    }

    method Scan(input: Input) returns (outcome: Outcome)
      requires store.Valid()
      modifies store
      ensures store.Valid() && !outcome.AlreadyActive?
      ensures outcome.Skipped? ==> store.findings == old(store.findings)
      ensures outcome.Scanned? ==> provider in {OCI, Other("")}
      ensures outcome.Scanned? ==>
        exists at :: ScanDone(old(store.findings), store.findings, Evaluated(input), at)
      ensures outcome.Scanned? && DistinctIds(input.resources) ==>
        forall f :: f in Evaluated(input) ==> KeyOf(f) in store.findings && store.findings[KeyOf(f)].finding == f
      ensures outcome.Scanned? ==> OpenCatalogued(store.findings) == LeftOpen(old(store.findings), Evaluated(input))
      ensures outcome.Scanned? ==> outcome.created + outcome.updated == |Evaluated(input)|
      ensures outcome.Scanned? ==> |store.findings| == |old(store.findings)| + outcome.created
      ensures outcome.Scanned? ==> outcome.resolved == |NoLongerDetected(old(store.findings), Evaluated(input))|
      ensures outcome.Scanned? ==> outcome.excluded == SkippedResources(input.resources)
      ensures outcome.ScanFailed? ==> NothingResolved(old(store.findings), store.findings, Evaluated(input))
      ensures ScanKeeps(old(store.findings), store.findings)
    {
      hide Evaluated, Catalog, SkippedResources, Upserted, ResolvedMissing, OpenCatalogued, LeftOpen, NoLongerDetected,
           UpsertsDone, UniqueIds, ScanDone, OnePerResource;
      ghost var before := store.findings;
      var synced: bool := *;
      if !synced { return ScanFailed; }
      if provider == AWS { return Skipped; }
      if provider != OCI && provider != Other("") { return Skipped; }
      var listed: bool := *;
      if !listed { return ScanFailed; }
      var findings, excluded := EvaluateOci(input);
      FindingsAreCatalogued(input);
      var ok, created, updated, seen := UpsertAll(findings);
      ghost var n: nat :| n <= |findings| && UpsertsDone(before, store.findings, findings[..n]);
      UpsertsHarmless(before, store.findings, findings, n);
      if !ok { return ScanFailed; }
      ghost var upserted := store.findings;
      var resolved;
      ghost var at;
      ok, resolved, at := store.ResolveMissingWasteFindings(Catalog(), seen);
      if !ok { return ScanFailed; }
      ScanIsDone(before, upserted, findings, at);
      if DistinctIds(input.resources) {
        FoundAsFound(before, store.findings, input, at);
      }
      ScanLeavesDetectedOpen(before, upserted, findings, at);
      ResolveKeeps(before, upserted, seen, at);
      ResolvedKeys(before, upserted, findings);
      return Scanned(created, updated, resolved, excluded);
    }

    method UpsertAll(findings: seq<Finding>) returns (ok: bool, created: nat, updated: nat, seen: set<string>)
      requires store.Valid()
      modifies store
      ensures store.Valid() && (ok ==> created + updated == |findings|)
      ensures ok ==> UpsertsDone(old(store.findings), store.findings, findings) && seen == SeenTexts(findings)
      ensures ok ==> |store.findings| == |old(store.findings)| + created
      ensures exists n: nat :: n <= |findings| && UpsertsDone(old(store.findings), store.findings, findings[..n])
    {
      hide Upserted, UniqueIds, UpsertsDone, Keys, SeenTexts, SeenText;
      NoUpserts(store.findings);
      ok, created, updated, seen := true, 0, 0, {};
      ghost var before := store.findings;
      assert findings[..0] == [];
      for i := 0 to |findings|
        invariant store.Valid() && created + updated == i
        invariant UpsertsDone(before, store.findings, findings[..i]) && seen == SeenTexts(findings[..i])
        invariant |store.findings| == |before| + created
      {
        assert findings[..i + 1] == findings[..i] + [findings[i]];
        KeysSnoc(findings[..i], findings[i]);
        ghost var now := store.findings;
        var isNew;
        ghost var newId;
        ok, isNew, newId := store.UpsertWasteFinding(findings[i]);
        if !ok { return; }
        UpsertStep(before, now, findings[..i], findings[i], newId);
        UpsertCount(now, findings[i], newId);
        if isNew {
          created := created + 1;
        } else {
          updated := updated + 1;
        }
        seen := seen + {SeenText(findings[i].resourceId, findings[i].ruleId)};
      }
      assert findings[..|findings|] == findings;
    }

    /** The status a user asks for is checked before the update. */
    method UpdateFindingStatus(id: nat, text: string) returns (ok: bool)
      requires store.Valid()
      modifies store
      ensures store.Valid()
      ensures ParseStatus(text).None? ==> !ok
      ensures ok ==> exists at :: store.findings == StatusUpdated(old(store.findings), id, ParseStatus(text).value, at)
      ensures !ok ==> store.findings == old(store.findings)
    {
      var status := ParseStatus(text);
      if status.None? { return false; }
      var found;
      ghost var at;
      ok, found, at := store.UpdateWasteFindingStatus(id, status.value);
      if ok && !found {
        NoSuchId(old(store.findings), id, status.value, at);
        ok := false;
      }
    }
  }
}

/** The OCI waste rules: which resources are reported, under which rule, at what estimate. */
module WasteRules {
  import opened Calendar
  import opened Domain

  const DETACHED_BLOCK_VOLUME := "OCI_DETACHED_BLOCK_VOLUME"
  const DETACHED_BOOT_VOLUME := "OCI_DETACHED_BOOT_VOLUME"
  const STOPPED_COMPUTE := "OCI_STOPPED_COMPUTE_WITH_PAID_STORAGE"
  const UNUSED_PUBLIC_IP := "OCI_UNUSED_RESERVED_PUBLIC_IP"

  function Catalog(): set<string> { {DETACHED_BLOCK_VOLUME, DETACHED_BOOT_VOLUME, STOPPED_COMPUTE, UNUSED_PUBLIC_IP} }

  datatype Kind = BlockVolume | BootVolume | ComputeInstance | PublicIp | ReservedPublicIp | OtherKind

  /** Lifecycle states as the rules tell them apart. */
  datatype State = Blank | Available | Assigned | Unassigned | Stopped | OtherState

  datatype Link = BlockAttached | BootAttached | IpAssigned | OtherLink

  /** `excluded` says whether the tags match a configured exclusion. */
  datatype Resource =
    Resource(provider: Provider, id: string, kind: Kind, state: State, created: Option<Time>, excluded: bool)

  datatype Relationship = Relationship(source: string, target: string, link: Link)

  datatype CostSignal = CostSignal(last7d: Option<real>, last30d: Option<real>)

  datatype Config =
    Config(minResourceAgeDays: int, stoppedInstanceMinDays: int, minCostThreshold: real, highMonthlyThreshold: real)

  datatype Input = Input(
    config: Config, now: Time, resources: seq<Resource>, relationships: seq<Relationship>,
    costs: map<string, CostSignal>)

  datatype Severity = Low | Medium | High

  datatype Finding =
    Finding(resourceId: string, ruleId: string, severity: Severity, confidence: real, estimate: Option<real>)

  predicate Foreign(r: Resource) { r.provider != OCI && r.provider != Other("") }

  // ---- age and cost --------------------------------------------------------------------------

  const MAX_DURATION: int := 0x7FFF_FFFF_FFFF_FFFF
  const UNKNOWN_AGE: int := 0x3FFF_FFFF_FFFF_FFFF

  /** time.Sub saturates. */
  function Elapsed(from: Time, to: Time): int {
    if to - from > MAX_DURATION then MAX_DURATION else if to - from < -MAX_DURATION - 1 then -MAX_DURATION - 1
    else to - from
  }

  /** Whole days, truncated toward zero; a resource without a creation time counts as very old. */
  function AgeDays(r: Resource, now: Time): int {
    if r.created.None? then UNKNOWN_AGE
    else
      var d := Elapsed(r.created.value, now);
      if d >= 0 then d / DAY else -((-d) / DAY)
  }

  /** A resource counts as older than some days when its creation time is unknown or lies that many whole days and one
      more back. */
  lemma OlderThanIff(r: Resource, now: Time, days: nat)
    requires days < MAX_DURATION / DAY
    ensures AgeDays(r, now) > days <==> r.created.None? || now - r.created.value >= (days + 1) * DAY
  {
    assert MAX_DURATION / DAY == 106_751;
    if r.created.Some? {
      var d := Elapsed(r.created.value, now);
      assert d / DAY > days <==> d >= (days + 1) * DAY;
    }
  }

  function Signal(costs: map<string, CostSignal>, id: string): CostSignal {
    if id in costs then costs[id] else CostSignal(None, None)
  }

  function EstimateMonthlyWaste(c: CostSignal): Option<real> {
    if c.last7d.Some? then Some(c.last7d.value / 7.0 * 30.0) else c.last30d
  }

  function ObservedCost(c: CostSignal): real {
    if c.last7d.Some? then c.last7d.value else if c.last30d.Some? then c.last30d.value else 0.0
  }

  function SeverityOf(estimate: Option<real>, config: Config): Severity {
    if estimate.None? then Low else if estimate.value >= config.highMonthlyThreshold then High else Medium
  }

  // ---- the rules -----------------------------------------------------------------------------

  function CountFrom(rels: seq<Relationship>, source: string, link: Link): nat {
    if rels == [] then 0
    else
      var last := rels[|rels| - 1];
      CountFrom(rels[..|rels| - 1], source, link) + if last.source == source && last.link == link then 1 else 0
  }

  predicate Attached(rels: seq<Relationship>, source: string, link: Link) {
    exists rel :: rel in rels && rel.source == source && rel.link == link
  }

  lemma {:induction false} CountFromPositive(rels: seq<Relationship>, source: string, link: Link)
    ensures CountFrom(rels, source, link) > 0 <==> Attached(rels, source, link)
  {
    if rels != [] {
      var init, last := rels[..|rels| - 1], rels[|rels| - 1];
      CountFromPositive(init, source, link);
      if Attached(init, source, link) {
        var rel :| rel in init && rel.source == source && rel.link == link;
        assert rel in rels;
      }
      assert last in rels;
    }
  }

  /** byID: a later resource with the same id replaces an earlier one. */
  function ById(resources: seq<Resource>): map<string, Resource> {
    if resources == [] then map[]
    else
      var last := resources[|resources| - 1];
      if Foreign(last) then ById(resources[..|resources| - 1]) else ById(resources[..|resources| - 1])[last.id := last]
  }

  predicate StorageLink(link: Link) { link == BlockAttached || link == BootAttached }

  predicate CountsAsStorage(rel: Relationship, instance: string, byId: map<string, Resource>) {
    rel.target == instance && StorageLink(rel.link) && rel.source in byId && !byId[rel.source].excluded
  }

  /** The attached storage of an instance, in relationship order. */
  function AttachedStorage(rels: seq<Relationship>, instance: string, byId: map<string, Resource>): seq<string> {
    if rels == [] then []
    else
      var last := rels[|rels| - 1];
      AttachedStorage(rels[..|rels| - 1], instance, byId) +
          if CountsAsStorage(last, instance, byId) then [last.source] else []
  }

  function Total(ids: seq<string>, costs: map<string, CostSignal>, week: bool): real {
    if ids == [] then 0.0
    else
      var c := Signal(costs, ids[|ids| - 1]);
      var part := if week then c.last7d else c.last30d;
      Total(ids[..|ids| - 1], costs, week) + if part.Some? then part.value else 0.0
  }

  predicate AnyCost(ids: seq<string>, costs: map<string, CostSignal>) {
    exists id :: id in ids && (Signal(costs, id).last7d.Some? || Signal(costs, id).last30d.Some?)
  }

  function DetachedVolume(r: Resource, input: Input, ruleId: string, link: Link): Option<Finding> {
    var cost := Signal(input.costs, r.id);
    var estimate := EstimateMonthlyWaste(cost);
    if !(r.state == Blank || r.state == Available) || AgeDays(r, input.now) <= input.config.minResourceAgeDays then None
    else if CountFrom(input.relationships, r.id, link) > 0 then None
    else if estimate.Some? && ObservedCost(cost) <= input.config.minCostThreshold then None
    else Some(Finding(r.id, ruleId, SeverityOf(estimate, input.config),
        if estimate.Some? then 0.95 else 0.85, estimate))
  }

  function StoppedCompute(r: Resource, input: Input, byId: map<string, Resource>): Option<Finding> {
    if r.state != Stopped || AgeDays(r, input.now) <= input.config.stoppedInstanceMinDays then None
    else
      var storage := AttachedStorage(input.relationships, r.id, byId);
      if storage == [] then None
      else
        var last7, last30 := Total(storage, input.costs, true), Total(storage, input.costs, false);
        var cost := CostSignal(if last7 > 0.0 then Some(last7) else None, if last30 > 0.0 then Some(last30) else None);
        var estimate := EstimateMonthlyWaste(cost);
        var confidence := if AnyCost(storage, input.costs) || estimate.Some? then 0.85 else 0.70;
        Some(Finding(r.id, STOPPED_COMPUTE, SeverityOf(estimate, input.config), confidence, estimate))
  }

  function UnusedPublicIp(r: Resource, input: Input): Option<Finding> {
    var cost := Signal(input.costs, r.id);
    var estimate := EstimateMonthlyWaste(cost);
    if r.state == Stopped || r.state == OtherState || AgeDays(r, input.now) <= input.config.minResourceAgeDays then None
    else if CountFrom(input.relationships, r.id, IpAssigned) > 0 then None
    else if estimate.Some? && ObservedCost(cost) <= input.config.minCostThreshold then None
    else Some(Finding(r.id, UNUSED_PUBLIC_IP, SeverityOf(estimate, input.config),
        if estimate.Some? then 0.90 else 0.75, estimate))
  }

  /** The finding of one resource, if any. */
  function FindingOf(r: Resource, input: Input, byId: map<string, Resource>): Option<Finding> {
    if Foreign(r) || r.excluded then None
    else match r.kind
      case BlockVolume => DetachedVolume(r, input, DETACHED_BLOCK_VOLUME, BlockAttached)
      case BootVolume => DetachedVolume(r, input, DETACHED_BOOT_VOLUME, BootAttached)
      case ComputeInstance => StoppedCompute(r, input, byId)
      case PublicIp => UnusedPublicIp(r, input)
      case ReservedPublicIp => UnusedPublicIp(r, input)
      case OtherKind => None
  }

  function Findings(resources: seq<Resource>, input: Input, byId: map<string, Resource>): seq<Finding> {
    if resources == [] then []
    else
      var init := Findings(resources[..|resources| - 1], input, byId);
      match FindingOf(resources[|resources| - 1], input, byId)
      case Some(f) => init + [f]
      case None => init
  }

  function SkippedResources(resources: seq<Resource>): nat {
    if resources == [] then 0
    else
      var last := resources[|resources| - 1];
      SkippedResources(resources[..|resources| - 1]) + if !Foreign(last) && last.excluded then 1 else 0
  }

  function Evaluated(input: Input): seq<Finding> { Findings(input.resources, input, ById(input.resources)) }

  // ---- the loops -----------------------------------------------------------------------------

  method StoppedComputeFinding(r: Resource, input: Input, byId: map<string, Resource>)
    returns (finding: Option<Finding>)
    ensures finding == StoppedCompute(r, input, byId)
  {
    if r.state != Stopped || AgeDays(r, input.now) <= input.config.stoppedInstanceMinDays { return None; }
    var storage, last7, last30, hasCost := [], 0.0, 0.0, false;
    for i := 0 to |input.relationships|
      invariant storage == AttachedStorage(input.relationships[..i], r.id, byId)
      invariant last7 == Total(storage, input.costs, true) && last30 == Total(storage, input.costs, false)
      invariant hasCost <==> AnyCost(storage, input.costs)
    {
      assert input.relationships[..i + 1][..i] == input.relationships[..i];
      var rel := input.relationships[i];
      if rel.target != r.id || !StorageLink(rel.link) || rel.source !in byId || byId[rel.source].excluded { continue; }
      assert (storage + [rel.source])[..|storage|] == storage;
      AnyCostSnoc(storage, rel.source, input.costs);
      storage := storage + [rel.source];
      var cost := Signal(input.costs, rel.source);
      if cost.last7d.Some? {
        last7, hasCost := last7 + cost.last7d.value, true;
      }
      if cost.last30d.Some? {
        last30, hasCost := last30 + cost.last30d.value, true;
      }
    }
    assert input.relationships[..|input.relationships|] == input.relationships;
    if |storage| == 0 { return None; }
    var cost := CostSignal(if last7 > 0.0 then Some(last7) else None, if last30 > 0.0 then Some(last30) else None);
    var estimate := EstimateMonthlyWaste(cost);
    var confidence := if hasCost || estimate.Some? then 0.85 else 0.70;
    return Some(Finding(r.id, STOPPED_COMPUTE, SeverityOf(estimate, input.config), confidence, estimate));
  }

  lemma AnyCostSnoc(ids: seq<string>, id: string, costs: map<string, CostSignal>)
    ensures AnyCost(ids + [id], costs) <==>
      AnyCost(ids, costs) || Signal(costs, id).last7d.Some? || Signal(costs, id).last30d.Some?
  {
    assert id in ids + [id];
    assert forall x :: x in ids ==> x in ids + [id];
  }

  method EvaluateOci(input: Input) returns (findings: seq<Finding>, skipped: nat)
    ensures findings == Evaluated(input) && skipped == SkippedResources(input.resources)
  {
    hide FindingOf;
    var byId: map<string, Resource> := map[];
    for i := 0 to |input.resources|
      invariant byId == ById(input.resources[..i])
    {
      assert input.resources[..i + 1][..i] == input.resources[..i];
      if !Foreign(input.resources[i]) {
        byId := byId[input.resources[i].id := input.resources[i]];
      }
    }
    assert input.resources[..|input.resources|] == input.resources;
    findings, skipped := [], 0;
    for i := 0 to |input.resources|
      invariant findings == Findings(input.resources[..i], input, byId)
          && skipped == SkippedResources(input.resources[..i])
    {
      assert input.resources[..i + 1][..i] == input.resources[..i];
      var resource := input.resources[i];
      if !Foreign(resource) && resource.excluded {
        skipped := skipped + 1;
      }
      var finding := EvaluateResource(resource, input, byId);
      if finding.Some? {
        findings := findings + [finding.value];
      }
    }
  }

  method EvaluateResource(r: Resource, input: Input, byId: map<string, Resource>) returns (finding: Option<Finding>)
    ensures finding == FindingOf(r, input, byId)
  {
    if Foreign(r) || r.excluded { return None; }
    match r.kind
    case BlockVolume => return DetachedVolume(r, input, DETACHED_BLOCK_VOLUME, BlockAttached);
    case BootVolume => return DetachedVolume(r, input, DETACHED_BOOT_VOLUME, BootAttached);
    case ComputeInstance => finding := StoppedComputeFinding(r, input, byId);
    case PublicIp => return UnusedPublicIp(r, input);
    case ReservedPublicIp => return UnusedPublicIp(r, input);
    case OtherKind => return None;
  }

  // ---- what the rules never do -----------------------------------------------------------------

  /** The rule is fixed by the kind of the resource. */
  function RuleFor(kind: Kind): string {
    match kind
    case BlockVolume => DETACHED_BLOCK_VOLUME
    case BootVolume => DETACHED_BOOT_VOLUME
    case ComputeInstance => STOPPED_COMPUTE
    case _ => UNUSED_PUBLIC_IP
  }

  ghost predicate Reported(f: Finding, r: Resource, input: Input, byId: map<string, Resource>) {
    FindingOf(r, input, byId) == Some(f)
  }

  lemma {:induction false} FindingsFromResources(resources: seq<Resource>, input: Input, byId: map<string, Resource>)
    ensures forall f :: f in Findings(resources, input, byId) <==>
      exists r :: r in resources && Reported(f, r, input, byId)
  {
    hide FindingOf;
    if resources != [] {
      var init, last := resources[..|resources| - 1], resources[|resources| - 1];
      FindingsFromResources(init, input, byId);
      assert last in resources;
      forall f
          ensures f in Findings(resources, input, byId) <==> exists r :: r in resources && Reported(f, r, input, byId) {
        if f in Findings(init, input, byId) {
          var r :| r in init && Reported(f, r, input, byId);
          assert r in resources;
        }
        if r :| r in resources && Reported(f, r, input, byId) {
          if r != last {
            assert r in init;
          }
        }
      }
    }
  }

  /** Every finding is about a listed OCI resource that is not excluded, under the rule of its kind, and a volume
      that has its own kind of attachment, or an address that is assigned, is never reported. */
  lemma FindingsAreSound(input: Input, f: Finding) returns (r: Resource)
    requires f in Evaluated(input)
    ensures r in input.resources && r.id == f.resourceId && r.provider in {OCI, Other("")} && !r.excluded
    ensures f.ruleId == RuleFor(r.kind)
    ensures (f.severity == Low <==> f.estimate.None?)
        && (f.severity == High <==> f.estimate.Some? && f.estimate.value >= input.config.highMonthlyThreshold)
    ensures r.kind == BlockVolume ==> !Attached(input.relationships, r.id, BlockAttached)
    ensures r.kind == BootVolume ==> !Attached(input.relationships, r.id, BootAttached)
    ensures r.kind == PublicIp || r.kind == ReservedPublicIp ==> !Attached(input.relationships, r.id, IpAssigned)
  {
    hide Findings, CountFrom, AttachedStorage, Total, AnyCost, AgeDays, EstimateMonthlyWaste, ObservedCost,
         ById, Attached;
    var byId := ById(input.resources);
    FindingsFromResources(input.resources, input, byId);
    r :| r in input.resources && Reported(f, r, input, byId);
    CountFromPositive(input.relationships, r.id, BlockAttached);
    CountFromPositive(input.relationships, r.id, BootAttached);
    CountFromPositive(input.relationships, r.id, IpAssigned);
  }

  ghost predicate DistinctIds(resources: seq<Resource>) {
    forall i, j :: 0 <= i < j < |resources| ==> resources[i].id != resources[j].id
  }

  /** Some finding is about the resource with this id. */
  ghost predicate IsReported(input: Input, id: string) { exists f :: f in Evaluated(input) && f.resourceId == id }

  /** With distinct ids a resource is reported exactly when its own rule finds it. */
  lemma ReportedByItsRule(input: Input, r: Resource)
    requires r in input.resources && DistinctIds(input.resources)
    ensures IsReported(input, r.id) <==> FindingOf(r, input, ById(input.resources)).Some?
  {
    hide Findings, FindingOf;
    var byId := ById(input.resources);
    FindingsFromResources(input.resources, input, byId);
    if f :| f in Evaluated(input) && f.resourceId == r.id {
      var q :| q in input.resources && Reported(f, q, input, byId);
      NamesItsResource(f, q, input, byId);
      var i :| 0 <= i < |input.resources| && input.resources[i] == q;
      var j :| 0 <= j < |input.resources| && input.resources[j] == r;
      assert i == j;
    }
    if FindingOf(r, input, byId).Some? {
      assert Reported(FindingOf(r, input, byId).value, r, input, byId);
      NamesItsResource(FindingOf(r, input, byId).value, r, input, byId);
    }
  }

  /** No cost is known, or the known cost exceeds the threshold. */
  predicate CostGivesNoExcuse(c: CostSignal, config: Config) {
    match c
    case CostSignal(Some(week), _) => week > config.minCostThreshold
    case CostSignal(None, Some(month)) => month > config.minCostThreshold
    case CostSignal(None, None) => true
  }

  /** The kind of attachment of a volume. */
  function OwnLink(kind: Kind): Link { if kind == BlockVolume then BlockAttached else BootAttached }

  /** A listed block or boot volume is reported exactly when it is usable, old enough and without its own kind of
      attachment, and no observed cost is within the threshold. */
  lemma VolumeReportedIff(input: Input, r: Resource)
    requires r in input.resources && r.kind in {BlockVolume, BootVolume} && r.provider in {OCI, Other("")}
        && !r.excluded && DistinctIds(input.resources)
    ensures IsReported(input, r.id) <==>
            && r.state in {Blank, Available} && AgeDays(r, input.now) > input.config.minResourceAgeDays
            && !Attached(input.relationships, r.id, OwnLink(r.kind))
            && CostGivesNoExcuse(Signal(input.costs, r.id), input.config)
  {
    hide Findings, AgeDays, IsReported;
    ReportedByItsRule(input, r);
    CountFromPositive(input.relationships, r.id, OwnLink(r.kind));
  }

  /** A listed address is reported exactly when it is usable, old enough and not assigned, and no observed cost is
      within the threshold. */
  lemma AddressReportedIff(input: Input, r: Resource)
    requires r in input.resources && r.kind in {PublicIp, ReservedPublicIp} && r.provider in {OCI, Other("")}
        && !r.excluded && DistinctIds(input.resources)
    ensures IsReported(input, r.id) <==>
            && r.state in {Blank, Available, Assigned, Unassigned}
            && AgeDays(r, input.now) > input.config.minResourceAgeDays
            && !Attached(input.relationships, r.id, IpAssigned)
            && CostGivesNoExcuse(Signal(input.costs, r.id), input.config)
  {
    hide Findings, AgeDays, IsReported;
    ReportedByItsRule(input, r);
    CountFromPositive(input.relationships, r.id, IpAssigned);
  }

  /** A listed resource of the provider, not excluded, has this id. */
  ghost predicate IsListedStorage(input: Input, id: string) {
    exists s :: s in input.resources && s.id == id && s.provider in {OCI, Other("")} && !s.excluded
  }

  /** The relationship attaches a listed volume, not excluded, to the instance. */
  ghost predicate HoldsStorage(input: Input, rel: Relationship, instance: string) {
    && rel in input.relationships && rel.target == instance && rel.link in {BlockAttached, BootAttached}
    && IsListedStorage(input, rel.source)
  }

  /** A listed instance is reported exactly when it is stopped, old enough, and some storage that is listed and not
      excluded is attached to it; costs do not matter. */
  lemma InstanceReportedIff(input: Input, r: Resource)
    requires r in input.resources && r.kind == ComputeInstance && r.provider in {OCI, Other("")}
        && !r.excluded && DistinctIds(input.resources)
    ensures IsReported(input, r.id) <==>
            && r.state == Stopped && AgeDays(r, input.now) > input.config.stoppedInstanceMinDays
            && exists rel :: HoldsStorage(input, rel, r.id)
  {
    hide Findings, AgeDays, IsReported, Total, AnyCost, AttachedStorage, ById;
    var byId := ById(input.resources);
    ReportedByItsRule(input, r);
    AttachedStorageIff(input.relationships, r.id, byId);
    forall rel | rel in input.relationships
      ensures CountsAsStorage(rel, r.id, byId) <==> HoldsStorage(input, rel, r.id)
    {
      StorageIff(input, rel, r.id);
    }
  }

  lemma StorageIff(input: Input, rel: Relationship, instance: string)
    requires rel in input.relationships && DistinctIds(input.resources)
    ensures CountsAsStorage(rel, instance, ById(input.resources)) <==> HoldsStorage(input, rel, instance)
  {
    hide ById;
    ByIdHolds(input.resources, rel.source);
  }

  // ---- what a finding says -----------------------------------------------------------------------

  /** A week's cost is estimated at thirty sevenths of it; without one the cost of a month counts as it is. */
  ghost predicate Estimates(estimate: Option<real>, week: Option<real>, month: Option<real>) {
    && (week.Some? ==> estimate.Some? && 7.0 * estimate.value == 30.0 * week.value)
    && (week.None? ==> estimate == month)
  }

  /** What is known of the costs of one resource. */
  function KnownCost(input: Input, id: string): CostSignal {
    if id in input.costs then input.costs[id] else CostSignal(None, None)
  }

  /** A volume or address is estimated by its own cost, and known cost makes the finding more certain. */
  lemma OwnCostSays(input: Input, f: Finding) returns (r: Resource)
    requires f in Evaluated(input) && f.ruleId != STOPPED_COMPUTE
    ensures r in input.resources && r.id == f.resourceId
    ensures Estimates(f.estimate, KnownCost(input, r.id).last7d, KnownCost(input, r.id).last30d)
    ensures f.ruleId == UNUSED_PUBLIC_IP ==> f.confidence == if f.estimate.Some? then 0.90 else 0.75
    ensures f.ruleId != UNUSED_PUBLIC_IP ==> f.confidence == if f.estimate.Some? then 0.95 else 0.85
  {
    hide Findings, CountFrom, AgeDays, ObservedCost, ById, StoppedCompute;
    var byId := ById(input.resources);
    FindingsFromResources(input.resources, input, byId);
    r :| r in input.resources && Reported(f, r, input, byId);
    StoppedSays(r, input, byId);
  }

  lemma StoppedSays(r: Resource, input: Input, byId: map<string, Resource>)
    ensures StoppedCompute(r, input, byId).Some? ==> StoppedCompute(r, input, byId).value.ruleId == STOPPED_COMPUTE
  {}

  /** What the storage attached to an instance cost in a week, or in a month. */
  ghost function StorageCost(rels: seq<Relationship>, input: Input, instance: string, week: bool): real {
    if rels == [] then 0.0
    else
      var last := rels[|rels| - 1];
      var cost := if week then KnownCost(input, last.source).last7d else KnownCost(input, last.source).last30d;
      StorageCost(rels[..|rels| - 1], input, instance, week) +
      if HoldsStorage(input, last, instance) && cost.Some? then cost.value else 0.0
  }

  function Positive(cost: real): Option<real> { if cost > 0.0 then Some(cost) else None }

  /** A stopped instance is estimated by the costs of its storage as far as they are positive. */
  lemma StorageCostSays(input: Input, f: Finding)
    requires f in Evaluated(input) && f.ruleId == STOPPED_COMPUTE && DistinctIds(input.resources)
    ensures Estimates(f.estimate, Positive(StorageCost(input.relationships, input, f.resourceId, true)),
                      Positive(StorageCost(input.relationships, input, f.resourceId, false)))
    ensures f.confidence == if f.estimate.Some? || StorageCostKnown(input, f.resourceId) then 0.85 else 0.70
  {
    hide Findings, CountFrom, AgeDays, ObservedCost, ById, AttachedStorage, AnyCost, Total;
    var byId := ById(input.resources);
    FindingsFromResources(input.resources, input, byId);
    var r :| r in input.resources && Reported(f, r, input, byId);
    TotalIsStorageCost(input.relationships, input, r.id, true);
    TotalIsStorageCost(input.relationships, input, r.id, false);
    AnyCostIff(input, r.id);
  }

  /** Some cost of the attached storage is known. */
  ghost predicate StorageCostKnown(input: Input, instance: string) {
    exists rel :: HoldsStorage(input, rel, instance) && KnownCost(input, rel.source) != CostSignal(None, None)
  }

  lemma {:induction false} TotalIsStorageCost(rels: seq<Relationship>, input: Input, instance: string, week: bool)
    requires DistinctIds(input.resources) && forall rel :: rel in rels ==> rel in input.relationships
    ensures Total(AttachedStorage(rels, instance, ById(input.resources)), input.costs, week) ==
            StorageCost(rels, input, instance, week)
  {
    hide ById, CountsAsStorage, HoldsStorage;
    if rels != [] {
      var init, last := rels[..|rels| - 1], rels[|rels| - 1];
      var storage := AttachedStorage(init, instance, ById(input.resources));
      TotalIsStorageCost(init, input, instance, week);
      assert last in rels;
      StorageIff(input, last, instance);
      assert (storage + [last.source])[..|storage|] == storage && storage + [] == storage;
    }
  }

  lemma {:induction false} AttachedMembers(rels: seq<Relationship>, instance: string, byId: map<string, Resource>)
    ensures forall id :: id in AttachedStorage(rels, instance, byId) <==>
      exists rel :: rel in rels && rel.source == id && CountsAsStorage(rel, instance, byId)
  {
    hide CountsAsStorage;
    if rels != [] {
      var init, last := rels[..|rels| - 1], rels[|rels| - 1];
      AttachedMembers(init, instance, byId);
      assert forall rel :: rel in rels <==> rel in init || rel == last;
    }
  }

  lemma AnyCostIff(input: Input, instance: string)
    requires DistinctIds(input.resources)
    ensures AnyCost(AttachedStorage(input.relationships, instance, ById(input.resources)), input.costs) <==>
      StorageCostKnown(input, instance)
  {
    hide ById, CountsAsStorage, HoldsStorage, AttachedStorage;
    var byId := ById(input.resources);
    AttachedMembers(input.relationships, instance, byId);
    var storage := AttachedStorage(input.relationships, instance, byId);
    if AnyCost(storage, input.costs) {
      var id :| id in storage && KnownCost(input, id) != CostSignal(None, None);
      var rel :| rel in input.relationships && rel.source == id && CountsAsStorage(rel, instance, byId);
      StorageIff(input, rel, instance);
    }
    if StorageCostKnown(input, instance) {
      var rel :| HoldsStorage(input, rel, instance) && KnownCost(input, rel.source) != CostSignal(None, None);
      HeldIsListed(input, rel, instance);
      StorageIff(input, rel, instance);
      assert rel.source in storage;
    }
  }

  lemma HeldIsListed(input: Input, rel: Relationship, instance: string)
    requires HoldsStorage(input, rel, instance)
    ensures rel in input.relationships
  {}

  lemma {:induction false} AttachedStorageIff(rels: seq<Relationship>, instance: string, byId: map<string, Resource>)
    ensures AttachedStorage(rels, instance, byId) != [] <==>
      exists rel :: rel in rels && CountsAsStorage(rel, instance, byId)
  {
    hide CountsAsStorage;
    if rels != [] {
      var init, last := rels[..|rels| - 1], rels[|rels| - 1];
      AttachedStorageIff(init, instance, byId);
      assert last in rels;
      if rel :| rel in rels && CountsAsStorage(rel, instance, byId) {
        assert rel in init || rel == last;
      }
    }
  }

  lemma {:induction false} ByIdHolds(resources: seq<Resource>, id: string)
    requires DistinctIds(resources)
    ensures id in ById(resources) ==>
      ById(resources)[id] in resources && ById(resources)[id].id == id && !Foreign(ById(resources)[id])
    ensures forall s :: s in resources && s.id == id && !Foreign(s) ==>
      id in ById(resources) && ById(resources)[id] == s
  {
    if resources != [] {
      var init, last := resources[..|resources| - 1], resources[|resources| - 1];
      ByIdHolds(init, id);
      forall s | s in resources && s.id == id && !Foreign(s) ensures id in ById(resources) && ById(resources)[id] == s {
        var i :| 0 <= i < |resources| && resources[i] == s;
        if i < |init| {
          assert init[i] == s;
        }
      }
    }
  }

  ghost predicate OnePerResource(fs: seq<Finding>) {
    forall i, j :: 0 <= i < j < |fs| ==> fs[i].resourceId != fs[j].resourceId
  }

  /** Distinct resources have at most one finding each. */
  lemma {:induction false} OneFindingPerResource(resources: seq<Resource>, input: Input, byId: map<string, Resource>)
    requires DistinctIds(resources)
    ensures OnePerResource(Findings(resources, input, byId))
  {
    if resources != [] {
      hide FindingOf;
      var init, last := resources[..|resources| - 1], resources[|resources| - 1];
      OneFindingPerResource(init, input, byId);
      FindingsFromResources(init, input, byId);
      var fs := Findings(init, input, byId);
      forall i | 0 <= i < |fs| ensures fs[i].resourceId != last.id {
        assert fs[i] in fs;
        var r :| r in init && Reported(fs[i], r, input, byId);
        var k :| 0 <= k < |init| && init[k] == r;
        NamesItsResource(fs[i], r, input, byId);
        assert resources[k].id != resources[|init|].id;
      }
      if FindingOf(last, input, byId).Some? {
        var f := FindingOf(last, input, byId).value;
        NamesItsResource(f, last, input, byId);
        OnePerSnoc(fs, f);
      }
    }
  }

  lemma OnePerSnoc(fs: seq<Finding>, f: Finding)
    requires OnePerResource(fs) && forall i :: 0 <= i < |fs| ==> fs[i].resourceId != f.resourceId
    ensures OnePerResource(fs + [f])
  {}

  lemma NamesItsResource(f: Finding, r: Resource, input: Input, byId: map<string, Resource>)
    requires Reported(f, r, input, byId)
    ensures f.resourceId == r.id
  {}

  /** Cost data can only suppress findings: without some of it, every resource reported before is still reported under
      its rule. */
  lemma FewerCostsFewerExcuses(input: Input, fewer: map<string, CostSignal>, f: Finding) returns (g: Finding)
    requires f in Evaluated(input)
    requires forall id <- fewer :: id in input.costs && fewer[id] == input.costs[id]
    ensures g in Evaluated(input.(costs := fewer)) && g.resourceId == f.resourceId && g.ruleId == f.ruleId
  {
    hide Findings;
    var byId := ById(input.resources);
    FindingsFromResources(input.resources, input, byId);
    FindingsFromResources(input.resources, input.(costs := fewer), byId);
    var r :| r in input.resources && Reported(f, r, input, byId);
    StillReported(r, input, fewer, byId);
    g := FindingOf(r, input.(costs := fewer), byId).value;
    assert Reported(g, r, input.(costs := fewer), byId);
  }

  lemma StillReported(r: Resource, input: Input, fewer: map<string, CostSignal>, byId: map<string, Resource>)
    requires FindingOf(r, input, byId).Some?
    requires forall id <- fewer :: id in input.costs && fewer[id] == input.costs[id]
    ensures var g := FindingOf(r, input.(costs := fewer), byId);
            && g.Some? && g.value.resourceId == FindingOf(r, input, byId).value.resourceId
            && g.value.ruleId == FindingOf(r, input, byId).value.ruleId
  {
    hide CountFrom, AttachedStorage, Total, AnyCost, AgeDays;
  }
}

/** The lifecycle of waste findings: upserts and resolution by scans, status updates by users. */
module WasteFindings {
  import opened Calendar
  import opened Domain
  import opened WasteRules

  datatype Status = Open | Accepted | Ignored | FalsePositive | Fixed | Resolved

  /** The unique key of a finding. */
  datatype Key = Key(provider: Provider, resourceId: string, ruleId: string)

  datatype Row = Row(id: nat, status: Status, resolvedAt: Option<Time>, finding: Finding)

  type Table = map<Key, Row>

  predicate Closed(s: Status) { s == Resolved || s == Fixed }

  /** A decision that only a user takes back. */
  predicate Decided(s: Status) { s == Accepted || s == Ignored || s == FalsePositive }

  function KeyOf(f: Finding): Key { Key(OCI, f.resourceId, f.ruleId) }

  // ---- the statements ------------------------------------------------------------------------

  function Upserted(t: Table, f: Finding, newId: nat): Table {
    var k := KeyOf(f);
    if k in t then
      var row := t[k];
      t[k := if Closed(row.status) then Row(row.id, Open, None, f) else Row(row.id, row.status, row.resolvedAt, f)]
    else t[k := Row(newId, Open, None, f)]
  }

  /** The text a scan remembers a finding by. */
  function SeenText(resourceId: string, ruleId: string): string { resourceId + "|" + ruleId }

  predicate Missing(k: Key, row: Row, rules: set<string>, seen: set<string>) {
    k.provider == OCI && k.ruleId in rules && row.status == Open && SeenText(k.resourceId, k.ruleId) !in seen
  }

  function ResolvedMissing(t: Table, rules: set<string>, seen: set<string>, at: Time): Table {
    map k | k in t :: if Missing(k, t[k], rules, seen) then t[k].(status := Resolved, resolvedAt := Some(at)) else t[k]
  }

  function StatusUpdated(t: Table, id: nat, status: Status, at: Time): Table {
    map k | k in t :: if t[k].id == id
      then t[k].(status := status, resolvedAt := if Closed(status) then Some(at) else t[k].resolvedAt)
      else t[k]
  }

  // ---- every history -------------------------------------------------------------------------

  datatype Step =
    | Upsert(f: Finding, newId: nat)
    | ResolveMissing(rules: set<string>, seen: set<string>, at: Time)
    | UserUpdate(id: nat, status: Status, stamp: Time)

  function Apply(t: Table, step: Step): Table {
    match step
    case Upsert(f, newId) => Upserted(t, f, newId)
    case ResolveMissing(rules, seen, at) => ResolvedMissing(t, rules, seen, at)
    case UserUpdate(id, status, stamp) => StatusUpdated(t, id, status, stamp)
  }

  function After(steps: seq<Step>): Table {
    if steps == [] then map[] else Apply(After(steps[..|steps| - 1]), steps[|steps| - 1])
  }

  ghost predicate Stamped(t: Table) {
    forall k <- t :: Closed(t[k].status) ==> t[k].resolvedAt.Some?
  }

  /** In every reachable table a resolved or fixed finding carries the time it was resolved. */
  lemma {:induction false} ClosedIsStamped(steps: seq<Step>)
    ensures Stamped(After(steps))
  {
    if steps != [] {
      ClosedIsStamped(steps[..|steps| - 1]);
    }
  }

  predicate SetsStatus(step: Step, row: Row, status: Status) {
    step.UserUpdate? && step.id == row.id && step.status == status
  }

  /** A decided finding stays as it is unless the step is a user update of that very finding. */
  lemma DecisionStays(t: Table, step: Step, k: Key)
    requires k in t && Decided(t[k].status)
    ensures k in Apply(t, step) && Apply(t, step)[k].id == t[k].id
    ensures Apply(t, step)[k].status == t[k].status || SetsStatus(step, t[k], Apply(t, step)[k].status)
  {}

  /** Between a decision and any later, different status lies a user update of that finding. */
  lemma {:induction false} OnlyUsersTakeBack(steps: seq<Step>, i: nat, j: nat, k: Key) returns (u: nat)
    requires i <= j <= |steps| && k in After(steps[..i]) && Decided(After(steps[..i])[k].status)
    requires k !in After(steps[..j]) || After(steps[..j])[k].status != After(steps[..i])[k].status
    ensures i <= u < j && steps[u].UserUpdate? && steps[u].id == After(steps[..i])[k].id
        && steps[u].status != After(steps[..i])[k].status
    decreases j - i
  {
    assert i < j;
    assert steps[..i + 1][..i] == steps[..i];
    DecisionStays(After(steps[..i]), steps[i], k);
    if After(steps[..i + 1])[k].status == After(steps[..i])[k].status {
      u := OnlyUsersTakeBack(steps, i + 1, j, k);
    } else {
      u := i;
    }
  }

  /** The converse of the stamp. */
  ghost predicate OnlyClosedStamped(t: Table) {
    forall k <- t :: t[k].resolvedAt.Some? ==> Closed(t[k].status)
  }

  /** A user update that takes a closed finding back leaves its resolution time in place. */
  ghost predicate Reopens(t: Table, step: Step) {
    step.UserUpdate? && !Closed(step.status) && exists k <- t :: t[k].id == step.id && t[k].resolvedAt.Some?
  }

  lemma OnlyClosedStampedIff(t: Table, step: Step)
    requires OnlyClosedStamped(t)
    ensures OnlyClosedStamped(Apply(t, step)) <==> !Reopens(t, step)
  {
    var after := Apply(t, step);
    if Reopens(t, step) {
      var k :| k in t && t[k].id == step.id && t[k].resolvedAt.Some?;
      assert k in after && after[k].resolvedAt.Some? && !Closed(after[k].status);
    }
  }

  /** So an open finding may carry one. */
  lemma OpenWithStamp(f: Finding, id: nat, at: Time)
    ensures var t := After([Upsert(f, id), UserUpdate(id, Resolved, at), UserUpdate(id, Open, at)]);
            KeyOf(f) in t && t[KeyOf(f)].status == Open && t[KeyOf(f)].resolvedAt == Some(at)
  {
    var upsert, resolve, reopen := Upsert(f, id), UserUpdate(id, Resolved, at), UserUpdate(id, Open, at);
    AfterSnoc([], upsert);
    AfterSnoc([upsert], resolve);
    AfterSnoc([upsert, resolve], reopen);
    assert [] + [upsert] == [upsert] && [upsert] + [resolve] == [upsert, resolve];
    assert [upsert, resolve] + [reopen] == [upsert, resolve, reopen];
    assert After([upsert]) == Upserted(map[], f, id);
  }

  lemma AfterSnoc(steps: seq<Step>, step: Step)
    ensures After(steps + [step]) == Apply(After(steps), step)
  {
    assert (steps + [step])[..|steps|] == steps;
  }
}

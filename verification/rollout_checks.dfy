/** The loops that decide whether an operation, a plan or a plan's snapshot may be used. */
module RolloutChecks {
  import opened Basics
  import opened RolloutJournal
  import B = Bundle
  import SecretTemplate

  method ValidateOperation(op: Operation) returns (ok: bool)
    ensures ok <==> ValidOperation(op)
  {
    if op.id == "" || op.planDigest != op.planId || !ValidBinding(op.binding) || |op.items| == 0 ||
       |op.items| > MAX_ACTIONS || op.updatedAt < op.createdAt
    {
      return false;
    }
    var fine := CheckItems(op.items, op.binding.target);
    if !fine { return false; }
    if op.status == ReadyToDeploy || op.status == LimitedEvidence {
      var limited := false;
      for i := 0 to |op.items|
        invariant forall j :: 0 <= j < i ==> Checked(op.items[j].status)
        invariant limited <==> exists j :: 0 <= j < i && op.items[j].status == Limited
      {
        if !Checked(op.items[i].status) { return false; }
        limited := limited || op.items[i].status == Limited;
      }
      assert limited <==> AnyLimited(op.items);
      return limited == (op.status == LimitedEvidence);
    }
    return true;
  }

  /** Every item is valid by itself and no action identifier comes twice. */
  method CheckItems(items: seq<Item>, target: Target) returns (ok: bool)
    ensures ok <==> (forall i :: 0 <= i < |items| ==> ValidItem(items[i], target)) &&
                    forall i, j :: 0 <= i < j < |items| ==> items[i].action.id != items[j].action.id
  {
    hide ValidItem;
    var seen: set<string> := {};
    for i := 0 to |items|
      invariant forall j :: 0 <= j < i ==> ValidItem(items[j], target)
      invariant forall j, k :: 0 <= j < k < i ==> items[j].action.id != items[k].action.id
      invariant forall id :: id in seen <==> exists j :: 0 <= j < i && items[j].action.id == id
    {
      if items[i].action.id in seen { return false; }
      seen := seen + {items[i].action.id};
      if !ValidItem(items[i], target) { return false; }
    }
    return true;
  }

  method ValidateActions(actions: seq<Action>, target: Target) returns (ok: bool)
    ensures ok <==> (forall i :: 0 <= i < |actions| ==> ValidAction(actions[i], target)) &&
                    (forall i, j :: 0 <= i < j < |actions| ==> actions[i].id != actions[j].id) &&
                    forall i, j :: 0 <= i < j < |actions| ==>
                      actions[i].service != actions[j].service || actions[i].name != actions[j].name
  {
    hide ValidAction;
    var seenActions: set<string>, seenTargets: set<(string, string)> := {}, {};
    for i := 0 to |actions|
      invariant forall j :: 0 <= j < i ==> ValidAction(actions[j], target)
      invariant forall j, k :: 0 <= j < k < i ==> actions[j].id != actions[k].id
      invariant forall j, k :: 0 <= j < k < i ==>
                  actions[j].service != actions[k].service || actions[j].name != actions[k].name
      invariant forall id :: id in seenActions <==> exists j :: 0 <= j < i && actions[j].id == id
      invariant forall t :: t in seenTargets <==> exists j :: 0 <= j < i && (actions[j].service, actions[j].name) == t
    {
      var key := (actions[i].service, actions[i].name);
      if actions[i].id in seenActions || key in seenTargets { return false; }
      seenActions, seenTargets := seenActions + {actions[i].id}, seenTargets + {key};
      if !ValidAction(actions[i], target) { return false; }
    }
    return true;
  }

  method ValidatePlan(plan: Plan) returns (ok: bool)
    ensures ok <==> ValidPlan(plan)
  {
    if !ValidBinding(plan.binding) || |plan.actions| == 0 || |plan.actions| > MAX_ACTIONS { return false; }
    ok := ValidateActions(plan.actions, plan.binding.target);
  }

  // ----- The snapshot behind a plan ------------------------------------------------------------

  function Revision(revisions: map<string, nat>, n: string): int { if n in revisions then revisions[n] else 0 }

  /** An action's record is at the planned revision, both in the snapshot and in the vault. */
  predicate Bound(a: Action, bundle: string, revisions: map<string, nat>, records: map<B.Name, B.Version>) {
    a.record != "" ==>
      && Revision(revisions, a.record) == a.expectedRevision
      && B.RecordRevision(records, B.Physical(bundle, a.record)) == a.expectedRevision
  }

  predicate PlanBound(plan: Plan, objectRevision: int, s: B.Snapshot, records: map<B.Name, B.Version>,
                      digestText: B.Manifest -> string) {
    && objectRevision == plan.binding.snapshotRevision && s.bundle == plan.binding.bundle
    && digestText(s.digest) == plan.binding.manifestDigest
    && forall i :: 0 <= i < |plan.actions| ==> Bound(plan.actions[i], plan.binding.bundle, s.revisions, records)
  }

  method ValidateSnapshotBindings(plan: Plan, objectRevision: int, s: B.Snapshot, records: map<B.Name, B.Version>,
                                  digestText: B.Manifest -> string) returns (ok: bool)
    ensures ok <==> PlanBound(plan, objectRevision, s, records, digestText)
  {
    if objectRevision != plan.binding.snapshotRevision || s.bundle != plan.binding.bundle ||
       digestText(s.digest) != plan.binding.manifestDigest
    {
      return false;
    }
    for i := 0 to |plan.actions|
      invariant forall j :: 0 <= j < i && plan.actions[j].record != "" ==>
                  Revision(s.revisions, plan.actions[j].record) == plan.actions[j].expectedRevision
    {
      var a := plan.actions[i];
      if a.record != "" && Revision(s.revisions, a.record) != a.expectedRevision { return false; }
    }
    for i := 0 to |plan.actions|
      invariant forall j :: 0 <= j < i ==> Bound(plan.actions[j], plan.binding.bundle, s.revisions, records)
    {
      var a := plan.actions[i];
      if a.record == "" { continue; }
      if B.RecordRevision(records, B.Physical(plan.binding.bundle, a.record)) != a.expectedRevision { return false; }
    }
    return true;
  }

  /**
   * What a bound plan rolls out belongs together: each planned record has the value recorded in the
   * snapshot, and a derived one is its template over the very values the snapshot records, whether
   * they are rolled out as well or not.
   */
  lemma BoundPlansAreConsistent(plan: Plan, objectRevision: int, s: B.Snapshot, records: map<B.Name, B.Version>,
                                digestText: B.Manifest -> string, past: map<(B.Name, nat), string>, i: nat)
    requires ValidPlan(plan) && PlanBound(plan, objectRevision, s, records, digestText)
    requires B.ConsistentCut(s, past) && i < |plan.actions| && plan.actions[i].record != ""
    requires forall n :: n in records ==>
               (n, records[n].revision) in past && past[(n, records[n].revision)] == records[n].value
    ensures var n := B.Physical(s.bundle, plan.actions[i].record);
            && n in records && plan.actions[i].record in s.revisions
            && records[n].value == past[(n, s.revisions[plan.actions[i].record])]
            && (B.IsDerived(s.digest, plan.actions[i].record) ==>
                  records[n].value == SecretTemplate.Filled(B.Nodes(s.digest, plan.actions[i].record),
                    B.ValuesAt(s.bundle, s.revisions, past)))
  {
    var a := plan.actions[i];
    assert ValidAction(a, plan.binding.target) && Bound(a, plan.binding.bundle, s.revisions, records);
    assert a.expectedRevision > 0;
    if B.IsDerived(s.digest, a.record) {
      assert B.Follows(s.digest, a.record, s.revisions[a.record], s.revisions, past);
    }
  }
}

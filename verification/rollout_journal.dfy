/** The write-ahead journal of a rollout: plans, operations and their validation. */
module RolloutJournal {
  import opened Basics

  // ----- Plans ---------------------------------------------------------------------------------

  const MAX_ACTIONS := 512

  datatype Verb = Create | Update | Upsert | Revoke

  datatype Action = Action(id: string, verb: Verb, service: string, serviceId: string, name: string,
                           record: string, valueSource: string, publicValue: string,
                           expectedRevision: int)

  datatype Target = Target(project: string, environment: string, services: map<string, string>)

  /** What a plan and the operation it authorises must agree on. */
  datatype Binding = Binding(bundle: string, manifestDigest: string, snapshotRevision: int,
                             provider: string, identity: string, providerRevision: string,
                             target: Target)

  datatype Plan = Plan(binding: Binding, actions: seq<Action>, createdAt: Time)

  /** SHA-256 as an ideal digest: what is hashed can be read back from it. */
  datatype Digest = OfPlan(plan: Plan) | OfWrite(operation: string, action: string)

  predicate TokenChar(c: char) {
    'A' <= c <= 'Z' || 'a' <= c <= 'z' || '0' <= c <= '9' || c in "_.:-"
  }

  predicate EvidenceToken(s: string) {
    1 <= |s| <= 128 && forall k :: 0 <= k < |s| ==> TokenChar(s[k])
  }

  predicate HexDigest(s: string) {
    |s| == 64 && forall k :: 0 <= k < |s| ==> '0' <= s[k] <= '9' || 'a' <= s[k] <= 'f'
  }

  predicate ValidBinding(b: Binding) {
    && b.bundle != "" && HexDigest(b.manifestDigest) && b.snapshotRevision >= 1 && b.provider != "" && b.identity != ""
    && (b.providerRevision == "" || EvidenceToken(b.providerRevision))
    && b.target.project != "" && b.target.environment != ""
  }

  predicate ValidAction(a: Action, target: Target) {
    && a.id != "" && a.service != "" && a.serviceId != "" && a.name != ""
    && a.service in target.services && target.services[a.service] == a.serviceId
    && (a.verb != Revoke ==>
          || ((a.valueSource == "" || a.valueSource == "record") && a.record != "" &&
              a.expectedRevision > 0 && a.publicValue == "")
          || (a.valueSource == "public-constant" && a.record == "" && a.expectedRevision == 0))
    && (a.verb == Revoke ==>
          a.record == "" && a.valueSource == "" && a.publicValue == "" && a.expectedRevision == 0)
  }

  predicate ValidPlan(plan: Plan) {
    && ValidBinding(plan.binding)
    && 0 < |plan.actions| <= MAX_ACTIONS
    && (forall i :: 0 <= i < |plan.actions| ==> ValidAction(plan.actions[i], plan.binding.target))
    && (forall i, j :: 0 <= i < j < |plan.actions| ==> plan.actions[i].id != plan.actions[j].id)
    && (forall i, j :: 0 <= i < j < |plan.actions| ==>
          plan.actions[i].service != plan.actions[j].service || plan.actions[i].name != plan.actions[j].name)
  }

  // ----- Provider evidence and errors ----------------------------------------------------------

  datatype Retry = Never | Safe | Ambiguous | Unrecognized

  /** An error as an adapter reports it: typed metadata, or arbitrary text that is thrown away. */
  datatype AdapterError = Typed(status: int, retry: Retry) | Untyped

  datatype Error = Error(operation: string, status: int, retry: Retry)

  function BoundedStatus(status: int): int {
    if status < 100 || status > 599 then 0 else status
  }

  predicate ValidError(e: Error) {
    EvidenceToken(e.operation) && |e.operation| <= 48 && e.status == BoundedStatus(e.status) && e.retry != Unrecognized
  }

  /** Unicode white space. */
  predicate Space(c: char) {
    || c == ' ' || '\t' <= c <= '\r' || c == '\U{85}' || c == '\U{A0}' || c == '\U{1680}'
         || '\U{2000}' <= c <= '\U{200A}'
    || c == '\U{2028}' || c == '\U{2029}' || c == '\U{202F}' || c == '\U{205F}' || c == '\U{3000}'
  }

  function Trim(s: string): string {
    if s != "" && Space(s[0]) then Trim(s[1..])
    else if s != "" && Space(s[|s| - 1]) then Trim(s[..|s| - 1])
    else s
  }

  const MAX_OPERATION := 48

  /** The name of an operation as it may be reported. */
  function SafeOperation(operation: string): string {
    var trimmed := Trim(operation);
    if EvidenceToken(trimmed) && |trimmed| <= MAX_OPERATION then trimmed else "request"
  }

  /** Exactly the names that are short tokens are reported as they are. */
  lemma SafeIsToken(operation: string)
    ensures SafeOperation(operation) == operation <==> EvidenceToken(operation) && |operation| <= MAX_OPERATION
    ensures EvidenceToken(SafeOperation(operation)) && |SafeOperation(operation)| <= MAX_OPERATION
  {
    if EvidenceToken(operation) {
      assert TokenChar(operation[0]) && TokenChar(operation[|operation| - 1]);
      assert Trim(operation) == operation;
    }
  }

  predicate Blank(s: string) { forall k :: 0 <= k < |s| ==> Space(s[k]) }

  /** White space around a name is dropped. */
  lemma {:induction false} PaddingIsDropped(before: string, name: string, after: string)
    requires Blank(before) && Blank(after) && EvidenceToken(name) && |name| <= MAX_OPERATION
    ensures Trim(before + name + after) == name && SafeOperation(before + name + after) == name
    decreases |before| + |after|
  {
    var s := before + name + after;
    hide EvidenceToken;
    if before != "" {
      assert s[0] == before[0] && s[1..] == before[1..] + name + after;
      PaddingIsDropped(before[1..], name, after);
    } else if after != "" {
      var most := after[..|after| - 1];
      assert s[0] == name[0] && !Space(s[0]) by { TokenEnds(name); }
      assert s[|s| - 1] == after[|after| - 1] && s[..|s| - 1] == before + name + most;
      PaddingIsDropped(before, name, most);
    } else {
      assert s == name;
      TokenEnds(name);
    }
  }

  lemma TokenEnds(name: string)
    requires EvidenceToken(name)
    ensures name != "" && !Space(name[0]) && !Space(name[|name| - 1])
  {
    assert TokenChar(name[0]) && TokenChar(name[|name| - 1]);
  }

  /** What is reported is the name without the white space around it, or no part of it at all. */
  lemma {:induction false} TrimCuts(s: string) returns (before: string, after: string)
    ensures Blank(before) && Blank(after) && s == before + Trim(s) + after
    decreases |s|
  {
    before, after := "", "";
    if s != "" && Space(s[0]) {
      before, after := TrimCuts(s[1..]);
      before := [s[0]] + before;
    } else if s != "" && Space(s[|s| - 1]) {
      before, after := TrimCuts(s[..|s| - 1]);
      after := after + [s[|s| - 1]];
    }
  }

  /** Which name is reported: the token within white space, and "request" for everything else. */
  lemma ReportedName(operation: string, name: string)
    requires EvidenceToken(name) && |name| <= MAX_OPERATION && name != "request"
    ensures SafeOperation(operation) == name <==>
              exists before, after :: Blank(before) && Blank(after) && operation == before + name + after
  {
    if SafeOperation(operation) == name {
      var before, after := TrimCuts(operation);
      assert Blank(before) && Blank(after) && operation == before + name + after;
    }
    if before, after :| Blank(before) && Blank(after) && operation == before + name + after {
      PaddingIsDropped(before, name, after);
    }
  }

  /**
   * Only typed metadata survives. An error nobody classified proves nothing about a write, so a
   * write alone is left ambiguous; every other operation is reported as final.
   */
  function SanitizeError(operation: string, err: AdapterError): (e: Error)
    ensures ValidError(e) && e.operation == SafeOperation(operation)
    ensures e.retry == Ambiguous <==>
              if err.Typed? then err.retry == Ambiguous else SafeOperation(operation) == "write"
    ensures e.retry == Safe <==> err.Typed? && err.retry == Safe
    ensures e.status == if err.Typed? && 100 <= err.status <= 599 then err.status else 0
  {
    SafeIsToken(operation);
    var name := SafeOperation(operation);
    match err
    case Typed(status, retry) =>
      Error(name, BoundedStatus(status), if retry == Unrecognized then Never else retry)
    case Untyped =>
      Error(name, 0, if name == "write" then Ambiguous else Never)
  }

  /** A timestamp as text: absent, not canonical, or one clock reading. */
  datatype Stamp = Missing | Garbled | Clocked(time: Time)

  datatype WriteEvidence = WriteEvidence(providerOperation: string, committedAt: Stamp)

  predicate ValidWriteEvidence(e: WriteEvidence) {
    (e.providerOperation == "" || EvidenceToken(e.providerOperation)) && e.committedAt.Clocked?
  }

  datatype Presence = Unknown | Absent | Present | Unspecified

  datatype Verdict = ProvedVerified | ProvedLimited | NoVerdict

  datatype VerifyEvidence = VerifyEvidence(result: Verdict, presence: Presence, verifiedAt: Stamp)

  predicate ValidVerifyEvidence(e: VerifyEvidence) {
    e.result != NoVerdict && e.presence != Unspecified && e.verifiedAt.Clocked?
  }

  // ----- Operations ----------------------------------------------------------------------------

  datatype ItemStatus = Pending | InFlight | Committed | Verified | Limited

  datatype Item = Item(action: Action, status: ItemStatus, attempts: nat, writeKey: Digest,
                       lastAttemptAt: Option<Time>, write: Option<WriteEvidence>,
                       verify: Option<VerifyEvidence>, lastError: Option<Error>)

  datatype Status =
    | Confirmed | Writing | Retryable | Reconciliation | Written | Verifying
    | ReadyToDeploy | LimitedEvidence | Failed

  datatype Operation = Operation(id: string, planId: Digest, planDigest: Digest, binding: Binding,
                                 status: Status, items: seq<Item>, createdAt: Time, updatedAt: Time)

  predicate SettledStatus(s: ItemStatus) { s == Committed || s == Verified || s == Limited }

  predicate Checked(s: ItemStatus) { s == Verified || s == Limited }

  predicate ValidItem(item: Item, target: Target) {
    && ValidAction(item.action, target)
    && (item.lastError.Some? ==> ValidError(item.lastError.value))
    && (item.lastAttemptAt.Some? ==> item.attempts != 0)
    && (item.status == Pending ==> item.write.None?)
    && (Checked(item.status) ==> item.verify.Some?)
    && (SettledStatus(item.status) ==> item.write.Some?)
    && (item.write.Some? ==> ValidWriteEvidence(item.write.value))
    && (item.verify.Some? ==>
          && ValidVerifyEvidence(item.verify.value)
          && (item.status == Verified ==> item.verify.value.result == ProvedVerified)
          && (item.status == Limited ==> item.verify.value.result == ProvedLimited))
  }

  predicate AnyLimited(items: seq<Item>) {
    exists i :: 0 <= i < |items| && items[i].status == Limited
  }

  predicate TerminalConsistent(status: Status, items: seq<Item>) {
    status == ReadyToDeploy || status == LimitedEvidence ==>
      && (forall i :: 0 <= i < |items| ==> Checked(items[i].status))
      && (AnyLimited(items) <==> status == LimitedEvidence)
  }

  /** What every load and save of an operation insists on. */
  predicate ValidOperation(op: Operation) {
    && op.id != "" && op.planDigest == op.planId
    && ValidBinding(op.binding)
    && 0 < |op.items| <= MAX_ACTIONS
    && op.createdAt <= op.updatedAt
    && (forall i :: 0 <= i < |op.items| ==> ValidItem(op.items[i], op.binding.target))
    && (forall i, j :: 0 <= i < j < |op.items| ==> op.items[i].action.id != op.items[j].action.id)
    && TerminalConsistent(op.status, op.items)
  }

  predicate MatchesPlan(op: Operation, plan: Plan) {
    && op.planDigest == OfPlan(plan) && op.binding == plan.binding
    && |op.items| == |plan.actions|
    && forall i :: 0 <= i < |plan.actions| ==> op.items[i].action == plan.actions[i]
  }

  function NewOperation(plan: Plan, id: string, now: Time): (op: Operation)
    ensures ValidPlan(plan) && id != "" ==> ValidOperation(op) && MatchesPlan(op, plan)
    ensures forall i, j :: 0 <= i < j < |op.items| && ValidPlan(plan) ==>
              op.items[i].writeKey != op.items[j].writeKey
  {
    Operation(id, OfPlan(plan), OfPlan(plan), plan.binding, Confirmed,
              seq(|plan.actions|, i requires 0 <= i < |plan.actions| =>
                Item(plan.actions[i], Pending, 0, OfWrite(id, plan.actions[i].id), None, None, None, None)),
              now, now)
  }

  // ----- What the journal looks like between steps ---------------------------------------------

  predicate Untouched(item: Item) { item.status == Pending && item.attempts == 0 }

  /** One write at a time: settled items, then at most one attempted item, then untouched ones. */
  predicate InOrder(items: seq<Item>) {
    forall i, j :: 0 <= i < j < |items| && !SettledStatus(items[i].status) ==> Untouched(items[j])
  }

  /** All writes at once: every item is in the same phase, and settled items share their evidence. */
  predicate Uniform(items: seq<Item>) {
    forall i, j :: 0 <= i < |items| && 0 <= j < |items| ==>
      && (items[i].status == Pending <==> items[j].status == Pending)
      && (items[i].status == InFlight <==> items[j].status == InFlight)
      && items[i].attempts == items[j].attempts
      && (SettledStatus(items[i].status) ==>
            items[i].write == items[j].write && items[i].write.Some? &&
            items[i].write.value.providerOperation != "")
  }

  predicate WellShaped(items: seq<Item>, batch: bool) {
    if batch then Uniform(items) else InOrder(items)
  }

  /** What a saved item satisfies, beyond what validation asks of it. */
  predicate ItemOk(item: Item, action: Action, id: string, target: Target) {
    && item.action == action && item.writeKey == OfWrite(id, action.id)
    && ValidItem(item, target)
    && (SettledStatus(item.status) <==> item.write.Some?)
    && (item.status == InFlight ==> item.attempts > 0)
  }

  predicate HeaderOk(op: Operation, plan: Plan) {
    && op.id != "" && op.planDigest == op.planId == OfPlan(plan) && op.binding == plan.binding
    && op.createdAt <= op.updatedAt
  }

  /** Everything a saved operation satisfies. */
  predicate Sound(op: Operation, plan: Plan, batch: bool) {
    && HeaderOk(op, plan)
    && |op.items| == |plan.actions|
    && (forall i :: 0 <= i < |op.items| ==> ItemOk(op.items[i], plan.actions[i], op.id, plan.binding.target))
    && WellShaped(op.items, batch)
    && TerminalConsistent(op.status, op.items)
  }

  lemma SoundIsValid(op: Operation, plan: Plan, batch: bool)
    requires ValidPlan(plan) && Sound(op, plan, batch)
    ensures ValidOperation(op) && MatchesPlan(op, plan)
  {
    forall i | 0 <= i < |op.items| ensures op.items[i].action == plan.actions[i] {
      assert ItemOk(op.items[i], plan.actions[i], op.id, plan.binding.target);
    }
    forall i | 0 <= i < |op.items| ensures ValidItem(op.items[i], op.binding.target) {
      assert ItemOk(op.items[i], plan.actions[i], op.id, plan.binding.target);
    }
  }
}

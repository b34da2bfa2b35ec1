/**
 * The rollout engine as the program it is: loops over the operation's items that save, call the
 * provider and save again. Every effect goes through a Cloud, which lets other engines interleave
 * before it happens and may lose any acknowledgement; the Cloud keeps the run so far, and each
 * method is verified to extend it by steps of the rollout machine.
 */
module RolloutEngine {
  import opened Basics
  import opened RolloutJournal
  import opened RolloutMachine
  import opened RolloutInvariant

  /** An answer that takes a write: evidence that is valid once its time is filled in. */
  predicate Obliges(reply: WriteReply, staged: bool) {
    && reply.Accepted? && ValidWriteEvidence(Filled(reply.evidence, 0))
    && (staged ==> reply.evidence.providerOperation != "")
  }

  predicate Proves(answer: VerifyReply) {
    answer.Evidence? &&
    ValidVerifyEvidence(answer.evidence.(verifiedAt := FillStamp(answer.evidence.verifiedAt, 0)))
  }

  /** Evidence that can be kept: an identifier that is a token, if any, and a time that is one, if any. */
  predicate Plausible(e: WriteEvidence) {
    (e.providerOperation == "" || EvidenceToken(e.providerOperation)) && !e.committedAt.Garbled?
  }

  /** Committed on this very evidence; a time that was not given is filled in. */
  predicate Evidenced(item: Item, e: WriteEvidence) {
    && item.status == Committed && item.write.Some? && Plausible(e)
    && item.write.value.providerOperation == e.providerOperation
    && item.write.value.committedAt.Clocked?
         && (e.committedAt.Clocked? ==> item.write.value.committedAt == e.committedAt)
  }

  predicate MovesEngine(s: Step, e: nat) { !s.Settle? && s.e == e }

  /** The journal store, the provider and the clock, shared by every engine. */
  class Cloud {
    const steady: bool      // nobody else moves, valid saves are acknowledged, and every call answers
    const obliging: bool    // the provider takes every write and gives valid evidence
    var w: World
    ghost var run: seq<World>
    ghost var steps: seq<Step>
    ghost var loaded: set<(string, int)>    // the values at hand for the next call: records, each at a revision
    ghost var asked: seq<nat>               // the actions whose verification was asked for, in order

    ghost predicate Valid()
      reads this
    {
      IsRun(run, steps) && Starts(run[0]) && run[|steps|] == w
    }

    /** The run has only grown, and the setting is what it was. */
    twostate predicate Extends()
      reads this
    {
      && old(run) <= run && old(steps) <= steps
      && w.plan == old(w.plan) && w.caps == old(w.caps) && w.batch == old(w.batch)
      && w.op.createdAt == old(w.op.createdAt)
    }

    /** Left alone, the journal stays at its revision, and the provider is not called. */
    twostate predicate Undisturbed()
      reads this
    {
      steady ==> w.revision == old(w.revision) && w.issued == old(w.issued)
    }

    /** What an action is written from is at hand, at the revision of the plan. */
    ghost predicate AtHand(action: Action)
      reads this
    {
      action.record != "" ==> (action.record, action.expectedRevision) in loaded
    }

    /** Left alone, no call was made since. */
    twostate predicate Uncalled()
      reads this
    {
      steady ==> w.issued == old(w.issued)
    }

    /** Left alone, these are the calls made since. */
    twostate predicate Called(calls: seq<Issue>)
      reads this
    {
      steady ==> w.issued == old(w.issued) + calls
    }

    /** The journal held exactly this operation at some moment since then. */
    ghost predicate Journalled(op: Operation, from: int)
      reads this
    {
      exists k :: 0 <= k && from <= k < |run| && run[k].op == op
    }

    constructor (plan: Plan, caps: Capabilities, batch: bool, id: string, now: Time, applying: nat, others: set<nat>,
                 steady: bool, obliging: bool)
      requires ValidPlan(plan) && id != "" && applying !in others
      ensures Valid() && steps == []
      ensures w.op == NewOperation(plan, id, now) && w.revision == 1
      ensures w.plan == plan && w.caps == caps && w.batch == batch && OneBusy()
      ensures applying in w.engines && w.engines[applying] == Busy(w.op, 1, Point.Inspect)
      ensures this.steady == steady && this.obliging == obliging
    {
      this.steady, this.obliging := steady, obliging;
      var none := seq(|plan.actions|, i => 0 as nat);
      w := World(plan, caps, batch, NewOperation(plan, id, now), 1,
                 (map e | e in others :: Idle)[applying := Busy(NewOperation(plan, id, now), 1, Point.Inspect)],
                 none, none, []);
      steps := [];
      run := [w];
      loaded, asked := {}, [];
    }

    ghost predicate OneBusy()
      reads this
    {
      forall e, f :: e in w.engines && f in w.engines && w.engines[e].Busy? && w.engines[f].Busy? ==> e == f
    }

    method Take(s: Step)
      requires Valid() && Enabled(w, s)
      modifies this
      ensures Valid() && Extends() && w == Next(old(w), s)
      ensures run == old(run) + [w] && steps == old(steps) + [s]
      ensures loaded == old(loaded) && asked == old(asked)
    {
      RunKeeps(run, steps, |steps|);
      SettingStays(w, s);
      hide *;
      var next := Next(w, s);
      StepExtends(run, steps, s);
      run, steps, w := run + [next], steps + [s], next;
    }

    /** Other engines and the provider take any number of steps of their own. */
    method Interfere(e: nat)
      requires Valid() && e in w.engines
      modifies this
      ensures Valid() && Extends() && e in w.engines && w.engines[e] == old(w.engines[e])
      ensures loaded == old(loaded) && asked == old(asked) && (steady ==> w == old(w))
    {
      if steady { return; }
      hide IsRun, Starts;
      var n: int := *;
      while n > 0
        invariant Valid() && Extends() && e in w.engines && w.engines[e] == old(w.engines[e])
        invariant loaded == old(loaded) && asked == old(asked)
      {
        var s: Step := *;
        if !MovesEngine(s, e) && Enabled(w, s) {
          OthersMove(w, s, e);
          hide Enabled, Next;
          Take(s);
        }
        n := n - 1;
      }
    }

    /** A clock never behind the operation's creation. */
    method Now() returns (now: Time)
      ensures now >= w.op.createdAt
    {
      now := *;
      if now < w.op.createdAt { now := w.op.createdAt; }
    }

    method Inspect(e: nat) returns (reply: Option<Metadata>)
      requires Valid() && Standing(w, e) && w.engines[e].point.Inspect?
      modifies this
      ensures Valid() && Extends() && e in w.engines
      ensures reply.None? ==> w.engines[e] == Idle
      ensures reply.Some? ==>
                w.engines[e] == old(w.engines[e]).(point := if w.batch then BatchTop(reply.value)
                  else Top(reply.value, 0))
      ensures Undisturbed() && (steady ==> reply.Some?)
    {
      Interfere(e);
      var fails: bool := *;
      if fails && !steady {
        Take(Stop(e));
        return None;
      }
      var meta: Metadata := *;
      Take(Inspected(e, meta));
      return Some(meta);
    }

    /** The engine's own decision at a point between effects. */
    method Decides(e: nat, now: Time)
      requires Valid() && Standing(w, e) && RolloutMachine.Decides(w.engines[e].point) && now >= w.op.createdAt
      modifies this
      ensures Valid() && Extends() && e in w.engines && Undisturbed() && loaded == old(loaded) && asked == old(asked)
      ensures w.engines[e] == Decide(w.caps, old(w.engines[e]), now)
    {
      Take(Decided(e, now));
    }

    method Leave(e: nat)
      requires Valid() && e in w.engines
      modifies this
      ensures Valid() && Extends() && e in w.engines && w.engines[e] == Idle
    {
      Take(Stop(e));
    }

    /** Compare-and-set. A save that is not acknowledged may or may not have happened. */
    method Save(e: nat, op: Operation, revision: nat) returns (acknowledged: bool)
      requires Valid() && Standing(w, e) && !AsSaved(w.engines[e].point)
      requires w.engines[e].op == op && w.engines[e].revision == revision
      modifies this
      ensures Valid() && Extends() && e in w.engines
      ensures acknowledged ==> w.engines[e] == Saved(old(w.engines[e]))
      ensures acknowledged ==> exists k :: |old(run)| <= k < |run| && run[k].op == op && run[k].revision == revision + 1
      ensures acknowledged ==> Journalled(op, |old(run)|)
      ensures !acknowledged ==> w.engines[e] == Idle
      ensures steady && old(w.revision) == revision ==> acknowledged && w.revision == revision + 1
      ensures Uncalled() && loaded == old(loaded) && asked == old(asked)
    {
      Interfere(e);
      SaveIsValid(e);
      if w.revision != revision || !ValidOperation(op) {
        Take(Stop(e));
        return false;
      }
      Take(SaveDone(e));
      assert run[|run| - 1].op == op && run[|run| - 1].revision == revision + 1;
      acknowledged := *;
      acknowledged := acknowledged || steady;
      if !acknowledged { Take(Stop(e)); }
    }

    /** Nothing an engine is about to save is ever turned down for its contents. */
    lemma SaveIsValid(e: nat)
      requires Valid() && Standing(w, e)
      ensures ValidOperation(w.engines[e].op)
    {
      RunKeeps(run, steps, |steps|);
      hide *;
      HeldIsValid(w, e);
    }

    /** Reads a record at the revision the plan names; a stale or missing record stops the engine. */
    method LoadRecord(e: nat, record: string, revision: int) returns (found: bool)
      requires Valid() && e in w.engines
      modifies this
      ensures Valid() && Extends() && e in w.engines
      ensures w.engines[e] == if found then old(w.engines[e]) else Idle
      ensures loaded == old(loaded) + if found then {(record, revision)} else {}
      ensures Undisturbed() && (steady ==> found)
    {
      Interfere(e);
      found := *;
      found := found || steady;
      if found { loaded := loaded + {(record, revision)}; } else { Take(Stop(e)); }
    }

    /** What the provider answers. */
    method Answer(staged: bool) returns (answer: WriteReply)
      ensures obliging ==> Obliges(answer, staged)
    {
      StageIsToken();
      answer := *;
      if obliging && !Obliges(answer, staged) { answer := Accepted(WriteEvidence("stage", Missing)); }
    }

    /**
     * One provider write, under the write key of the action and with its value, which is wiped
     * afterwards. None: the process died during the call.
     */
    method Write(e: nat, key: Digest) returns (reply: Option<WriteReply>)
      requires Valid() && Standing(w, e) && w.engines[e].point.CallWrite?
      requires w.engines[e].point.i < |w.engines[e].op.items|
      requires var item := w.engines[e].op.items[w.engines[e].point.i]; key == item.writeKey && AtHand(item.action)
      modifies this
      ensures Valid() && Extends() && e in w.engines
      ensures reply.None? ==> w.engines[e] == Idle
      ensures reply.Some? ==>
                var at := old(w.engines[e]);
                w.engines[e] == at.(point := WriteReplied(at.point.meta, at.point.i, reply.value))
      ensures exists k :: |old(run)| <= k < |run| && |run[k].issued| == |run[k - 1].issued| + 1 &&
                          run[k].issued[|run[k].issued| - 1].item == old(w.engines[e]).point.i
      ensures steady ==> w.revision == old(w.revision) && reply.Some?
      ensures obliging && reply.Some? ==> Obliges(reply.value, false)
      ensures var at := old(w.engines[e]); Called([Issue(at.point.i, at.op.items[at.point.i].attempts)])
    {
      hide Next, Enabled;
      Interfere(e);
      CanCall(e);
      var outcome: Outcome := *;
      var died: bool := *;
      ghost var before := |run|;
      if died && !steady {
        CallEffect(w, WriteLost(e, outcome));
        Take(WriteLost(e, outcome));
        reply := None;
      } else {
        var answer := Answer(false);
        CallEffect(w, WriteDone(e, answer, outcome));
        Take(WriteDone(e, answer, outcome));
        reply := Some(answer);
      }
      loaded := {};
      assert run[before].issued[|run[before].issued| - 1].item == old(w.engines[e]).point.i;
    }

    lemma CanCall(e: nat)
      requires Valid() && Standing(w, e) && w.engines[e].point.CallWrite?
      ensures Calling(w, e)
    {
      RunKeeps(run, steps, |steps|);
      assert EngineOk(w, w.engines[e]);
    }

    method Stage(e: nat) returns (reply: Option<WriteReply>)
      requires Valid() && Standing(w, e) && w.engines[e].point.CallStage?
      requires forall i :: 0 <= i < |w.engines[e].op.items| ==> AtHand(w.engines[e].op.items[i].action)
      modifies this
      ensures Valid() && Extends() && e in w.engines
      ensures reply.None? ==> w.engines[e] == Idle
      ensures reply.Some? ==>
                w.engines[e] == old(w.engines[e]).(point := StageReplied(old(w.engines[e]).point.meta, reply.value))
      ensures steady ==> w.revision == old(w.revision) && reply.Some?
      ensures obliging && reply.Some? ==> Obliges(reply.value, true)
      ensures Called(StageIssues(old(w.engines[e].op)))
    {
      Interfere(e);
      var outcome: Outcome := *;
      var died: bool := *;
      if died && !steady {
        Take(StageLost(e, outcome));
        return None;
      }
      var answer := Answer(true);
      Take(StageDone(e, answer, outcome));
      return Some(answer);
    }

    method Verify(e: nat) returns (reply: Option<VerifyReply>)
      requires Valid() && Standing(w, e) && w.engines[e].point.CallVerify?
      modifies this
      ensures Valid() && Extends() && e in w.engines
      ensures reply.None? ==> w.engines[e] == Idle
      ensures reply.Some? ==>
                var at := old(w.engines[e]);
                w.engines[e] == at.(point := VerifyReplied(at.point.i, at.point.limited, reply.value))
      ensures Undisturbed() && (steady ==> reply.Some?) && (obliging && reply.Some? ==> Proves(reply.value))
      ensures asked == old(asked) + [old(w.engines[e]).point.i]
    {
      asked := asked + [w.engines[e].point.i];
      Interfere(e);
      var died: bool := *;
      if died && !steady {
        Take(Stop(e));
        return None;
      }
      var answer: VerifyReply := *;
      if obliging && !Proves(answer) { answer :=
        VerifyReply.Evidence(VerifyEvidence(ProvedVerified, Unknown, Missing)); }
      Take(VerifyDone(e, answer));
      return Some(answer);
    }
  }

  /** An attempt whose outcome is open: dated, and without the error of an earlier one. */
  predicate Underway(item: Item) {
    item.status == InFlight && item.attempts > 0 && item.lastAttemptAt.Some? && item.lastError == None
  }

  /** Only one item of an operation changed. */
  predicate OthersKept(before: seq<Item>, after: seq<Item>, i: int) {
    |after| == |before| && forall k :: 0 <= k < |after| && k != i ==> after[k] == before[k]
  }

  // ----- What the write loop owes the provider -------------------------------------------------

  /** Metadata names this very write as the last one. */
  predicate Attested(item: Item, meta: Metadata) {
    (item.action.service, item.action.name) in meta &&
    meta[(item.action.service, item.action.name)].lastWriteKey == Some(item.writeKey)
  }

  predicate KnownAbsent(item: Item, meta: Metadata) {
    (item.action.service, item.action.name) in meta &&
    meta[(item.action.service, item.action.name)].presence == Absent
  }

  /** In flight, not to be repeated, and nothing is known of its write. */
  predicate Unresolved(item: Item, meta: Metadata, caps: Capabilities) {
    && item.status == InFlight && !caps.idempotencyKey && !caps.idempotentWrite
    && !Attested(item, meta) && !KnownAbsent(item, meta)
  }

  /**
   * Still to be written: never attempted or refused for certain, or in flight and repeatable or known
   * not to be there.
   */
  predicate Owed(item: Item, meta: Metadata, caps: Capabilities) {
    || item.status == Pending
    || (&& item.status == InFlight
        && (|| caps.idempotencyKey || caps.idempotentWrite
            || (!Attested(item, meta) && KnownAbsent(item, meta) && item.action.verb != Revoke)))
  }

  /** One call for each of the first `n` actions that is owed, in order, with its next attempt number. */
  function OwedCalls(items: seq<Item>, meta: Metadata, caps: Capabilities, n: nat): seq<Issue>
    requires n <= |items|
  {
    if n == 0 then []
    else
      OwedCalls(items, meta, caps, n - 1) +
      if Owed(items[n - 1], meta, caps) then [Issue(n - 1, items[n - 1].attempts + 1)] else []
  }

  /** One call for each of the first `n` actions that is not settled, in order, with its next attempt number. */
  function UnsettledCalls(items: seq<Item>, n: nat): seq<Issue>
    requires n <= |items|
  {
    if n == 0 then []
    else
      UnsettledCalls(items, n - 1) +
      if SettledStatus(items[n - 1].status) then [] else [Issue(n - 1, items[n - 1].attempts + 1)]
  }

  /** An adapter that can verify is asked about every action that was not verified before, limited ones too. */
  predicate Asks(item: Item, caps: Capabilities) { item.status != Verified && caps.validate }

  function Unproved(items: seq<Item>, caps: Capabilities, n: nat): seq<nat>
    requires n <= |items|
  {
    if n == 0 then [] else Unproved(items, caps, n - 1) + if Asks(items[n - 1], caps) then [n - 1] else []
  }

  /** With nothing to reconcile, what is owed is what is not settled. */
  lemma {:induction false} OwedIsUnsettled(items: seq<Item>, meta: Metadata, caps: Capabilities, n: nat)
    requires n <= |items|
    requires caps.idempotencyKey || caps.idempotentWrite || forall i :: 0 <= i < |items| ==> items[i].status != InFlight
    ensures OwedCalls(items, meta, caps, n) == UnsettledCalls(items, n)
  {
    if n > 0 { OwedIsUnsettled(items, meta, caps, n - 1); }
  }

  lemma {:induction false} SettledOwesNothing(items: seq<Item>, meta: Metadata, caps: Capabilities, n: nat)
    requires n <= |items| && AllSettled(items)
    ensures OwedCalls(items, meta, caps, n) == [] && UnsettledCalls(items, n) == []
  {
    if n > 0 { SettledOwesNothing(items, meta, caps, n - 1); }
  }

  /** One stage makes exactly the calls that are owed in a batch. */
  lemma {:induction false} StageOwes(items: seq<Item>, op: Operation, n: nat)
    requires n <= |items| == |op.items| && NoneSettled(items)
    requires forall i :: 0 <= i < |items| ==> op.items[i].attempts == items[i].attempts + 1
    ensures UnsettledCalls(items, n) == StageIssues(op)[..n]
  {
    if n > 0 { StageOwes(items, op, n - 1); }
  }

  /** What metadata makes of an action in flight. */
  lemma ReconciledExactly(item: Item, meta: Metadata, now: Time)
    ensures Reconcile(item, meta, now).None? <==> !Attested(item, meta) && !KnownAbsent(item, meta)
    ensures Reconcile(item, meta, now).Some? ==>
              var to := Reconcile(item, meta, now).value;
              && to.action == item.action && to.attempts == item.attempts
              && (to.status == Committed <==> Attested(item, meta) || item.action.verb == Revoke)
              && (to.status == Pending <==> !Attested(item, meta) && item.action.verb != Revoke)
  {
  }

  datatype Failure =
    | NotInspected | StaleRecord | SaveFailed | NeedsReconciliation
    | ProviderFailed(error: Error) | InvalidEvidence | Died | NotResumable

  /** What a call hands back: the operation as the engine last saw it, and why it stopped. */
  datatype Report = Report(op: Operation, failure: Option<Failure>)

  lemma OthersMove(w: World, s: Step, e: nat)
    requires Enabled(w, s) && !MovesEngine(s, e) && e in w.engines
    ensures e in Next(w, s).engines && Next(w, s).engines[e] == w.engines[e]
  {
    hide Decide, Saved;
  }

  /** What a write changes: one more call, and where its engine stands. */
  lemma CallEffect(w: World, s: Step)
    requires (s.WriteDone? || s.WriteLost?) && Calling(w, s.e)
    ensures Enabled(w, s)
    ensures var at, next := w.engines[s.e], Next(w, s);
            && next.issued == w.issued + [Issue(at.point.i, at.op.items[at.point.i].attempts)]
            && next.revision == w.revision && s.e in next.engines
            && next.engines[s.e] ==
               if s.WriteLost? then Idle else at.(point := WriteReplied(at.point.meta, at.point.i, s.reply))
  {
  }

  lemma SettingStays(w: World, s: Step)
    requires Inv(w) && Enabled(w, s)
    ensures var next := Next(w, s);
            next.plan == w.plan && next.caps == w.caps && next.batch == w.batch && next.op.createdAt == w.op.createdAt
  {
    if s.SaveDone? { OneEngineOk(w, s.e); }
    hide Inv, Sound, PointOk, Decide;
  }

  lemma HeldIsValid(w: World, e: nat)
    requires Inv(w) && Standing(w, e)
    ensures ValidOperation(w.engines[e].op)
  {
    OneEngineOk(w, e);
    assert ValidPlan(w.plan);
    EngineParts(w, w.engines[e]);
    hide Inv, EngineOk, Sound, PointOk;
    SoundIsValid(w.engines[e].op, w.plan, w.batch);
  }

  lemma JournalIsValid(w: World)
    requires Inv(w)
    ensures ValidOperation(w.op)
  {
    hide PermitsOk, IssuedOk, EngineOk, Sound;
    SoundIsValid(w.op, w.plan, w.batch);
  }

  /** Every action is verified or limited, and the status says whether any is limited. */
  predicate AllChecked(op: Operation) {
    && (forall i :: 0 <= i < |op.items| ==> Checked(op.items[i].status))
    && (op.status == LimitedEvidence <==> exists i :: 0 <= i < |op.items| && op.items[i].status == Limited)
  }

  lemma FinalIsChecked(op: Operation)
    requires ValidOperation(op) && (op.status == ReadyToDeploy || op.status == LimitedEvidence)
    ensures AllChecked(op)
  {
    hide ValidItem, ValidBinding;
  }

  /** An atomic batch is in one phase throughout, so the check for partial commits never fires. */
  lemma BatchIsUniform(w: World, e: nat)
    requires Inv(w) && Standing(w, e) && w.engines[e].point.BatchTop?
    ensures AllSettled(w.engines[e].op.items) || NoneSettled(w.engines[e].op.items)
  {
    OneEngineOk(w, e);
    EngineParts(w, w.engines[e]);
    var items := w.engines[e].op.items;
    hide Inv, EngineOk, ItemOk, TerminalConsistent;
    if i :| 0 <= i < |items| && !SettledStatus(items[i].status) {
      forall j | 0 <= j < |items| ensures !SettledStatus(items[j].status) {
        assert items[i].status == Pending <==> items[j].status == Pending;
      }
    }
  }

  /** Evidence is refused exactly if it cannot be kept, and is otherwise kept as it is. */
  lemma EvidenceIsKept(item: Item, raw: WriteEvidence, now: Time)
    ensures ValidWriteEvidence(Filled(raw, now)) <==> Plausible(raw)
    ensures Plausible(raw) ==> Evidenced(Committing(item, Filled(raw, now)), raw)
    ensures Filled(raw, now).providerOperation == raw.providerOperation
    ensures Obliges(Accepted(raw), false) ==> Plausible(raw)
    ensures Obliges(Accepted(raw), true) ==> Plausible(raw) && raw.providerOperation != ""
  {
  }

  lemma EvidencesKept(items: seq<Item>, raw: WriteEvidence, now: Time)
    ensures ValidWriteEvidence(Filled(raw, now)) <==> Plausible(raw)
    ensures Plausible(raw) ==> forall i :: 0 <= i < |items| ==> Evidenced(Committing(items[i], Filled(raw, now)), raw)
    ensures Filled(raw, now).providerOperation == raw.providerOperation
    ensures Obliges(Accepted(raw), true) ==> Plausible(raw) && raw.providerOperation != ""
  {
    forall i | 0 <= i < |items| && Plausible(raw) ensures Evidenced(Committing(items[i], Filled(raw, now)), raw) {
      EvidenceIsKept(items[i], raw, now);
    }
  }

  /** The same of a verification. */
  predicate Telling(e: VerifyEvidence) {
    e.result != NoVerdict && e.presence != Unspecified && !e.verifiedAt.Garbled?
  }

  /** Checked on this very evidence. */
  predicate Witnessed(item: Item, e: VerifyEvidence) {
    && Telling(e) && item.verify.Some?
    && item.status == (if e.result == ProvedVerified then Verified else Limited)
    && item.verify.value.result == e.result && item.verify.value.presence == e.presence
    && item.verify.value.verifiedAt.Clocked?
    && (e.verifiedAt.Clocked? ==> item.verify.value.verifiedAt == e.verifiedAt)
  }

  lemma VerdictIsKept(item: Item, raw: VerifyEvidence, now: Time)
    ensures ValidVerifyEvidence(raw.(verifiedAt := FillStamp(raw.verifiedAt, now))) <==> Telling(raw)
    ensures Telling(raw) ==> Witnessed(WithEvidence(item, raw.(verifiedAt := FillStamp(raw.verifiedAt, now))), raw)
    ensures Proves(VerifyReply.Evidence(raw)) ==> Telling(raw)
  {
  }

  /** Every error an engine reports carries the name of the call that failed. */
  lemma ErrorIsNamed(operation: string, raw: AdapterError)
    requires operation == "write" || operation == "stage" || operation == "verify"
    ensures SanitizeError(operation, raw).operation == operation
    ensures SanitizeError(operation, raw).retry != Unrecognized
  {
    SafeIsToken(operation);
    assert ValidError(SanitizeError(operation, raw));
  }

  lemma StageIsToken()
    ensures EvidenceToken("stage")
  {
  }

  /** Replaces one item of the operation. */
  function With(op: Operation, i: nat, item: Item): Operation
    requires i < |op.items|
  {
    op.(items := op.items[i := item])
  }

  /** What an operation that failed with this error becomes. */
  predicate Concluded(status: Status, error: Error, caps: Capabilities) {
    && (error.operation == "write" || error.operation == "stage" || error.operation == "verify")
    && (status == Failed || status == Retryable || status == Reconciliation)
    && (status == Failed <==> error.retry == Never)
    && (status == Reconciliation <==>
          && error.retry == Ambiguous && error.operation != "verify"
          && (error.operation == "write" ==> !caps.idempotencyKey && !caps.idempotentWrite))
  }

  /** An operation with a refused write noted. */
  function WithRefusal(op: Operation, i: nat, error: Error, caps: Capabilities, now: Time): Operation
    requires i < |op.items|
  {
    With(op, i, AfterRefusal(op.items[i], error)).(status := RefusalStatus(error, caps), updatedAt := now)
  }

  /** An operation with a refused stage noted. */
  function WithStageRefusal(op: Operation, error: Error, now: Time): Operation {
    op.(items := MapItems(op.items, item => AfterStageRefusal(item, error)), status := StageRefusalStatus(error),
        updatedAt := now)
  }

  /** An operation with a failed verification noted. */
  function WithUnverified(op: Operation, i: nat, error: Error, now: Time): Operation
    requires i < |op.items|
  {
    With(op, i, op.items[i].(lastError := Some(error)))
      .(status := if error.retry == Never then Failed else Retryable, updatedAt := now)
  }

  lemma RefusalNoted(caps: Capabilities, e: RolloutMachine.Engine, raw: AdapterError, now: Time)
    requires e.Busy? && e.point.WriteReplied? && e.point.reply == Refused(raw) && e.point.i < |e.op.items|
    ensures var i, error := e.point.i, SanitizeError("write", raw);
            var to := WithRefusal(e.op, i, error, caps, now);
            && Decide(caps, e, now) == e.(op := to, point := SaveFailure)
            && OthersKept(e.op.items, to.items, i) && to.items[i].lastError == Some(error)
            && to.items[i].status == (if error.retry == Ambiguous then InFlight else Pending)
            && Concluded(to.status, error, caps)
  {
    ErrorIsNamed("write", raw);
    hide SanitizeError;
  }

  lemma StageRefusalNoted(caps: Capabilities, e: RolloutMachine.Engine, raw: AdapterError, now: Time)
    requires e.Busy? && e.point.StageReplied? && e.point.reply == Refused(raw)
    ensures var error := SanitizeError("stage", raw);
            var to := WithStageRefusal(e.op, error, now);
            && Decide(caps, e, now) == e.(op := to, point := SaveFailure) && |to.items| == |e.op.items|
            && (forall i :: 0 <= i < |to.items| ==>
                  && to.items[i].lastError == Some(error)
                  && to.items[i].status == if error.retry == Ambiguous then e.op.items[i].status else Pending)
            && Concluded(to.status, error, caps)
  {
    ErrorIsNamed("stage", raw);
    hide SanitizeError;
  }

  lemma UnverifiedNoted(caps: Capabilities, e: RolloutMachine.Engine, raw: AdapterError, now: Time)
    requires e.Busy? && e.point.VerifyReplied? && e.point.answer == Unverified(raw) && e.point.i < |e.op.items|
    ensures var i, error := e.point.i, SanitizeError("verify", raw);
            var to := WithUnverified(e.op, i, error, now);
            && Decide(caps, e, now) == e.(op := to, point := SaveFailure)
            && OthersKept(e.op.items, to.items, i) && to.items[i].lastError == Some(error)
            && Concluded(to.status, error, caps)
  {
    ErrorIsNamed("verify", raw);
    hide SanitizeError;
  }

  class Engine {
    const id: nat
    const cloud: Cloud

    constructor (id: nat, cloud: Cloud)
      ensures this.id == id && this.cloud == cloud
    {
      this.id, this.cloud := id, cloud;
    }

    ghost predicate Stands(e: RolloutMachine.Engine)
      reads cloud
    {
      && cloud.Valid() && id in cloud.w.engines && cloud.w.engines[id] == e
      && (cloud.steady && e.Busy? ==> e.revision == cloud.w.revision)
    }

    /** What may still stop an engine that nothing disturbs. */
    ghost predicate Expected(stop: Option<Failure>) {
      cloud.steady && stop.Some? ==>
        || stop.value.NeedsReconciliation?
        || (!cloud.obliging && (stop.value.ProviderFailed? || stop.value.InvalidEvidence?))
    }

    /**
     * An engine that stops for the provider's sake has left the reason in the journal: final errors
     * fail the operation, and an ambiguous one asks for reconciliation exactly if it was a stage, or
     * a write that may not be repeated; any other may be retried.
     */
    ghost predicate Told(op: Operation, stop: Option<Failure>, from: int)
      reads cloud
    {
      && (stop == Some(NeedsReconciliation) ==> op.status == Reconciliation && cloud.Journalled(op, from))
      && (stop.Some? && stop.value.ProviderFailed? ==>
            && Concluded(op.status, stop.value.error, cloud.w.caps)
            && (exists i :: 0 <= i < |op.items| && op.items[i].lastError == Some(stop.value.error))
            && cloud.Journalled(op, from))
    }

    /**
     * Everything from inspection to the final save. When it returns without a failure the operation
     * is finished and was saved in that very form.
     */
    method Advance(operation: Operation, revision: nat) returns (r: Report)
      requires Stands(Busy(operation, revision, Point.Inspect))
      modifies cloud
      ensures Stands(Idle) && cloud.Extends()
      ensures r.failure.None? ==>
                Finished(r.op.status) && r.op.status != Failed && AllChecked(r.op)
                  && cloud.Journalled(r.op, |old(cloud.run)|)
      ensures Expected(r.failure) && Told(r.op, r.failure, |old(cloud.run)|)
      ensures r.failure == Some(NeedsReconciliation) ==> !old(Unasking(operation))
      ensures cloud.steady && cloud.obliging && old(Unasking(operation)) ==>
                r.failure.None? && cloud.Called(UnsettledCalls(operation.items, |operation.items|))
    {
      hide Cloud.Valid, Cloud.Journalled, Decide, Saved, Next, Enabled, ValidOperation, OwedCalls, UnsettledCalls,
           AllChecked, Unresolved, AllSettled;
      var op, rev, meta, stop := Approach(operation, revision);
      if stop.Some? { return Report(op, stop); }
      if cloud.w.batch {
        SettledOwesNothing(op.items, meta, cloud.w.caps, |op.items|);
      } else if Unasking(operation) {
        OwedIsUnsettled(operation.items, meta, cloud.w.caps, |operation.items|);
      }
      Resolved(op.items, meta, cloud.w.caps);
      ghost var looked := |cloud.run|;
      op, rev, stop := WriteAll(op, rev, meta);
      if stop.Some? {
        ToldSince(op, stop, looked, |old(cloud.run)|);
        return Report(op, stop);
      }
      r := FinishAll(op, rev, meta, |old(cloud.run)|);
    }

    /** Looks at the provider, and stages an atomic batch. */
    method Approach(operation: Operation, revision: nat)
      returns (op: Operation, rev: nat, meta: Metadata, stop: Option<Failure>)
      requires Stands(Busy(operation, revision, Point.Inspect))
      modifies cloud
      ensures cloud.Extends() && |op.items| == |operation.items|
      ensures stop.None? ==> Stands(Busy(op, rev, Top(meta, 0)))
      ensures stop.None? && cloud.w.batch ==>
                AllSettled(op.items) && cloud.Called(UnsettledCalls(operation.items, |operation.items|))
      ensures stop.None? && !cloud.w.batch ==> op == operation && cloud.Uncalled()
      ensures stop.Some? ==> Stands(Idle) && Expected(stop)
      ensures Told(op, stop, |old(cloud.run)|) && stop != Some(NeedsReconciliation)
    {
      hide Cloud.Valid, Cloud.Journalled, Decide, Saved, Next, Enabled, ValidOperation, UnsettledCalls, AllSettled;
      op, rev, meta, stop := operation, revision, map[], None;
      var inspected := cloud.Inspect(id);
      if inspected.None? { stop := Some(NotInspected); return; }
      meta := inspected.value;
      if cloud.w.batch {
        ghost var from := |cloud.run|;
        op, rev, stop := AdvanceBatch(op, rev, meta);
        ToldSince(op, stop, from, |old(cloud.run)|);
      }
    }

    /** Once everything is written: marks the operation and verifies it. */
    method FinishAll(operation: Operation, revision: nat, meta: Metadata, ghost from: int) returns (r: Report)
      requires Stands(Busy(operation, revision, Top(meta, |operation.items|))) && from <= |cloud.run|
      modifies cloud
      ensures cloud.Extends() && Stands(Idle) && Expected(r.failure) && r.failure != Some(NeedsReconciliation)
      ensures cloud.Uncalled() && Told(r.op, r.failure, from)
      ensures r.failure.None? ==>
                Finished(r.op.status) && r.op.status != Failed && AllChecked(r.op) && cloud.Journalled(r.op, from)
    {
      hide Cloud.Valid, Cloud.Journalled, Decide, Saved, Next, Enabled, ValidOperation, AllChecked;
      var op, rev, stop := FinishWriting(operation, revision, meta);
      if stop.Some? { return Report(op, stop); }
      ghost var written := |cloud.run|;
      r := VerifyAll(op, rev);
      ToldSince(r.op, r.failure, written, from);
      if r.failure.None? { JournalledSince(r.op, written, from); }
    }

    lemma Resolved(items: seq<Item>, meta: Metadata, caps: Capabilities)
      ensures caps.idempotencyKey || caps.idempotentWrite || AllSettled(items)
              || (forall i :: 0 <= i < |items| ==> items[i].status != InFlight) ==>
                forall i :: 0 <= i < |items| ==> !Unresolved(items[i], meta, caps)
    {
    }

    /** Nothing to reconcile: no action in flight, or one that may simply be repeated. */
    ghost predicate Unasking(op: Operation)
      reads cloud
    {
      || cloud.w.batch || cloud.w.caps.idempotencyKey || cloud.w.caps.idempotentWrite
      || forall i :: 0 <= i < |op.items| ==> op.items[i].status != InFlight
    }

    /** The write loop. */
    method WriteAll(operation: Operation, revision: nat, meta: Metadata)
      returns (op: Operation, rev: nat, stop: Option<Failure>)
      requires Stands(Busy(operation, revision, Top(meta, 0))) && (cloud.w.batch ==> AllSettled(operation.items))
      modifies cloud
      ensures cloud.Extends() && |op.items| == |operation.items|
      ensures stop.None? ==> Stands(Busy(op, rev, Top(meta, |op.items|)))
      ensures stop.Some? ==> Stands(Idle) && Expected(stop)
      ensures Told(op, stop, |old(cloud.run)|)
      ensures stop == Some(NeedsReconciliation) ==>
                exists i :: 0 <= i < |operation.items| && Unresolved(operation.items[i], meta, cloud.w.caps)
      ensures stop.None? ==>
                && cloud.Called(OwedCalls(operation.items, meta, cloud.w.caps, |operation.items|))
                && forall i :: 0 <= i < |operation.items| ==> !Unresolved(operation.items[i], meta, cloud.w.caps)
    {
      hide Cloud.Valid, Decide, Saved, Next, Enabled, ValidOperation, Cloud.Journalled, Owed, Unresolved;
      op, rev, stop := operation, revision, None;
      var i := 0;
      while i < |op.items|
        invariant cloud.Extends() && i <= |op.items| == |operation.items| && stop.None?
        invariant cloud.Called(OwedCalls(operation.items, meta, cloud.w.caps, i))
        invariant forall k :: 0 <= k < i ==> !Unresolved(operation.items[k], meta, cloud.w.caps)
        invariant Stands(Busy(op, rev, Top(meta, i)))
        invariant forall k :: i <= k < |op.items| ==> op.items[k] == operation.items[k]
        decreases |op.items| - i
      {
        ghost var from := |cloud.run|;
        op, rev, stop := WriteOne(op, rev, meta, i);
        if stop.Some? {
          ToldSince(op, stop, from, |old(cloud.run)|);
          return;
        }
        i := i + 1;
      }
    }

    lemma ToldSince(op: Operation, stop: Option<Failure>, later: int, from: int)
      requires Told(op, stop, later) && from <= later
      ensures Told(op, stop, from)
    {
    }

    /** The verification loop and the final save. */
    method VerifyAll(operation: Operation, revision: nat) returns (r: Report)
      requires Stands(Busy(operation, revision, VerifyTop(0, false)))
      modifies cloud
      ensures cloud.Extends() && Stands(Idle) && Expected(r.failure) && r.failure != Some(NeedsReconciliation)
      ensures cloud.Uncalled()
      ensures r.failure.None? ==>
                Finished(r.op.status) && r.op.status != Failed && AllChecked(r.op)
                  && cloud.Journalled(r.op, |old(cloud.run)|)
      ensures Told(r.op, r.failure, |old(cloud.run)|)
      ensures r.failure.None? ==>
                cloud.asked == old(cloud.asked) + Unproved(operation.items, cloud.w.caps, |operation.items|)
    {
      hide Cloud.Valid, Decide, Saved, Next, Enabled, ValidOperation, Cloud.Journalled;
      var op, rev, limited, i := operation, revision, false, 0;
      while i < |op.items|
        invariant cloud.Extends() && i <= |op.items| && cloud.Uncalled()
        invariant Stands(Busy(op, rev, VerifyTop(i, limited)))
        invariant |op.items| == |operation.items| && forall k :: i <= k < |op.items| ==>
                    op.items[k] == operation.items[k]
        invariant cloud.asked == old(cloud.asked) + Unproved(operation.items, cloud.w.caps, i)
        decreases |op.items| - i
      {
        ghost var from := |cloud.run|;
        var stop;
        op, rev, limited, stop := VerifyOne(op, rev, i, limited);
        if stop.Some? {
          ToldSince(op, stop, from, |old(cloud.run)|);
          return Report(op, stop);
        }
        i := i + 1;
      }
      ghost var from := |cloud.run|;
      r := FinishVerifying(op, rev, limited);
      if r.failure.None? { JournalledSince(r.op, from, |old(cloud.run)|); }
    }

    lemma JournalledSince(op: Operation, later: int, from: int)
      requires cloud.Journalled(op, later) && from <= later
      ensures cloud.Journalled(op, from)
    {
    }

    /** Between the loops: the operation is marked written, then verifying. */
    method FinishWriting(operation: Operation, revision: nat, meta: Metadata)
      returns (op: Operation, rev: nat, stop: Option<Failure>)
      requires Stands(Busy(operation, revision, Top(meta, |operation.items|)))
      modifies cloud
      ensures cloud.Extends() && op.items == operation.items
      ensures cloud.Uncalled()
      ensures stop.None? ==> Stands(Busy(op, rev, VerifyTop(0, false)))
      ensures stop.Some? ==> Stands(Idle) && !cloud.steady && stop == Some(SaveFailed)
    {
      hide Cloud.Valid, Cloud.Journalled, Next, Enabled, ValidOperation, Decide, Saved;
      op, rev, stop := MarkWritten(operation, revision, meta);
      if stop.None? { op, rev, stop := MarkVerifying(op, rev); }
    }

    method MarkWritten(operation: Operation, revision: nat, meta: Metadata)
      returns (op: Operation, rev: nat, stop: Option<Failure>)
      requires Stands(Busy(operation, revision, Top(meta, |operation.items|)))
      modifies cloud
      ensures cloud.Extends() && op.items == operation.items
      ensures cloud.Uncalled()
      ensures stop.None? ==> Stands(Busy(op, rev, AllWritten)) && op.status == Written
      ensures stop.Some? ==> Stands(Idle) && !cloud.steady && stop == Some(SaveFailed)
    {
      hide Cloud.Valid, Cloud.Journalled, Next, Enabled, ValidOperation, Reconcile, MapItems, AtBatchTop, AtLoaded,
           AtVerifyTop, Staged, Answered, VerifiedTo, Cloud.Journalled;
      var now := cloud.Now();
      cloud.Decides(id, now);
      op := operation.(status := Written, updatedAt := now);
      var saved := cloud.Save(id, op, revision);
      rev, stop := revision + 1, if saved then None else Some(SaveFailed);
    }

    method MarkVerifying(operation: Operation, revision: nat)
      returns (op: Operation, rev: nat, stop: Option<Failure>)
      requires Stands(Busy(operation, revision, AllWritten))
      modifies cloud
      ensures cloud.Extends() && op.items == operation.items
      ensures cloud.Uncalled()
      ensures stop.None? ==> Stands(Busy(op, rev, VerifyTop(0, false))) && op.status == Verifying
      ensures stop.Some? ==> Stands(Idle) && !cloud.steady && stop == Some(SaveFailed)
    {
      hide Cloud.Valid, Cloud.Journalled, Next, Enabled, ValidOperation, Reconcile, MapItems, AtBatchTop, AtLoaded,
           AtVerifyTop, Staged, Answered, VerifiedTo, Cloud.Journalled;
      var now := cloud.Now();
      cloud.Decides(id, now);
      op := operation.(status := Verifying, updatedAt := now);
      var saved := cloud.Save(id, op, revision);
      rev, stop := revision + 1, if saved then None else Some(SaveFailed);
    }

    method FinishVerifying(operation: Operation, revision: nat, limited: bool) returns (r: Report)
      requires Stands(Busy(operation, revision, VerifyTop(|operation.items|, limited)))
      modifies cloud
      ensures cloud.asked == old(cloud.asked)
      ensures cloud.Extends() && Stands(Idle)
      ensures cloud.Uncalled()
      ensures cloud.steady ==> r.failure.None?
      ensures r.failure.None? || r.failure == Some(SaveFailed)
      ensures r.failure.None? ==>
                && r.op.status == (if limited then LimitedEvidence else ReadyToDeploy)
                && r.op.items == operation.items && cloud.Journalled(r.op, |old(cloud.run)|)
                && AllChecked(r.op)
    {
      hide ValidOperation;
      var now := cloud.Now();
      cloud.Decides(id, now);
      cloud.SaveIsValid(id);
      var op := operation.(status := if limited then LimitedEvidence else ReadyToDeploy, updatedAt := now);
      FinalIsChecked(op);
      var saved := cloud.Save(id, op, revision);
      return Report(op, if saved then None else Some(SaveFailed));
    }

    /** One action of the write loop, from its saved state to its next one. */
    method WriteOne(operation: Operation, revision: nat, meta: Metadata, i: nat)
      returns (op: Operation, rev: nat, stop: Option<Failure>)
      requires i < |operation.items| && Stands(Busy(operation, revision, Top(meta, i)))
      modifies cloud
      ensures cloud.Extends() && |op.items| == |operation.items|
      ensures stop.None? ==> Stands(Busy(op, rev, Top(meta, i + 1)))
      ensures stop.Some? ==> Stands(Idle) && Expected(stop)
      ensures Told(op, stop, |old(cloud.run)|)
      ensures OthersKept(operation.items, op.items, i)
      ensures stop == Some(NeedsReconciliation) ==> Unresolved(operation.items[i], meta, cloud.w.caps)
      ensures stop.None? ==>
                && !Unresolved(operation.items[i], meta, cloud.w.caps)
                && cloud.Called(if Owed(operation.items[i], meta, cloud.w.caps)
                     then [Issue(i, operation.items[i].attempts + 1)] else [])
    {
      hide Cloud.Valid, Cloud.Journalled, Decide, Saved, Next, Enabled, ValidOperation;
      op, rev, stop := operation, revision, None;
      if op.items[i].status == InFlight && !Retriable(cloud.w.caps) {
        op, rev, stop := Resolve(op, rev, meta, i);
        if stop.Some? || op.items[i].status == Committed { CalledNothing(); return; }
      } else {
        AtTopIs(cloud.w.caps, cloud.w.engines[id]);
        var now := cloud.Now();
        cloud.Decides(id, now);
        if SettledStatus(op.items[i].status) { CalledNothing(); return; }
      }
      ghost var from := |cloud.run|;
      op, rev, stop := Attempt(op, rev, meta, i);
      ToldSince(op, stop, from, |old(cloud.run)|);
    }

    /** Settles an action in flight, or finds that it must be written, on the word of metadata alone. */
    method Resolve(operation: Operation, revision: nat, meta: Metadata, i: nat)
      returns (op: Operation, rev: nat, stop: Option<Failure>)
      requires i < |operation.items| && Stands(Busy(operation, revision, Top(meta, i)))
      requires operation.items[i].status == InFlight && !Retriable(cloud.w.caps)
      modifies cloud
      ensures cloud.Extends() && OthersKept(operation.items, op.items, i) && cloud.Uncalled()
      ensures stop.Some? ==> Stands(Idle) && Expected(stop) && Told(op, stop, |old(cloud.run)|)
      ensures stop.Some? ==> stop.value.SaveFailed? || stop.value.NeedsReconciliation?
      ensures stop == Some(NeedsReconciliation) ==>
                !Attested(operation.items[i], meta) && !KnownAbsent(operation.items[i], meta)
      ensures stop.None? ==>
                var item := operation.items[i];
                && (Attested(item, meta) || KnownAbsent(item, meta)) && op.items[i].attempts == item.attempts
                && if Attested(item, meta) || item.action.verb == Revoke
                   then op.items[i].status == Committed && Stands(Busy(op, rev, Top(meta, i + 1)))
                   else op.items[i].status == Pending && Stands(Busy(op, rev, LoadValue(meta, i)))
    {
      hide Cloud.Valid, Cloud.Journalled, Decide, Saved, Next, Enabled, ValidOperation, Reconcile, Attested,
           KnownAbsent;
      op, rev, stop := operation, revision, None;
      var now := cloud.Now();
      AtTopIs(cloud.w.caps, cloud.w.engines[id]);
      cloud.Decides(id, now);
      var resolved := Reconcile(op.items[i], meta, now);
      ReconciledExactly(op.items[i], meta, now);
      if resolved.None? {
        op := op.(status := Reconciliation, updatedAt := now);
        ghost var from := |cloud.run|;
        stop := KeepUnresolved(op, rev);
        ToldSince(op, stop, from, |old(cloud.run)|);
      } else {
        op := With(op, i, resolved.value).(updatedAt := now);
        rev, stop := KeepResolved(op, rev, meta, i);
      }
    }

    lemma AtTopIs(caps: Capabilities, e: RolloutMachine.Engine)
      requires e.Busy? && e.point.Top?
      ensures forall now :: Decide(caps, e, now) == AtTop(caps, e, now)
    {
    }

    /** Saves why the provider refused, then stops. */
    method KeepFailure(op: Operation, revision: nat, i: nat, error: Error) returns (stop: Option<Failure>)
      requires Stands(Busy(op, revision, SaveFailure)) && !cloud.obliging
      requires i < |op.items| && op.items[i].lastError == Some(error)
      requires Concluded(op.status, error, cloud.w.caps)
      modifies cloud
      ensures cloud.asked == old(cloud.asked)
      ensures cloud.Extends() && Stands(Idle)
      ensures stop == Some(ProviderFailed(error)) || (stop == Some(SaveFailed) && !cloud.steady)
      ensures cloud.Uncalled()
      ensures Told(op, stop, |old(cloud.run)|)
    {
      hide Cloud.Valid, Cloud.Journalled, Decide, Next, Enabled, ValidOperation;
      var noted := cloud.Save(id, op, revision);
      stop := Some(if noted then ProviderFailed(error) else SaveFailed);
    }

    /** Saves that an action cannot be resolved, then stops. */
    method KeepUnresolved(op: Operation, revision: nat) returns (stop: Option<Failure>)
      requires Stands(Busy(op, revision, SaveUnresolved)) && op.status == Reconciliation
      modifies cloud
      ensures cloud.Extends() && Stands(Idle)
      ensures stop == Some(NeedsReconciliation) || (stop == Some(SaveFailed) && !cloud.steady)
      ensures cloud.Uncalled()
      ensures Told(op, stop, |old(cloud.run)|)
    {
      hide Cloud.Valid, Cloud.Journalled, Decide, Next, Enabled, ValidOperation;
      var noted := cloud.Save(id, op, revision);
      stop := Some(if noted then NeedsReconciliation else SaveFailed);
    }

    method KeepCommit(op: Operation, revision: nat, meta: Metadata, i: nat) returns (rev: nat, stop: Option<Failure>)
      requires Stands(Busy(op, revision, SaveCommit(meta, i)))
      modifies cloud
      ensures cloud.Extends()
      ensures cloud.Uncalled()
      ensures stop.None? ==> Stands(Busy(op, rev, Top(meta, i + 1)))
      ensures stop.Some? ==> Stands(Idle) && !cloud.steady && stop == Some(SaveFailed)
    {
      hide Cloud.Valid, Cloud.Journalled, Decide, Next, Enabled, ValidOperation;
      var kept := cloud.Save(id, op, revision);
      rev, stop := revision + 1, if kept then None else Some(SaveFailed);
    }

    method KeepStaged(op: Operation, revision: nat, meta: Metadata) returns (rev: nat, stop: Option<Failure>)
      requires Stands(Busy(op, revision, SaveStaged(meta)))
      modifies cloud
      ensures cloud.Extends()
      ensures cloud.Uncalled()
      ensures stop.None? ==> Stands(Busy(op, rev, Top(meta, 0)))
      ensures stop.Some? ==> Stands(Idle) && !cloud.steady && stop == Some(SaveFailed)
    {
      hide Cloud.Valid, Cloud.Journalled, Decide, Next, Enabled, ValidOperation;
      var kept := cloud.Save(id, op, revision);
      rev, stop := revision + 1, if kept then None else Some(SaveFailed);
    }

    method KeepResolved(op: Operation, revision: nat, meta: Metadata, i: nat) returns (rev: nat, stop: Option<Failure>)
      requires i < |op.items| && Stands(Busy(op, revision, SaveResolved(meta, i)))
      modifies cloud
      ensures cloud.Extends()
      ensures cloud.Uncalled()
      ensures stop.None? ==>
                Stands(Busy(op, rev, if op.items[i].status == Committed then Top(meta, i + 1) else LoadValue(meta, i)))
      ensures stop.Some? ==> Stands(Idle) && !cloud.steady && stop == Some(SaveFailed)
    {
      hide Cloud.Valid, Cloud.Journalled, Decide, Next, Enabled, ValidOperation;
      var kept := cloud.Save(id, op, revision);
      rev, stop := revision + 1, if kept then None else Some(SaveFailed);
    }

    method KeepVerdict(op: Operation, revision: nat, i: nat, limited: bool) returns (rev: nat, stop: Option<Failure>)
      requires Stands(Busy(op, revision, SaveVerdict(i, limited)))
      modifies cloud
      ensures cloud.asked == old(cloud.asked)
      ensures cloud.Extends()
      ensures cloud.Uncalled()
      ensures stop.None? ==> Stands(Busy(op, rev, VerifyTop(i + 1, limited)))
      ensures stop.Some? ==> Stands(Idle) && !cloud.steady && stop == Some(SaveFailed)
    {
      hide Cloud.Valid, Cloud.Journalled, Decide, Next, Enabled, ValidOperation;
      var kept := cloud.Save(id, op, revision);
      rev, stop := revision + 1, if kept then None else Some(SaveFailed);
    }

    /** Loads the value, saves the attempt, makes the call and saves what came of it. */
    method Attempt(operation: Operation, revision: nat, meta: Metadata, i: nat)
      returns (op: Operation, rev: nat, stop: Option<Failure>)
      requires i < |operation.items| && Stands(Busy(operation, revision, LoadValue(meta, i)))
      modifies cloud
      ensures cloud.Extends() && |op.items| == |operation.items|
      ensures stop.None? ==> Stands(Busy(op, rev, Top(meta, i + 1)))
      ensures stop.Some? ==> Stands(Idle) && Expected(stop)
      ensures Told(op, stop, |old(cloud.run)|)
      ensures OthersKept(operation.items, op.items, i)
      ensures stop.None? ==> cloud.Called([Issue(i, operation.items[i].attempts + 1)])
      ensures stop != Some(NeedsReconciliation)
    {
      hide Cloud.Valid, Cloud.Journalled, Decide, Saved, Next, Enabled, ValidOperation, SanitizeError, Evidenced,
           Plausible, Obliges, Concluded;
      op, rev, stop := operation, revision, None;
      var action := op.items[i].action;
      if action.record != "" {
        var found := cloud.LoadRecord(id, action.record, action.expectedRevision);
        if !found { stop := Some(StaleRecord); return; }
      }
      op, rev, stop := SaveAttempt(op, rev, meta, i);
      if stop.Some? { return; }
      var reply := cloud.Write(id, op.items[i].writeKey);
      if reply.None? { stop := Some(Died); return; }
      ghost var from := |cloud.run|;
      op, rev, stop := Conclude(op, rev, meta, i, reply.value);
      ToldSince(op, stop, from, |old(cloud.run)|);
    }

    /** The write-ahead step: the attempt is durable before the provider hears of it. */
    method SaveAttempt(operation: Operation, revision: nat, meta: Metadata, i: nat)
      returns (op: Operation, rev: nat, stop: Option<Failure>)
      requires i < |operation.items| && Stands(Busy(operation, revision, LoadValue(meta, i)))
      modifies cloud
      ensures cloud.Extends() && |op.items| == |operation.items|
      ensures cloud.Uncalled()
      ensures stop.None? ==>
                && Stands(Busy(op, rev, CallWrite(meta, i))) && op.items[i].attempts == operation.items[i].attempts + 1
                && op.items[i].action == operation.items[i].action && cloud.loaded == old(cloud.loaded)
                && Underway(op.items[i])
      ensures stop.Some? ==> Stands(Idle) && !cloud.steady && stop == Some(SaveFailed)
      ensures OthersKept(operation.items, op.items, i)
    {
      hide Cloud.Valid, Cloud.Journalled, Next, Enabled, ValidOperation, Reconcile, MapItems, AtBatchTop, AtTop,
           AtVerifyTop, AtAllWritten, Staged, Answered, VerifiedTo;
      op, rev, stop := operation, revision, None;
      var now := cloud.Now();
      cloud.Decides(id, now);
      op := With(op, i, Attempted(op.items[i], now)).(status := Writing, updatedAt := now);
      var saved := cloud.Save(id, op, rev);
      if !saved { stop := Some(SaveFailed); return; }
      rev := rev + 1;
    }

    /** What the provider answered, saved before the next action. */
    method Conclude(operation: Operation, revision: nat, meta: Metadata, i: nat, reply: WriteReply)
      returns (op: Operation, rev: nat, stop: Option<Failure>)
      requires i < |operation.items| && Stands(Busy(operation, revision, WriteReplied(meta, i, reply)))
      requires cloud.obliging ==> Obliges(reply, false)
      modifies cloud
      ensures cloud.Extends() && |op.items| == |operation.items|
      ensures cloud.Uncalled()
      ensures stop.None? ==> Stands(Busy(op, rev, Top(meta, i + 1)))
      ensures stop.Some? ==> Stands(Idle) && Expected(stop)
      ensures Told(op, stop, |old(cloud.run)|)
      ensures OthersKept(operation.items, op.items, i)
      ensures stop.None? ==> reply.Accepted? && Evidenced(op.items[i], reply.evidence)
      ensures stop == Some(InvalidEvidence) ==> reply.Accepted? && !Plausible(reply.evidence)
      ensures stop.Some? && stop.value.ProviderFailed? ==>
                && reply.Refused? && stop.value.error == SanitizeError("write", reply.error)
                && op.items[i].status == if stop.value.error.retry == Ambiguous then InFlight else Pending
      ensures stop != Some(NeedsReconciliation)
    {
      hide Cloud.Valid, Cloud.Journalled, Decide, Saved, Next, Enabled, ValidOperation, SanitizeError;
      hide Evidenced, Plausible;
      rev := revision;
      match reply
      case Refused(raw) =>
        op, stop := NoteRefusal(operation, revision, meta, i, raw);
      case Accepted(raw) =>
        op, rev, stop := KeepWrite(operation, revision, meta, i, raw);
    }

    method NoteRefusal(operation: Operation, revision: nat, meta: Metadata, i: nat, raw: AdapterError)
      returns (op: Operation, stop: Option<Failure>)
      requires i < |operation.items| && Stands(Busy(operation, revision, WriteReplied(meta, i, Refused(raw))))
      requires !cloud.obliging
      modifies cloud
      ensures cloud.Extends() && OthersKept(operation.items, op.items, i) && cloud.Uncalled()
      ensures Stands(Idle) && Expected(stop) && Told(op, stop, |old(cloud.run)|) && stop.Some?
      ensures stop.value.ProviderFailed? || stop.value.SaveFailed?
      ensures stop.value.ProviderFailed? ==>
                && stop.value.error == SanitizeError("write", raw)
                && op.items[i].status == if stop.value.error.retry == Ambiguous then InFlight else Pending
    {
      hide Cloud.Valid, Cloud.Journalled, Decide, Saved, Next, Enabled, ValidOperation, SanitizeError;
      hide WithRefusal, Concluded;
      var now := cloud.Now();
      RefusalNoted(cloud.w.caps, cloud.w.engines[id], raw, now);
      cloud.Decides(id, now);
      var error := SanitizeError("write", raw);
      op := WithRefusal(operation, i, error, cloud.w.caps, now);
      ghost var from := |cloud.run|;
      stop := KeepFailure(op, revision, i, error);
      ToldSince(op, stop, from, |old(cloud.run)|);
    }

    method KeepWrite(operation: Operation, revision: nat, meta: Metadata, i: nat, raw: WriteEvidence)
      returns (op: Operation, rev: nat, stop: Option<Failure>)
      requires i < |operation.items| && Stands(Busy(operation, revision, WriteReplied(meta, i, Accepted(raw))))
      requires cloud.obliging ==> Obliges(Accepted(raw), false)
      modifies cloud
      ensures cloud.Extends() && OthersKept(operation.items, op.items, i) && cloud.Uncalled()
      ensures stop.None? ==> Stands(Busy(op, rev, Top(meta, i + 1))) && Evidenced(op.items[i], raw)
      ensures stop.Some? ==> Stands(Idle) && Expected(stop)
      ensures stop == Some(InvalidEvidence) ==> !Plausible(raw)
      ensures stop.Some? ==> stop.value.InvalidEvidence? || stop.value.SaveFailed?
    {
      hide Cloud.Valid, Cloud.Journalled, Saved, Next, Enabled, ValidOperation, Reconcile, MapItems, AtBatchTop, AtTop,
           AtLoaded, AtVerifyTop, AtAllWritten, Staged, VerifiedTo, SanitizeError, EvidenceToken, ValidWriteEvidence;
      hide Filled, Committing, Obliges, Plausible, Evidenced;
      op, rev, stop := operation, revision, None;
      var now := cloud.Now();
      cloud.Decides(id, now);
      var evidence := Filled(raw, now);
      EvidenceIsKept(op.items[i], raw, now);
      if !ValidWriteEvidence(evidence) { stop := Some(InvalidEvidence); return; }
      op := With(op, i, Committing(op.items[i], evidence)).(updatedAt := now);
      rev, stop := KeepCommit(op, rev, meta, i);
      KeptOthers(operation.items, op.items, i);
    }

    lemma KeptOthers(before: seq<Item>, after: seq<Item>, i: nat)
      requires i < |before| == |after| && after == before[i := after[i]]
      ensures OthersKept(before, after, i)
    {
    }

    /** One action of the verification loop. */
    method VerifyOne(operation: Operation, revision: nat, i: nat, sofar: bool)
      returns (op: Operation, rev: nat, limited: bool, stop: Option<Failure>)
      requires i < |operation.items| && Stands(Busy(operation, revision, VerifyTop(i, sofar)))
      modifies cloud
      ensures cloud.Extends() && |op.items| == |operation.items|
      ensures cloud.Uncalled()
      ensures stop.None? ==> Stands(Busy(op, rev, VerifyTop(i + 1, limited)))
      ensures stop.Some? ==> Stands(Idle) && Expected(stop)
      ensures Told(op, stop, |old(cloud.run)|)
      ensures OthersKept(operation.items, op.items, i)
      ensures stop.None? ==> cloud.asked == old(cloud.asked) + if Asks(operation.items[i], cloud.w.caps) then [i]
                else []
      ensures stop.None? && operation.items[i].status != Verified && !cloud.w.caps.validate ==>
                && op.items[i].status == Limited && op.items[i].verify.Some?
                && op.items[i].verify.value.presence == Unknown && limited
      ensures stop != Some(NeedsReconciliation)
    {
      hide Cloud.Valid, Cloud.Journalled, Saved, Next, Enabled, ValidOperation, Reconcile, MapItems, AtBatchTop, AtTop,
           AtLoaded, AtAllWritten, Staged, Answered, VerifiedTo;
      op, rev, limited, stop := operation, revision, sofar, None;
      var now := cloud.Now();
      cloud.Decides(id, now);
      if op.items[i].status == Verified { return; }
      if !cloud.w.caps.validate {
        op, limited := With(op, i, WithEvidence(op.items[i], Unsupported(now))).(updatedAt := now), true;
        rev, stop := KeepVerdict(op, rev, i, limited);
      } else {
        var answer := cloud.Verify(id);
        if answer.None? { stop := Some(Died); return; }
        ghost var from := |cloud.run|;
        op, rev, limited, stop := Judge(op, rev, i, limited, answer.value);
        ToldSince(op, stop, from, |old(cloud.run)|);
      }
    }

    method Judge(operation: Operation, revision: nat, i: nat, sofar: bool, answer: VerifyReply)
      returns (op: Operation, rev: nat, limited: bool, stop: Option<Failure>)
      requires i < |operation.items| && Stands(Busy(operation, revision, VerifyReplied(i, sofar, answer)))
      requires cloud.obliging ==> Proves(answer)
      modifies cloud
      ensures cloud.asked == old(cloud.asked)
      ensures cloud.Extends() && |op.items| == |operation.items|
      ensures cloud.Uncalled()
      ensures stop.None? ==> Stands(Busy(op, rev, VerifyTop(i + 1, limited)))
      ensures stop.Some? ==> Stands(Idle) && Expected(stop)
      ensures Told(op, stop, |old(cloud.run)|)
      ensures OthersKept(operation.items, op.items, i)
      ensures stop.None? ==>
                && answer.Evidence? && Witnessed(op.items[i], answer.evidence)
                && limited == (sofar || answer.evidence.result != ProvedVerified)
      ensures stop == Some(InvalidEvidence) ==> answer.Evidence? && !Telling(answer.evidence)
      ensures stop.Some? && stop.value.ProviderFailed? ==>
                answer.Unverified? && stop.value.error == SanitizeError("verify", answer.error)
      ensures stop != Some(NeedsReconciliation)
    {
      hide Cloud.Valid, Cloud.Journalled, Decide, Saved, Next, Enabled, ValidOperation, SanitizeError;
      hide Witnessed, Telling;
      rev, limited := revision, sofar;
      match answer
      case Unverified(raw) =>
        op, stop := NoteUnverified(operation, revision, i, sofar, raw);
      case Evidence(raw) =>
        op, rev, limited, stop := KeepEvidence(operation, revision, i, sofar, raw);
    }

    method NoteUnverified(operation: Operation, revision: nat, i: nat, sofar: bool, raw: AdapterError)
      returns (op: Operation, stop: Option<Failure>)
      requires i < |operation.items| && Stands(Busy(operation, revision, VerifyReplied(i, sofar, Unverified(raw))))
      requires !cloud.obliging
      modifies cloud
      ensures cloud.asked == old(cloud.asked)
      ensures cloud.Extends() && OthersKept(operation.items, op.items, i) && cloud.Uncalled()
      ensures Stands(Idle) && Expected(stop) && Told(op, stop, |old(cloud.run)|) && stop.Some?
      ensures stop.value.ProviderFailed? || stop.value.SaveFailed?
      ensures stop.value.ProviderFailed? ==> stop.value.error == SanitizeError("verify", raw)
    {
      hide Cloud.Valid, Cloud.Journalled, Decide, Saved, Next, Enabled, ValidOperation, SanitizeError;
      hide WithUnverified, Concluded;
      var now := cloud.Now();
      UnverifiedNoted(cloud.w.caps, cloud.w.engines[id], raw, now);
      cloud.Decides(id, now);
      var error := SanitizeError("verify", raw);
      op := WithUnverified(operation, i, error, now);
      ghost var from := |cloud.run|;
      stop := KeepFailure(op, revision, i, error);
      ToldSince(op, stop, from, |old(cloud.run)|);
    }

    method KeepEvidence(operation: Operation, revision: nat, i: nat, sofar: bool, raw: VerifyEvidence)
      returns (op: Operation, rev: nat, limited: bool, stop: Option<Failure>)
      requires i < |operation.items|
                 && Stands(Busy(operation, revision, VerifyReplied(i, sofar, VerifyReply.Evidence(raw))))
      requires cloud.obliging ==> Proves(VerifyReply.Evidence(raw))
      modifies cloud
      ensures cloud.asked == old(cloud.asked)
      ensures cloud.Extends() && OthersKept(operation.items, op.items, i) && cloud.Uncalled()
      ensures stop.None? ==>
                && Stands(Busy(op, rev, VerifyTop(i + 1, limited))) && Witnessed(op.items[i], raw)
                && limited == (sofar || raw.result != ProvedVerified)
      ensures stop.Some? ==> Stands(Idle) && Expected(stop)
      ensures stop == Some(InvalidEvidence) ==> !Telling(raw)
      ensures stop.Some? ==> stop.value.InvalidEvidence? || stop.value.SaveFailed?
    {
      hide Cloud.Valid, Cloud.Journalled, Saved, Next, Enabled, ValidOperation, Reconcile, MapItems, AtBatchTop, AtTop,
           AtLoaded, AtAllWritten, Staged, Answered, SanitizeError, EvidenceToken, ValidVerifyEvidence;
      hide FillStamp, WithEvidence, Proves, Telling, Witnessed;
      op, rev, limited, stop := operation, revision, sofar, None;
      var now := cloud.Now();
      cloud.Decides(id, now);
      var evidence := raw.(verifiedAt := FillStamp(raw.verifiedAt, now));
      VerdictIsKept(op.items[i], raw, now);
      if !ValidVerifyEvidence(evidence) { stop := Some(InvalidEvidence); return; }
      op := With(op, i, WithEvidence(op.items[i], evidence)).(updatedAt := now);
      limited := limited || evidence.result != ProvedVerified;
      rev, stop := KeepVerdict(op, rev, i, limited);
      KeptOthers(operation.items, op.items, i);
    }

    /** The atomic variant: all values are loaded and attempted together, and staged in one call. */
    method AdvanceBatch(operation: Operation, revision: nat, meta: Metadata)
      returns (op: Operation, rev: nat, stop: Option<Failure>)
      requires Stands(Busy(operation, revision, BatchTop(meta)))
      modifies cloud
      ensures cloud.Extends() && |op.items| == |operation.items|
      ensures stop.None? ==> Stands(Busy(op, rev, Top(meta, 0)))
      ensures stop.Some? ==> Stands(Idle) && Expected(stop)
      ensures Told(op, stop, |old(cloud.run)|)
      ensures stop.None? ==> cloud.Called(UnsettledCalls(operation.items, |operation.items|))
      ensures stop != Some(NeedsReconciliation) && (stop.None? ==> AllSettled(op.items))
    {
      hide Cloud.Valid, Cloud.Journalled, Saved, Next, Enabled, ValidOperation, UnsettledCalls;
      op, rev, stop := operation, revision, None;
      var now := cloud.Now();
      if AllSettled(op.items) {
        SettledOwesNothing(op.items, meta, cloud.w.caps, |op.items|);
        cloud.Decides(id, now);
        CalledNothing();
        return;
      }
      InOnePhase();
      if !NoneSettled(op.items) { assert false; }
      hide AllSettled, NoneSettled, Decide;
      var loaded := LoadAll(operation, revision, meta);
      if !loaded { stop := Some(StaleRecord); return; }
      ghost var from := |cloud.run|;
      op, rev, stop := AttemptAll(op, rev, meta);
      ToldSince(op, stop, from, |old(cloud.run)|);
    }

    twostate lemma CalledNothing()
      requires cloud.Uncalled()
      ensures cloud.Called([])
    {
      assert old(cloud.w.issued) + [] == old(cloud.w.issued);
    }

    /** All values of a batch are loaded before anything is attempted. */
    method LoadAll(operation: Operation, revision: nat, meta: Metadata) returns (loaded: bool)
      requires Stands(Busy(operation, revision, BatchTop(meta)))
      modifies cloud
      ensures cloud.Extends() && cloud.Uncalled() && (cloud.steady ==> loaded)
      ensures Stands(if loaded then Busy(operation, revision, BatchTop(meta)) else Idle)
      ensures loaded ==> forall i :: 0 <= i < |operation.items| ==> cloud.AtHand(operation.items[i].action)
    {
      hide Cloud.Valid, Cloud.Journalled, Decide, Saved, Next, Enabled, ValidOperation;
      var i := 0;
      while i < |operation.items|
        invariant cloud.Extends() && i <= |operation.items| && cloud.Uncalled()
        invariant Stands(Busy(operation, revision, BatchTop(meta)))
        invariant forall k :: 0 <= k < i ==> cloud.AtHand(operation.items[k].action)
      {
        var action := operation.items[i].action;
        if action.record != "" {
          loaded := cloud.LoadRecord(id, action.record, action.expectedRevision);
          if !loaded { return; }
        }
        i := i + 1;
      }
      loaded := true;
    }

    lemma InOnePhase()
      requires cloud.Valid() && Standing(cloud.w, id) && cloud.w.engines[id].point.BatchTop?
      ensures AllSettled(cloud.w.engines[id].op.items) || NoneSettled(cloud.w.engines[id].op.items)
    {
      RunKeeps(cloud.run, cloud.steps, |cloud.steps|);
      hide *;
      BatchIsUniform(cloud.w, id);
    }

    method AttemptAll(operation: Operation, revision: nat, meta: Metadata)
      returns (op: Operation, rev: nat, stop: Option<Failure>)
      requires Stands(Busy(operation, revision, BatchTop(meta)))
      requires NoneSettled(operation.items) && !AllSettled(operation.items)
      requires forall i :: 0 <= i < |operation.items| ==> cloud.AtHand(operation.items[i].action)
      modifies cloud
      ensures cloud.Extends() && |op.items| == |operation.items|
      ensures stop.None? ==> Stands(Busy(op, rev, Top(meta, 0)))
      ensures stop.Some? ==> Stands(Idle) && Expected(stop)
      ensures Told(op, stop, |old(cloud.run)|)
      ensures stop.None? ==> cloud.Called(UnsettledCalls(operation.items, |operation.items|))
      ensures stop != Some(NeedsReconciliation) && (stop.None? ==> AllSettled(op.items))
    {
      hide Cloud.Valid, Cloud.Journalled, Decide, Saved, Next, Enabled, ValidOperation, StageIssues, UnsettledCalls;
      hide AllSettled, NoneSettled, Evidenced;
      assert |operation.items| > 0 by { SomeUnsettled(operation.items); }
      op, rev, stop := SaveAttempts(operation, revision, meta);
      if stop.Some? { return; }
      StageOwes(operation.items, op, |operation.items|);
      assert StageIssues(op)[..|operation.items|] == StageIssues(op);
      var reply := cloud.Stage(id);
      if reply.None? { stop := Some(Died); return; }
      ghost var from := |cloud.run|;
      op, rev, stop := ConcludeAll(op, rev, meta, reply.value);
      if stop.None? { AllEvidenced(op.items, reply.value.evidence); }
      ToldSince(op, stop, from, |old(cloud.run)|);
    }

    lemma SomeUnsettled(items: seq<Item>)
      requires !AllSettled(items)
      ensures |items| > 0
    {
    }

    /** The write-ahead step of a batch. */
    method SaveAttempts(operation: Operation, revision: nat, meta: Metadata)
      returns (op: Operation, rev: nat, stop: Option<Failure>)
      requires Stands(Busy(operation, revision, BatchTop(meta)))
      requires NoneSettled(operation.items) && !AllSettled(operation.items)
      modifies cloud
      ensures cloud.Extends() && |op.items| == |operation.items| && cloud.Uncalled()
      ensures stop.None? ==>
                && Stands(Busy(op, rev, CallStage(meta))) && cloud.loaded == old(cloud.loaded)
                && forall i :: 0 <= i < |op.items| ==>
                     && op.items[i].attempts == operation.items[i].attempts + 1
                     && op.items[i].action == operation.items[i].action && Underway(op.items[i])
      ensures stop.Some? ==> Stands(Idle) && !cloud.steady && stop == Some(SaveFailed)
    {
      hide Cloud.Valid, Cloud.Journalled, Next, Enabled, ValidOperation, Reconcile, AtTop, AtLoaded,
           AtVerifyTop, AtAllWritten, Staged, Answered, VerifiedTo;
      op, rev, stop := operation, revision, None;
      var now := cloud.Now();
      cloud.Decides(id, now);
      op := op.(items := MapItems(op.items, item => Attempted(item, now)), status := Writing, updatedAt := now);
      var saved := cloud.Save(id, op, rev);
      if !saved { stop := Some(SaveFailed); return; }
      rev := rev + 1;
    }

    /** One answer settles or refuses all actions together. */
    method ConcludeAll(operation: Operation, revision: nat, meta: Metadata, reply: WriteReply)
      returns (op: Operation, rev: nat, stop: Option<Failure>)
      requires Stands(Busy(operation, revision, StageReplied(meta, reply))) && |operation.items| > 0
      requires cloud.obliging ==> Obliges(reply, true)
      modifies cloud
      ensures cloud.Extends() && |op.items| == |operation.items|
      ensures cloud.Uncalled()
      ensures stop.None? ==> Stands(Busy(op, rev, Top(meta, 0)))
      ensures stop.Some? ==> Stands(Idle) && Expected(stop)
      ensures Told(op, stop, |old(cloud.run)|)
      ensures stop.None? ==>
                && reply.Accepted? && reply.evidence.providerOperation != ""
                && forall i :: 0 <= i < |op.items| ==> Evidenced(op.items[i], reply.evidence)
      ensures stop == Some(InvalidEvidence) ==>
                reply.Accepted? && (reply.evidence.providerOperation == "" || !Plausible(reply.evidence))
      ensures stop.Some? && stop.value.ProviderFailed? ==>
                && reply.Refused? && stop.value.error == SanitizeError("stage", reply.error)
                && forall i :: 0 <= i < |op.items| ==>
                     op.items[i].status ==
                     if stop.value.error.retry == Ambiguous then operation.items[i].status else Pending
      ensures stop != Some(NeedsReconciliation)
    {
      hide Cloud.Valid, Cloud.Journalled, Decide, Saved, Next, Enabled, ValidOperation, SanitizeError;
      hide Evidenced, Plausible;
      rev := revision;
      match reply
      case Refused(raw) =>
        op, stop := NoteStageRefusal(operation, revision, meta, raw);
      case Accepted(raw) =>
        op, rev, stop := KeepStage(operation, revision, meta, raw);
    }

    method NoteStageRefusal(operation: Operation, revision: nat, meta: Metadata, raw: AdapterError)
      returns (op: Operation, stop: Option<Failure>)
      requires Stands(Busy(operation, revision, StageReplied(meta, Refused(raw)))) && |operation.items| > 0
      requires !cloud.obliging
      modifies cloud
      ensures cloud.Extends() && |op.items| == |operation.items| && cloud.Uncalled()
      ensures Stands(Idle) && Expected(stop) && Told(op, stop, |old(cloud.run)|) && stop.Some?
      ensures stop.value.ProviderFailed? || stop.value.SaveFailed?
      ensures stop.value.ProviderFailed? ==>
                && stop.value.error == SanitizeError("stage", raw)
                && forall i :: 0 <= i < |op.items| ==>
                     op.items[i].status ==
                     if stop.value.error.retry == Ambiguous then operation.items[i].status else Pending
    {
      hide Cloud.Valid, Cloud.Journalled, Decide, Saved, Next, Enabled, ValidOperation, SanitizeError;
      hide WithStageRefusal, Concluded;
      var now := cloud.Now();
      StageRefusalNoted(cloud.w.caps, cloud.w.engines[id], raw, now);
      cloud.Decides(id, now);
      var error := SanitizeError("stage", raw);
      op := WithStageRefusal(operation, error, now);
      ghost var from := |cloud.run|;
      stop := KeepFailure(op, revision, 0, error);
      ToldSince(op, stop, from, |old(cloud.run)|);
    }

    method KeepStage(operation: Operation, revision: nat, meta: Metadata, raw: WriteEvidence)
      returns (op: Operation, rev: nat, stop: Option<Failure>)
      requires Stands(Busy(operation, revision, StageReplied(meta, Accepted(raw))))
      requires cloud.obliging ==> Obliges(Accepted(raw), true)
      modifies cloud
      ensures cloud.Extends() && |op.items| == |operation.items| && cloud.Uncalled()
      ensures stop.None? ==>
                && Stands(Busy(op, rev, Top(meta, 0))) && raw.providerOperation != ""
                && forall i :: 0 <= i < |op.items| ==> Evidenced(op.items[i], raw)
      ensures stop.Some? ==> Stands(Idle) && Expected(stop)
      ensures stop == Some(InvalidEvidence) ==> raw.providerOperation == "" || !Plausible(raw)
      ensures stop.Some? ==> stop.value.InvalidEvidence? || stop.value.SaveFailed?
    {
      hide Cloud.Valid, Cloud.Journalled, Saved, Next, Enabled, ValidOperation, Reconcile, AtBatchTop, AtTop,
           AtLoaded, AtVerifyTop, AtAllWritten, Answered, VerifiedTo, SanitizeError, EvidenceToken, ValidWriteEvidence;
      hide Filled, Committing, Obliges, Plausible, Evidenced;
      op, rev, stop := operation, revision, None;
      var now := cloud.Now();
      cloud.Decides(id, now);
      var evidence := Filled(raw, now);
      EvidencesKept(op.items, raw, now);
      if evidence.providerOperation == "" || !ValidWriteEvidence(evidence) { stop := Some(InvalidEvidence); return; }
      op := op.(items := MapItems(op.items, item => Committing(item, evidence)), status := Written, updatedAt := now);
      rev, stop := KeepStaged(op, rev, meta);
    }

    lemma AllEvidenced(items: seq<Item>, e: WriteEvidence)
      requires forall i :: 0 <= i < |items| ==> Evidenced(items[i], e)
      ensures AllSettled(items)
    {
    }

    /** Continues an operation from the journal; a finished one is returned as it is. */
    method Resume() returns (r: Report)
      requires Stands(Idle)
      modifies cloud
      ensures Stands(Idle) && cloud.Extends()
      ensures r.failure.None? ==>
                Finished(r.op.status) && r.op.status != Failed && AllChecked(r.op)
                  && cloud.Journalled(r.op, |old(cloud.run)| - 1)
      ensures cloud.steady && Finished(old(cloud.w.op.status)) ==> cloud.w == old(cloud.w) && r.op == cloud.w.op
      ensures cloud.steady && old(cloud.w.op.status) != Failed ==> Expected(r.failure)
      ensures cloud.steady && old(cloud.w.op.status) == Failed ==>
                if exists k :: 0 <= k < |r.op.items| && r.op.items[k].lastError.Some?
                then exists k :: && 0 <= k < |r.op.items| && r.op.items[k].lastError.Some?
                                 && r.failure == Some(ProviderFailed(r.op.items[k].lastError.value))
                                 && forall j :: 0 <= j < k ==> r.op.items[j].lastError.None?
                else r.failure == Some(NotResumable)
      ensures cloud.steady && cloud.obliging && old(cloud.w.op.status != Failed && Unasking(cloud.w.op)) ==>
                r.failure.None? && (!Finished(old(cloud.w.op.status)) ==>
                  cloud.Called(UnsettledCalls(old(cloud.w.op).items, |old(cloud.w.op).items|)))
    {
      hide Cloud.Valid, Cloud.Journalled, Saved, Next, Enabled, Cloud.Journalled;
      cloud.Interfere(id);
      var op, rev := cloud.w.op, cloud.w.revision;
      HeldNow();
      if op.status == Failed { return Report(op, Some(FirstError(op.items, 0))); }
      if Finished(op.status) {
        FinalIsChecked(op);
        JournalledSince(op, |cloud.run| - 1, |old(cloud.run)| - 1);
        return Report(op, None);
      }
      var refused: bool := *;   // the plan, its snapshot, the identity or the target no longer match
      if refused && !cloud.steady { return Report(op, Some(NotResumable)); }
      CanResume();
      cloud.Take(RolloutMachine.Step.Resume(id));
      ghost var from := |cloud.run|;
      r := Advance(op, rev);
      if r.failure.None? { JournalledSince(r.op, from, |old(cloud.run)| - 1); }
    }

    lemma HeldNow()
      requires cloud.Valid()
      ensures cloud.Journalled(cloud.w.op, |cloud.run| - 1) && ValidOperation(cloud.w.op)
    {
      assert cloud.run[|cloud.run| - 1] == cloud.w;
      RunKeeps(cloud.run, cloud.steps, |cloud.steps|);
      JournalIsValid(cloud.w);
    }

    lemma CanResume()
      requires Stands(Idle) && !Finished(cloud.w.op.status)
      ensures Enabled(cloud.w, RolloutMachine.Step.Resume(id))
      ensures Next(cloud.w, RolloutMachine.Step.Resume(id)) ==
              Move(cloud.w, id, Busy(cloud.w.op, cloud.w.revision, Point.Inspect))
    {
    }

    /** The error a failed operation reports again. */
    static function FirstError(items: seq<Item>, i: nat): (f: Failure)
      requires i <= |items|
      decreases |items| - i
      ensures f.ProviderFailed? ==>
                exists k :: i <= k < |items| && items[k].lastError == Some(f.error) &&
                            forall j :: i <= j < k ==> items[j].lastError.None?
      ensures f.ProviderFailed? <==> exists k :: i <= k < |items| && items[k].lastError.Some?
      ensures f.ProviderFailed? || f.NotResumable?
    {
      if i == |items| then NotResumable
      else if items[i].lastError.Some? then ProviderFailed(items[i].lastError.value)
      else FirstError(items, i + 1)
    }
  }

  lemma StepExtends(run: seq<World>, steps: seq<Step>, s: Step)
    requires IsRun(run, steps) && Enabled(run[|steps|], s)
    ensures IsRun(run + [Next(run[|steps|], s)], steps + [s])
  {
    hide Next, Enabled;
    var longer, all := run + [Next(run[|steps|], s)], steps + [s];
    forall k {:trigger all[k]} | 0 <= k < |all|
      ensures Enabled(longer[k], all[k]) && longer[k + 1] == Next(longer[k], all[k])
    {
      if k < |steps| { assert all[k] == steps[k]; }
    }
  }
}

/**
 * When the journal of an atomic batch tells the truth: a condition on what the adapter answers to
 * its stages, for any number of crashes and resumes of one engine at a time.
 */
module RolloutBatch {
  import opened Basics
  import opened RolloutJournal
  import opened RolloutMachine
  import opened RolloutInvariant
  import opened RolloutAtMostOnce
  import opened RolloutSettled

  /** An answer after which the engine calls every action pending. */
  predicate FinalRefusal(s: Step) {
    s.StageDone? && s.reply.Refused? && SanitizeError("stage", s.reply.error).retry != Ambiguous
  }

  predicate AllClear(w: World) {
    |w.commits| == |w.unsettled| && forall i :: 0 <= i < |w.commits| ==> w.commits[i] == 0 && w.unsettled[i] == 0
  }

  /** A final refusal is only given by a stage that did nothing, when no earlier one has done anything. */
  predicate Forthright(w: World, s: Step) {
    FinalRefusal(s) ==> s.outcome == NotDone && AllClear(w)
  }

  predicate Moves(s: Step, e: nat) { !s.Settle? && s.e == e }

  /** The engine that was refused at `m` saves that at `k`, having done nothing but decide in between. */
  ghost predicate SavedRefusal(run: seq<World>, steps: seq<Step>, m: nat, k: nat, e: nat) {
    && m < k < |steps| && FinalRefusal(steps[m]) && steps[m].e == e && steps[k] == SaveDone(e)
    && forall j {:trigger steps[j]} :: m < j < k && Moves(steps[j], e) ==> steps[j].Decided?
  }

  // ----- From a refusal to its save ------------------------------------------------------------

  predicate AllPending(op: Operation) { forall i :: 0 <= i < |op.items| ==> op.items[i].status == Pending }

  /** Refused and not decided yet, or about to save that everything is pending. */
  predicate Denied(w: World, e: nat, reply: WriteReply) {
    && e in w.engines && w.engines[e].Busy?
    && (|| (w.engines[e].point.StageReplied? && w.engines[e].point.reply == reply)
        || (w.engines[e].point.SaveFailure? && AllPending(w.engines[e].op)))
  }

  lemma RefusedAtOnce(w: World, s: Step)
    requires Enabled(w, s) && FinalRefusal(s)
    ensures Denied(Next(w, s), s.e, s.reply)
  {
    hide SanitizeError;
  }

  lemma DecidesPending(e: Engine, now: Time)
    requires e.Busy? && e.point.StageReplied? && e.point.reply.Refused?
    requires SanitizeError("stage", e.point.reply.error).retry != Ambiguous
    ensures Staged(e, now).Busy? && Staged(e, now).point.SaveFailure? && AllPending(Staged(e, now).op)
  {
    RetryIsKnown(e.point.reply.error);
    hide SanitizeError;
  }

  lemma RetryIsKnown(raw: AdapterError)
    ensures SanitizeError("stage", raw).retry != Unrecognized
  {
    hide SanitizeError;
    assert ValidError(SanitizeError("stage", raw));
  }

  lemma StillRefused(w: World, s: Step, e: nat, reply: WriteReply)
    requires Enabled(w, s) && Denied(w, e, reply) && (Moves(s, e) ==> s.Decided?)
    requires reply.Refused? && SanitizeError("stage", reply.error).retry != Ambiguous
    ensures Denied(Next(w, s), e, reply)
  {
    if Moves(s, e) {
      DecidesPending(w.engines[e], s.now);
      hide Staged, SanitizeError;
    } else {
      OtherStands(w, s, e);
      hide Enabled, Next, SanitizeError;
    }
  }

  lemma OtherStands(w: World, s: Step, e: nat)
    requires Enabled(w, s) && !Moves(s, e) && e in w.engines
    ensures e in Next(w, s).engines && Next(w, s).engines[e] == w.engines[e]
  {
    hide Decide, Saved;
  }

  lemma InBetween(run: seq<World>, steps: seq<Step>, m: nat, k: nat, e: nat)
    requires SavedRefusal(run, steps, m, k, e)
    ensures m < k < |steps| && FinalRefusal(steps[m]) && steps[m].StageDone? && steps[m].e == e
              && steps[k] == SaveDone(e)
    ensures steps[m].reply.Refused? && SanitizeError("stage", steps[m].reply.error).retry != Ambiguous
    ensures forall j {:trigger steps[j]} :: m < j < k && Moves(steps[j], e) ==> steps[j].Decided?
  {
    hide SanitizeError, Moves;
  }

  lemma {:induction false} DeniedUntil(run: seq<World>, steps: seq<Step>, m: nat, k: nat, e: nat, j: nat)
    requires IsRun(run, steps) && |run| == |steps| + 1 && SavedRefusal(run, steps, m, k, e) && m < j <= k
    ensures Denied(run[j], e, steps[m].reply)
    decreases j
  {
    hide *;
    InBetween(run, steps, m, k, e);
    StepOf(run, steps, j - 1);
    if j == m + 1 {
      RefusedAtOnce(run[m], steps[m]);
    } else {
      DeniedUntil(run, steps, m, k, e, j - 1);
      StillRefused(run[j - 1], steps[j - 1], e, steps[m].reply);
    }
  }

  /** What is saved then calls everything pending. */
  lemma SavesPending(run: seq<World>, steps: seq<Step>, m: nat, k: nat, e: nat)
    requires IsRun(run, steps) && SavedRefusal(run, steps, m, k, e)
    ensures Enabled(run[k], SaveDone(e)) && AllPending(run[k].engines[e].op) && run[k + 1].op == run[k].engines[e].op
    ensures run[k + 1].commits == run[k].commits
  {
    InBetween(run, steps, m, k, e);
    DeniedUntil(run, steps, m, k, e, k);
    StepOf(run, steps, k);
    hide Saved, ValidOperation, SavedRefusal;
  }

  // ----- From a save back to its refusal -------------------------------------------------------

  predicate SomePending(op: Operation) { exists i :: 0 <= i < |op.items| && op.items[i].status == Pending }

  /** About to save that something is pending. */
  predicate Denying(w: World, e: nat) {
    e in w.engines && w.engines[e].Busy? && w.engines[e].point.SaveFailure? && SomePending(w.engines[e].op)
  }

  /** Holding a final refusal. */
  predicate HoldsRefusal(w: World, e: nat) {
    && e in w.engines && w.engines[e].Busy? && w.engines[e].point.StageReplied?
    && w.engines[e].point.reply.Refused?
    && SanitizeError("stage", w.engines[e].point.reply.error).retry != Ambiguous
  }

  /** In a batch only refusals are saved with something pending. */
  lemma SavesDenial(w: World, e: nat)
    requires Inv(w) && w.batch && Enabled(w, SaveDone(e)) && SomePending(w.engines[e].op)
    ensures Denying(w, e)
  {
    OneEngineOk(w, e);
    EngineParts(w, w.engines[e]);
    FinalHasNone(w, w.engines[e]);
    hide Inv, EngineOk, Sound, SettledBelow, CheckedBelow, LimitedBelow, ValidOperation;
  }

  lemma FinalHasNone(w: World, e: Engine)
    requires e.Busy? && Sound(e.op, w.plan, w.batch) && PointOk(w.batch, e.op, e.point)
    ensures Terminal(e.op.status) ==> !SomePending(e.op)
  {
    hide ItemOk, WellShaped, PointOk, HeaderOk;
  }

  lemma DenialStep(w: World, s: Step, e: nat)
    requires Inv(w) && w.batch && Enabled(w, s) && Denying(Next(w, s), e)
    ensures (!Moves(s, e) && Denying(w, e)) || (s.Decided? && s.e == e && HoldsRefusal(w, e))
  {
    if !Moves(s, e) {
      SameUnmoved(w, s, e);
      hide Inv, Enabled, Next;
    } else if s.Decided? {
      OneEngineOk(w, e);
      EngineParts(w, w.engines[e]);
      hide Inv, EngineOk, Sound;
      DecidesDenial(w.caps, w.engines[e], s.now, w.batch);
      hide Decide, PointOk;
    } else {
      hide Inv, Decide, ValidOperation;
    }
  }

  lemma SameUnmoved(w: World, s: Step, e: nat)
    requires Enabled(w, s) && !Moves(s, e)
    ensures e in Next(w, s).engines <==> e in w.engines
    ensures e in w.engines ==> Next(w, s).engines[e] == w.engines[e]
  {
    hide Decide, Saved;
  }

  lemma DecidesDenial(caps: Capabilities, e: Engine, now: Time, batch: bool)
    requires batch && e.Busy? && PointOk(batch, e.op, e.point) && Decides(e.point)
    requires Decide(caps, e, now).Busy? && Decide(caps, e, now).point.SaveFailure?
               && SomePending(Decide(caps, e, now).op)
    ensures e.point.StageReplied? && e.point.reply.Refused?
    ensures SanitizeError("stage", e.point.reply.error).retry != Ambiguous
  {
    hide Reconcile, SanitizeError, ValidWriteEvidence, ValidVerifyEvidence, SettledBelow, CheckedBelow, LimitedBelow;
  }

  lemma ToldStep(w: World, s: Step, e: nat)
    requires Enabled(w, s) && HoldsRefusal(Next(w, s), e)
    ensures (!Moves(s, e) && HoldsRefusal(w, e)) || (s.StageDone? && FinalRefusal(s) && s.e == e)
  {
    if !Moves(s, e) {
      SameUnmoved(w, s, e);
      hide Enabled, Next, SanitizeError;
    } else if s.Decided? {
      NeverReplied(w.caps, w.engines[e], s.now);
      hide Decide, SanitizeError;
    } else {
      hide Decide, ValidOperation, SanitizeError;
    }
  }

  lemma NeverReplied(caps: Capabilities, e: Engine, now: Time)
    requires e.Busy? && Decides(e.point)
    ensures Decide(caps, e, now).Busy? ==> !Decide(caps, e, now).point.StageReplied?
  {
    hide Reconcile, SanitizeError, ValidWriteEvidence, ValidVerifyEvidence;
  }

  /** Between `m` and `k` this engine only decides. */
  ghost predicate OnlyDecides(steps: seq<Step>, m: int, k: int, e: nat) {
    forall j {:trigger steps[j]} :: 0 <= j < |steps| && m < j < k && Moves(steps[j], e) ==> steps[j].Decided?
  }

  lemma NoneBetween(steps: seq<Step>, m: int, k: int, e: nat)
    requires k == m + 1
    ensures OnlyDecides(steps, m, k, e)
  {
  }

  lemma OneMoreBetween(steps: seq<Step>, m: int, k: int, e: nat)
    requires OnlyDecides(steps, m, k - 1, e) && 0 < k <= |steps| && (Moves(steps[k - 1], e) ==> steps[k - 1].Decided?)
    ensures OnlyDecides(steps, m, k, e)
  {
    hide Moves;
  }

  lemma StartsQuiet(w: World, e: nat)
    ensures Starts(w) ==> !HoldsRefusal(w, e) && !Denying(w, e)
  {
    hide SanitizeError;
  }

  lemma {:induction false} RefusalBehindTold(run: seq<World>, steps: seq<Step>, k: nat, e: nat) returns (m: nat)
    requires IsRun(run, steps) && |run| == |steps| + 1 && Starts(run[0]) && k < |run| && HoldsRefusal(run[k], e)
    ensures m < k && FinalRefusal(steps[m]) && steps[m].e == e && OnlyDecides(steps, m, k, e)
  {
    hide *;
    StartsQuiet(run[0], e);
    StepOf(run, steps, k - 1);
    ToldStep(run[k - 1], steps[k - 1], e);
    if steps[k - 1].StageDone? && FinalRefusal(steps[k - 1]) && steps[k - 1].e == e {
      m := k - 1;
      NoneBetween(steps, m, k, e);
    } else {
      m := RefusalBehindTold(run, steps, k - 1, e);
      OneMoreBetween(steps, m, k, e);
    }
  }

  lemma {:induction false} RefusalBehindDenial(run: seq<World>, steps: seq<Step>, k: nat, e: nat) returns (m: nat)
    requires IsRun(run, steps) && |run| == |steps| + 1 && Starts(run[0]) && k < |run| && Denying(run[k], e)
    requires forall j :: 0 <= j < |run| ==> Inv(run[j]) && run[j].batch
    ensures m < k && FinalRefusal(steps[m]) && steps[m].e == e && OnlyDecides(steps, m, k, e)
  {
    hide *;
    StartsQuiet(run[0], e);
    StepOf(run, steps, k - 1);
    DenialStep(run[k - 1], steps[k - 1], e);
    if Denying(run[k - 1], e) && !Moves(steps[k - 1], e) {
      m := RefusalBehindDenial(run, steps, k - 1, e);
    } else {
      m := RefusalBehindTold(run, steps, k - 1, e);
    }
    OneMoreBetween(steps, m, k, e);
  }

  // ----- The provider in between ---------------------------------------------------------------

  /** While one engine is busy deciding, nobody calls: only writes on their way may still settle. */
  lemma QuietStep(w: World, s: Step, e: nat)
    requires Enabled(w, s) && OneBusy(w) && e in w.engines && w.engines[e].Busy? && (Moves(s, e) ==> s.Decided?)
    ensures |Next(w, s).commits| == |w.commits|
    ensures forall i :: 0 <= i < |w.commits| ==> Next(w, s).commits[i] >= w.commits[i]
    ensures AllClear(w) ==> AllClear(Next(w, s))
  {
    hide Decide, Saved, ValidOperation;
  }

  lemma {:induction false} QuietUntil(run: seq<World>, steps: seq<Step>, m: nat, k: nat, e: nat, j: nat)
    requires IsRun(run, steps) && |run| == |steps| + 1 && Starts(run[0]) && run[0].batch && OneBusy(run[0])
    requires forall n {:trigger steps[n]} :: 0 <= n < |steps| ==> OneAtATime(run[n], steps[n])
    requires SavedRefusal(run, steps, m, k, e) && m < j <= k < |steps|
    ensures |run[j].commits| == |run[m + 1].commits|
    ensures forall i :: 0 <= i < |run[j].commits| ==> run[j].commits[i] >= run[m + 1].commits[i]
    ensures AllClear(run[m + 1]) ==> AllClear(run[j])
    decreases j
  {
    hide *;
    if j > m + 1 {
      QuietUntil(run, steps, m, k, e, j - 1);
      InBetween(run, steps, m, k, e);
      DeniedUntil(run, steps, m, k, e, j - 1);
      BatchStays(run, steps, j - 1);
      StepOf(run, steps, j - 1);
      DeniedIsBusy(run[j - 1], e, steps[m].reply);
      CurrentIsOne(run[j - 1]);
      QuietStep(run[j - 1], steps[j - 1], e);
    }
  }

  lemma DeniedIsBusy(w: World, e: nat, reply: WriteReply)
    requires Denied(w, e, reply)
    ensures e in w.engines && w.engines[e].Busy?
  {
  }

  lemma CurrentIsOne(w: World)
    requires Current(w)
    ensures OneBusy(w)
  {
  }

  lemma NothingDone(w: World, s: Step)
    requires Enabled(w, s) && FinalRefusal(s) && Forthright(w, s)
    ensures AllClear(Next(w, s))
  {
    hide SanitizeError;
  }

  lemma SomethingDone(w: World, s: Step, i: nat)
    requires Enabled(w, s) && FinalRefusal(s) && s.outcome == Done && i < |w.commits|
    ensures i < |Next(w, s).commits| && Next(w, s).commits[i] > 0
  {
    hide SanitizeError;
  }

  // ----- Results -------------------------------------------------------------------------------

  /** Every final refusal that was saved by then was forthright. */
  ghost predicate RefusedHonestly(run: seq<World>, steps: seq<Step>, k: nat)
    requires |run| == |steps| + 1
  {
    forall m: nat, l: nat, e: nat :: SavedRefusal(run, steps, m, l, e) && l < k ==> Forthright(run[m], steps[m])
  }

  /** Forthright refusals are recorded truly. */
  lemma HonestIsRecorded(run: seq<World>, steps: seq<Step>, k: nat, l: nat)
    requires IsRun(run, steps) && |run| == |steps| + 1 && Starts(run[0]) && run[0].batch && OneBusy(run[0])
    requires forall n {:trigger steps[n]} :: 0 <= n < |steps| ==> OneAtATime(run[n], steps[n])
    requires RefusedHonestly(run, steps, k) && l < k <= |steps| && Enabled(run[l], steps[l])
    ensures RecordsTruth(run[l], steps[l])
  {
    BatchStays(run, steps, l);
    if steps[l].SaveDone? { OneEngineSizes(run[l], steps[l]); }
    if steps[l].SaveDone? && SomePending(run[l].engines[steps[l].e].op) {
      var e := steps[l].e;
      SavesDenial(run[l], e);
      forall j | 0 <= j < |run| ensures Inv(run[j]) && run[j].batch { BatchStays(run, steps, j); }
      hide *;
      var m := RefusalBehindDenial(run, steps, l, e);
      IsSavedRefusal(run, steps, m, l, e);
      HonestOne(run, steps, k, m, l, e);
      StepOf(run, steps, m);
      NothingDone(run[m], steps[m]);
      QuietUntil(run, steps, m, l, e, l);
      ClearIsTrue(run[l], run[l].engines[e].op, steps[l]);
    } else {
      hide Inv, Current, Enabled;
    }
  }

  lemma HonestOne(run: seq<World>, steps: seq<Step>, k: nat, m: nat, l: nat, e: nat)
    requires |run| == |steps| + 1 && RefusedHonestly(run, steps, k) && SavedRefusal(run, steps, m, l, e) && l < k
    ensures m < |run| && Forthright(run[m], steps[m])
  {
    InBetween(run, steps, m, l, e);
    hide SavedRefusal, Forthright;
  }

  lemma IsSavedRefusal(run: seq<World>, steps: seq<Step>, m: nat, k: nat, e: nat)
    requires m < k < |steps| && steps[m].StageDone? && FinalRefusal(steps[m]) && steps[m].e == e
               && steps[k] == SaveDone(e)
    requires OnlyDecides(steps, m, k, e)
    ensures SavedRefusal(run, steps, m, k, e)
  {
    hide FinalRefusal, Moves;
  }

  lemma OneEngineSizes(w: World, s: Step)
    requires Inv(w) && Enabled(w, s) && s.SaveDone?
    ensures |w.engines[s.e].op.items| == |w.commits| == |w.unsettled|
  {
    OneEngineOk(w, s.e);
    EngineParts(w, w.engines[s.e]);
    SizesAgree(w);
    assert |w.plan.actions| == |w.commits|;
    hide Inv, EngineOk, PointOk;
  }

  lemma ClearIsTrue(w: World, op: Operation, s: Step)
    requires AllClear(w) && |op.items| == |w.commits| && Enabled(w, s) && s.SaveDone? && w.engines[s.e].op == op
    ensures RecordsTruth(w, s)
  {
    hide Enabled;
    forall i | 0 <= i < |op.items| && op.items[i].status == Pending ensures Clear(w, i) {}
  }

  /**
   * With one engine at a time, the journal of a batch never calls anything pending that has reached
   * the provider, as long as each final refusal that is saved was forthright. How often engines
   * crash, and what is lost, does not matter.
   */
  lemma HonestRefusalsSuffice(run: seq<World>, steps: seq<Step>, k: nat)
    requires IsRun(run, steps) && |run| == |steps| + 1 && Starts(run[0]) && run[0].batch && OneBusy(run[0]) && k < |run|
    requires forall n {:trigger steps[n]} :: 0 <= n < |steps| ==> OneAtATime(run[n], steps[n])
    requires RefusedHonestly(run, steps, k)
    ensures TrueUpTo(run, k)
  {
    BatchPendingExactly(run, steps, k);
    forall l {:trigger steps[l]} | 0 <= l < k ensures Enabled(run[l], steps[l]) && RecordsTruth(run[l], steps[l]) {
      StepOf(run, steps, l);
      HonestIsRecorded(run, steps, k, l);
    }
    hide IsRun, RefusedHonestly, TrueUpTo;
  }

  /** What is committed when a final refusal arrives makes the journal false once it is saved. */
  lemma CommitBehindRefusal(run: seq<World>, steps: seq<Step>, m: nat, k: nat, e: nat, i: nat)
    requires IsRun(run, steps) && |run| == |steps| + 1 && Starts(run[0]) && run[0].batch && OneBusy(run[0])
    requires forall n {:trigger steps[n]} :: 0 <= n < |steps| ==> OneAtATime(run[n], steps[n])
    requires SavedRefusal(run, steps, m, k, e) && k < |steps| && m < k
    requires i < |run[m + 1].commits| && run[m + 1].commits[i] > 0
    ensures !PendingTrue(run[k + 1], run[k + 1].op)
  {
    hide *;
    QuietUntil(run, steps, m, k, e, k);
    SavesPending(run, steps, m, k, e);
    BatchStays(run, steps, k + 1);
    SizesAgree(run[k + 1]);
    PendingLies(run[k + 1], i);
  }

  lemma PendingLies(w: World, i: nat)
    requires i < |w.op.items| == |w.commits| && AllPending(w.op) && w.commits[i] > 0
    ensures !PendingTrue(w, w.op)
  {
    assert w.op.items[i].status == Pending;
  }

  /**
   * A final refusal given by a stage that committed, or after an earlier one did, makes the journal
   * false once it is saved.
   */
  lemma RefusedCommitLies(run: seq<World>, steps: seq<Step>, m: nat, k: nat, e: nat, i: nat)
    requires IsRun(run, steps) && |run| == |steps| + 1 && Starts(run[0]) && run[0].batch && OneBusy(run[0])
    requires forall n {:trigger steps[n]} :: 0 <= n < |steps| ==> OneAtATime(run[n], steps[n])
    requires SavedRefusal(run, steps, m, k, e) && m < k < |steps| && steps[m].StageDone?
    requires i < |run[m].commits| && (steps[m].outcome == Done || run[m].commits[i] > 0)
    ensures !PendingTrue(run[k + 1], run[k + 1].op)
  {
    hide *;
    InBetween(run, steps, m, k, e);
    StepOf(run, steps, m);
    if steps[m].outcome == Done { SomethingDone(run[m], steps[m], i); } else { CommitsStay(run[m], steps[m], i); }
    CommitBehindRefusal(run, steps, m, k, e, i);
  }

  lemma CommitsStay(w: World, s: Step, i: nat)
    requires Enabled(w, s) && s.StageDone? && i < |w.commits|
    ensures i < |Next(w, s).commits| && Next(w, s).commits[i] >= w.commits[i]
  {
  }

  /** No stage leaves anything to settle later. */
  predicate Prompted(s: Step) { s.StageDone? || s.StageLost? ==> s.outcome != Lingering }

  predicate NothingUnsettled(w: World) { forall i :: 0 <= i < |w.unsettled| ==> w.unsettled[i] == 0 }

  lemma {:induction false} StaysPrompt(run: seq<World>, steps: seq<Step>, k: nat)
    requires IsRun(run, steps) && |run| == |steps| + 1 && Starts(run[0]) && run[0].batch && OneBusy(run[0]) && k < |run|
    requires forall n {:trigger steps[n]} :: 0 <= n < |steps| ==> OneAtATime(run[n], steps[n]) && Prompted(steps[n])
    ensures NothingUnsettled(run[k])
  {
    if k > 0 {
      StaysPrompt(run, steps, k - 1);
      BatchStays(run, steps, k - 1);
      StepOf(run, steps, k - 1);
      assert Prompted(steps[k - 1]);
      hide IsRun, Current;
      PromptStep(run[k - 1], steps[k - 1]);
    }
  }

  lemma PromptStep(w: World, s: Step)
    requires Inv(w) && w.batch && Enabled(w, s) && NothingUnsettled(w) && Prompted(s)
    ensures NothingUnsettled(Next(w, s))
  {
    if s.WriteDone? || s.WriteLost? {
      OneEngineOk(w, s.e);
      EngineParts(w, w.engines[s.e]);
    }
    hide Inv, EngineOk, Sound, Decide, Saved, ValidOperation;
  }

  /**
   * When stages are settled by the time they answer, the journal of a batch tells the truth up to
   * `k` exactly if every final refusal saved by then was forthright.
   */
  lemma BatchTruthExactly(run: seq<World>, steps: seq<Step>, k: nat)
    requires IsRun(run, steps) && |run| == |steps| + 1 && Starts(run[0]) && run[0].batch && OneBusy(run[0]) && k < |run|
    requires forall n {:trigger steps[n]} :: 0 <= n < |steps| ==> OneAtATime(run[n], steps[n]) && Prompted(steps[n])
    ensures TrueUpTo(run, k) <==> RefusedHonestly(run, steps, k)
  {
    assert forall n {:trigger steps[n]} :: 0 <= n < |steps| ==> OneAtATime(run[n], steps[n]);
    if RefusedHonestly(run, steps, k) {
      HonestRefusalsSuffice(run, steps, k);
    }
    if TrueUpTo(run, k) {
      forall m: nat, l: nat, e: nat | SavedRefusal(run, steps, m, l, e) && l < k ensures Forthright(run[m], steps[m]) {
        TrueMeansHonest(run, steps, k, m, l, e);
      }
    }
  }

  lemma TrueMeansHonest(run: seq<World>, steps: seq<Step>, k: nat, m: nat, l: nat, e: nat)
    requires IsRun(run, steps) && |run| == |steps| + 1 && Starts(run[0]) && run[0].batch && OneBusy(run[0]) && k < |run|
    requires forall n {:trigger steps[n]} :: 0 <= n < |steps| ==> OneAtATime(run[n], steps[n]) && Prompted(steps[n])
    requires TrueUpTo(run, k) && SavedRefusal(run, steps, m, l, e) && m < l < k
    ensures Forthright(run[m], steps[m])
  {
    assert forall n {:trigger steps[n]} :: 0 <= n < |steps| ==> OneAtATime(run[n], steps[n]);
    assert Prompted(steps[m]);
    assert PendingTrue(run[l + 1], run[l + 1].op) by { hide PendingTrue; }
    InBetween(run, steps, m, l, e);
    StepOf(run, steps, m);
    StaysPrompt(run, steps, m);
    BatchStays(run, steps, m);
    SizesAgree(run[m]);
    HasActions(run[m]);
    var after := run[m + 1];
    if i :| 0 <= i < |after.commits| && after.commits[i] > 0 {
      CommitBehindRefusal(run, steps, m, l, e, i);
    } else {
      hide *;
      UncommittedIsForthright(run[m], steps[m]);
    }
  }

  lemma HasActions(w: World)
    requires Inv(w)
    ensures |w.commits| > 0
  {
    hide PermitsOk, IssuedOk, EngineOk, Sound;
  }

  /** What is settled, answered with a refusal and left nothing committed did nothing at all. */
  lemma UncommittedIsForthright(w: World, s: Step)
    requires Enabled(w, s) && FinalRefusal(s) && Prompted(s) && NothingUnsettled(w)
    requires |w.commits| == |w.unsettled| && |w.commits| > 0
    requires forall i :: 0 <= i < |Next(w, s).commits| ==> Next(w, s).commits[i] == 0
    ensures Forthright(w, s)
  {
    hide SanitizeError;
    assert Next(w, s).commits == ProvidedAll(w, s.outcome).commits;
    if s.outcome == Done { SomethingDone(w, s, 0); }
  }
}

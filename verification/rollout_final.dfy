/** A finished operation is never changed again, by any engine in any run. */
module RolloutFinal {
  import opened Basics
  import opened RolloutJournal
  import opened RolloutMachine
  import opened RolloutInvariant

  predicate Over(s: Status) { s == ReadyToDeploy || s == LimitedEvidence || s == Failed }

  /** Only an engine about to save its last word holds a finished operation. */
  predicate LastWord(e: Engine) {
    e.Busy? && Over(e.op.status) ==> e.point.SaveFailure? || e.point.SaveFinal?
  }

  /** Nobody who works on a finished operation can save any more. */
  ghost predicate Rests(w: World) {
    && (forall e :: e in w.engines ==> LastWord(w.engines[e]))
    && (Over(w.op.status) ==> forall e :: e in w.engines && w.engines[e].Busy? ==> w.engines[e].revision < w.revision)
  }

  lemma DecidesLastWord(caps: Capabilities, e: Engine, now: Time)
    requires e.Busy? && Decides(e.point) && !Over(e.op.status)
    ensures LastWord(Decide(caps, e, now))
    ensures Decide(caps, e, now).Busy? ==> Decide(caps, e, now).revision == e.revision
  {
    hide SanitizeError, ValidWriteEvidence, ValidVerifyEvidence;
  }

  lemma SavedLastWord(e: Engine)
    requires e.Busy? && !AsSaved(e.point) && LastWord(e)
    ensures LastWord(Saved(e)) && (Over(e.op.status) ==> Saved(e) == Idle)
  {
  }

  /** What the engine of a step becomes. */
  lemma MoverRests(w: World, s: Step)
    requires Rests(w) && Enabled(w, s) && !s.Settle? && !s.SaveDone?
    ensures var w' := Next(w, s);
            && w'.op == w.op && w'.revision == w.revision && s.e in w'.engines && LastWord(w'.engines[s.e])
            && w'.engines == w.engines[s.e := w'.engines[s.e]]
            && (w'.engines[s.e].Busy? && !s.Resume? ==>
                  w.engines[s.e].Busy? && w'.engines[s.e].revision == w.engines[s.e].revision)
            && (s.Resume? ==> !Over(w.op.status))
  {
    if s.Decided? { DecidesLastWord(w.caps, w.engines[s.e], s.now); }
    hide Decide;
  }

  lemma SaveRests(w: World, e: nat)
    requires Inv(w) && Rests(w) && Enabled(w, SaveDone(e))
    ensures Rests(Next(w, SaveDone(e))) && !Over(w.op.status)
  {
    SavedLastWord(w.engines[e]);
    assert forall f :: f in w.engines && w.engines[f].Busy? ==> w.engines[f].revision <= w.revision by {
      hide Sound, PointOk, Follows;
    }
    hide Inv, Saved, ValidOperation, LastWord;
    var w' := Next(w, SaveDone(e));
    assert forall f :: f in w'.engines && f != e ==> f in w.engines && w'.engines[f] == w.engines[f];
  }

  lemma StepRests(w: World, s: Step)
    requires Inv(w) && Rests(w) && Enabled(w, s)
    ensures Rests(Next(w, s))
    ensures Over(w.op.status) ==> Next(w, s).op == w.op && Next(w, s).revision == w.revision
  {
    if s.SaveDone? {
      SaveRests(w, s.e);
    } else if s.Settle? {
      hide Inv, LastWord;
    } else {
      hide Inv, LastWord, Over;
      MoverRests(w, s);
      hide Enabled, Next;
      var w' := Next(w, s);
      assert forall f :: f in w'.engines && f != s.e ==> f in w.engines && w'.engines[f] == w.engines[f];
    }
  }

  lemma StepAt(run: seq<World>, steps: seq<Step>, k: nat)
    requires IsRun(run, steps) && k < |steps|
    ensures |run| == |steps| + 1 && Enabled(run[k], steps[k]) && run[k + 1] == Next(run[k], steps[k])
  {
    hide Enabled, Next;
  }

  lemma StartsAtRest(w: World)
    requires Starts(w)
    ensures Rests(w)
  {
  }

  lemma {:induction false} RunRests(run: seq<World>, steps: seq<Step>, k: nat)
    requires IsRun(run, steps) && |run| == |steps| + 1 && Starts(run[0]) && k < |run|
    ensures Rests(run[k])
  {
    hide *;
    if k == 0 {
      StartsAtRest(run[0]);
    } else {
      RunRests(run, steps, k - 1);
      RunKeeps(run, steps, k - 1);
      StepAt(run, steps, k - 1);
      StepRests(run[k - 1], steps[k - 1]);
    }
  }

  /** Once ready, limited or failed, the journal stays as it is for the rest of the run. */
  lemma {:induction false} FinishedForever(run: seq<World>, steps: seq<Step>, i: nat, j: nat)
    requires IsRun(run, steps) && |run| == |steps| + 1 && Starts(run[0]) && i <= j < |run|
    requires run[i].op.status == ReadyToDeploy || run[i].op.status == LimitedEvidence || run[i].op.status == Failed
    ensures run[j].op == run[i].op && run[j].revision == run[i].revision
    decreases j
  {
    hide *;
    if i < j {
      FinishedForever(run, steps, i, j - 1);
      RunRests(run, steps, j - 1);
      RunKeeps(run, steps, j - 1);
      StepAt(run, steps, j - 1);
      assert Over(run[j - 1].op.status) by { IsOver(run[j - 1].op.status); }
      StepRests(run[j - 1], steps[j - 1]);
    }
  }

  lemma IsOver(s: Status)
    requires s == ReadyToDeploy || s == LimitedEvidence || s == Failed
    ensures Over(s)
  {
  }

  // ----- When a change was made ----------------------------------------------------------------

  predicate ToBeSaved(w: World, e: nat) { e in w.engines && w.engines[e].Busy? && !AsSaved(w.engines[e].point) }

  /** The time that was given, or else that of the decision. */
  function At(stamp: Stamp, now: Time): Stamp { if stamp.Clocked? then stamp else Clocked(now) }

  /** A decision at `e` adds nothing to an item but what was answered, and its own time. */
  predicate Dated(e: Engine, was: Item, item: Item, now: Time)
    requires e.Busy?
  {
    && item.action == was.action && item.writeKey == was.writeKey
    && (if item.attempts == was.attempts then item.lastAttemptAt == was.lastAttemptAt
        else item.attempts == was.attempts + 1 && item.lastAttemptAt == Some(now))
    && (item.write != was.write ==>
          match e.point
          case WriteReplied(_, _, Accepted(raw)) =>
            item.write == Some(WriteEvidence(raw.providerOperation, At(raw.committedAt, now)))
          case StageReplied(_, Accepted(raw)) =>
            item.write == Some(WriteEvidence(raw.providerOperation, At(raw.committedAt, now)))
          case _ => item.write.Some? && item.write.value.committedAt == Clocked(now))
    && (item.verify != was.verify ==>
          match e.point
          case VerifyReplied(_, _, Evidence(raw)) =>
            item.verify == Some(VerifyEvidence(raw.result, raw.presence, At(raw.verifiedAt, now)))
          case _ => item.verify == Some(VerifyEvidence(ProvedLimited, Unknown, Clocked(now))))
  }

  predicate AllDated(e: Engine, after: Engine, now: Time)
    requires e.Busy? && after.Busy?
  {
    && |after.op.items| == |e.op.items|
    && forall i :: 0 <= i < |e.op.items| ==> Dated(e, e.op.items[i], after.op.items[i], now)
  }

  lemma DecidedIsDated(caps: Capabilities, e: Engine, now: Time)
    requires e.Busy? && Decides(e.point)
    ensures Decide(caps, e, now).Busy? ==> AllDated(e, Decide(caps, e, now), now)
  {
    hide SanitizeError;
  }

  lemma DecidedIsStamped(caps: Capabilities, e: Engine, now: Time)
    requires e.Busy? && Decides(e.point)
    ensures Decide(caps, e, now).Busy? && !AsSaved(Decide(caps, e, now).point) ==>
              Decide(caps, e, now).op.updatedAt == now
  {
    hide SanitizeError, ValidWriteEvidence, ValidVerifyEvidence;
  }

  /** The step is a decision of this engine, and what it changes is dated. */
  predicate Stamped(w: World, s: Step, after: World, e: nat) {
    && s.Decided? && s.e == e && e in w.engines && w.engines[e].Busy? && e in after.engines && after.engines[e].Busy?
    && after.engines[e].op.updatedAt == s.now && AllDated(w.engines[e], after.engines[e], s.now)
  }

  lemma StampStep(w: World, s: Step, e: nat)
    requires Enabled(w, s) && ToBeSaved(Next(w, s), e)
    ensures || Stamped(w, s, Next(w, s), e)
            || (ToBeSaved(w, e) && Next(w, s).engines[e] == w.engines[e])
  {
    if s.Decided? && s.e == e {
      DecidedIsStamped(w.caps, w.engines[e], s.now);
      DecidedIsDated(w.caps, w.engines[e], s.now);
    }
    hide Decide, AllDated;
  }

  /** Whatever is saved carries the clock reading of the decision that made it, in every part that is new. */
  lemma {:induction false} SavesAreStamped(run: seq<World>, steps: seq<Step>, k: nat, e: nat) returns (j: nat)
    requires IsRun(run, steps) && |run| == |steps| + 1 && Starts(run[0]) && k < |run| && ToBeSaved(run[k], e)
    ensures j < k && steps[j].Decided? && steps[j].e == e && run[k].engines[e].op.updatedAt == steps[j].now
    ensures run[k].engines[e] == run[j + 1].engines[e] && e in run[j].engines && run[j].engines[e].Busy?
    ensures AllDated(run[j].engines[e], run[k].engines[e], steps[j].now)
  {
    hide *;
    assert e in run[k].engines && run[k].engines[e].Busy? by { IsToBeSaved(run[k], e); }
    NothingToSave(run[0], e);
    StepAt(run, steps, k - 1);
    StampStep(run[k - 1], steps[k - 1], e);
    if Stamped(run[k - 1], steps[k - 1], run[k], e) {
      IsStamped(run[k - 1], steps[k - 1], run[k], e);
      j := k - 1;
    } else {
      j := SavesAreStamped(run, steps, k - 1, e);
    }
  }

  lemma IsStamped(w: World, s: Step, after: World, e: nat)
    requires Stamped(w, s, after, e)
    ensures s.Decided? && s.e == e && e in w.engines && w.engines[e].Busy? && e in after.engines
              && after.engines[e].Busy?
    ensures after.engines[e].op.updatedAt == s.now && AllDated(w.engines[e], after.engines[e], s.now)
  {
    hide AllDated;
  }

  lemma IsToBeSaved(w: World, e: nat)
    requires ToBeSaved(w, e)
    ensures e in w.engines && w.engines[e].Busy?
  {
  }

  lemma NothingToSave(w: World, e: nat)
    requires Starts(w)
    ensures !ToBeSaved(w, e)
  {
  }
}

/**
 * What a settled action says about the provider, for every kind of adapter and however engines
 * interleave, and what a pending action of an atomic batch says.
 */
module RolloutSettled {
  import opened Basics
  import opened RolloutJournal
  import opened RolloutMachine
  import opened RolloutInvariant
  import opened RolloutAtMostOnce

  // ----- A settled action was committed --------------------------------------------------------

  /** Metadata attests the write key of an action. */
  predicate Attests(w: World, meta: Metadata, i: nat)
    requires i < |w.plan.actions|
  {
    Look(meta, w.plan.actions[i]).lastWriteKey == Some(OfWrite(w.op.id, w.plan.actions[i].id))
  }

  /** Only written keys are attested. */
  predicate Believes(w: World, meta: Metadata) {
    |w.commits| == |w.plan.actions| && forall i :: 0 <= i < |w.commits| && Attests(w, meta, i) ==> w.commits[i] > 0
  }

  /** What is accepted is committed at once, and only written keys are attested. */
  predicate Prompt(w: World, s: Step) {
    match s
    case Inspected(_, meta) => Believes(w, meta)
    case WriteDone(_, reply, outcome) => reply.Accepted? ==> outcome == Done
    case StageDone(_, reply, outcome) => reply.Accepted? ==> outcome == Done
    case _ => true
  }

  predicate ItemBacked(w: World, item: Item, i: nat)
    requires i < |w.commits|
  {
    SettledStatus(item.status) && item.action.verb != Revoke ==> w.commits[i] > 0
  }

  predicate Backed(w: World, op: Operation) {
    |op.items| == |w.commits| && forall i :: 0 <= i < |op.items| ==> ItemBacked(w, op.items[i], i)
  }

  function MetaOf(p: Point): Option<Metadata> {
    match p
    case BatchTop(meta) => Some(meta)
    case SaveBatchAttempt(meta) => Some(meta)
    case CallStage(meta) => Some(meta)
    case StageReplied(meta, _) => Some(meta)
    case SaveStaged(meta) => Some(meta)
    case Top(meta, _) => Some(meta)
    case SaveResolved(meta, _) => Some(meta)
    case LoadValue(meta, _) => Some(meta)
    case SaveAttempt(meta, _) => Some(meta)
    case CallWrite(meta, _) => Some(meta)
    case WriteReplied(meta, _, _) => Some(meta)
    case SaveCommit(meta, _) => Some(meta)
    case _ => None
  }

  /** What an engine was told and has not saved yet. */
  predicate Told(w: World, p: Point) {
    && (MetaOf(p).Some? ==> Believes(w, MetaOf(p).value))
    && (p.WriteReplied? && p.reply.Accepted? && p.i < |w.commits| ==> w.commits[p.i] > 0)
    && (p.StageReplied? && p.reply.Accepted? ==> forall i :: 0 <= i < |w.commits| ==> w.commits[i] > 0)
  }

  predicate EngineBacked(w: World, e: Engine) { e.Busy? ==> Backed(w, e.op) && Told(w, e.point) }

  ghost predicate AllBacked(w: World) {
    Inv(w) && Backed(w, w.op) && forall e :: e in w.engines ==> EngineBacked(w, w.engines[e])
  }

  /** The provider only ever commits more. */
  predicate More(w: World, w': World) {
    && |w'.commits| == |w.commits| && w'.plan == w.plan && w'.op.id == w.op.id
    && forall i :: 0 <= i < |w.commits| ==> w'.commits[i] >= w.commits[i]
  }

  lemma StillBacked(w: World, w': World, e: Engine)
    requires More(w, w')
    ensures Backed(w, w.op) && w'.op == w.op ==> Backed(w', w'.op)
    ensures EngineBacked(w, e) ==> EngineBacked(w', e)
    ensures e.Busy? && Backed(w, e.op) ==> Backed(w', e.op)
  {
    if Backed(w, w.op) && w'.op == w.op { BackedMore(w, w', w.op); }
    if e.Busy? && Backed(w, e.op) { BackedMore(w, w', e.op); }
    if e.Busy? && MetaOf(e.point).Some? && Believes(w, MetaOf(e.point).value) {
      forall i | 0 <= i < |w'.commits| && Attests(w', MetaOf(e.point).value, i) ensures w'.commits[i] > 0 {
        assert Attests(w, MetaOf(e.point).value, i);
      }
    }
  }

  lemma BackedMore(w: World, w': World, op: Operation)
    requires More(w, w') && Backed(w, op)
    ensures Backed(w', op)
  {
    forall i | 0 <= i < |op.items| ensures ItemBacked(w', op.items[i], i) { assert ItemBacked(w, op.items[i], i); }
  }

  lemma SetBacked(w: World, op: Operation, to: Operation, i: nat)
    requires Backed(w, op) && i < |op.items| && |to.items| == |op.items| && ItemBacked(w, to.items[i], i)
    requires forall j :: 0 <= j < |op.items| && j != i ==> to.items[j] == op.items[j]
    ensures Backed(w, to)
  {
  }

  lemma SameItems(w: World, op: Operation, to: Operation)
    requires Backed(w, op) && to.items == op.items
    ensures Backed(w, to)
  {
    forall i | 0 <= i < |to.items| ensures ItemBacked(w, to.items[i], i) { assert ItemBacked(w, op.items[i], i); }
  }

  /** A reconciled action is settled on the word of metadata that is to be believed. */
  lemma ReconcileBacked(w: World, e: Engine, now: Time)
    requires e.Busy? && Sound(e.op, w.plan, w.batch) && e.op.id == w.op.id && EngineBacked(w, e) && e.point.Top?
    requires e.point.i < |e.op.items| && e.op.items[e.point.i].status == InFlight
    ensures var to := Reconcile(e.op.items[e.point.i], e.point.meta, now);
            to.Some? ==> ItemBacked(w, to.value, e.point.i)
  {
    var i := e.point.i;
    assert ItemOk(e.op.items[i], w.plan.actions[i], e.op.id, w.plan.binding.target);
    hide Sound, ItemOk, Backed;
    if Look(e.point.meta, e.op.items[i].action).lastWriteKey == Some(e.op.items[i].writeKey) {
      SameKey(w, e.op.items[i], i);
      assert Attests(w, e.point.meta, i);
    }
  }

  lemma SameKey(w: World, item: Item, i: nat)
    requires i < |w.plan.actions| && ItemOk(item, w.plan.actions[i], w.op.id, w.plan.binding.target)
    ensures item.action == w.plan.actions[i] && item.writeKey == OfWrite(w.op.id, w.plan.actions[i].id)
  {
  }

  lemma TopBacked(w: World, e: Engine, now: Time)
    requires e.Busy? && Sound(e.op, w.plan, w.batch) && e.op.id == w.op.id && EngineBacked(w, e) && e.point.Top?
    ensures EngineBacked(w, AtTop(w.caps, e, now))
  {
    var i, op, to := e.point.i, e.op, AtTop(w.caps, e, now);
    if i < |op.items| && op.items[i].status == InFlight && !Retriable(w.caps) {
      ReconcileBacked(w, e, now);
      hide Reconcile, Sound, Believes, ItemBacked;
      match Reconcile(op.items[i], e.point.meta, now)
      case None => SameItems(w, op, to.op);
      case Some(_) => SetBacked(w, op, to.op, i);
    } else {
      hide Sound, Believes, Reconcile, ItemBacked;
      SameItems(w, op, to.op);
    }
  }

  lemma OneBacked(w: World, e: Engine, to: Engine, i: nat)
    requires e.Busy? && EngineBacked(w, e) && to.Busy? && i < |e.op.items| && |to.op.items| == |e.op.items|
    requires forall j :: 0 <= j < |e.op.items| && j != i ==> to.op.items[j] == e.op.items[j]
    requires ItemBacked(w, to.op.items[i], i) && Told(w, to.point)
    ensures EngineBacked(w, to)
  {
    SetBacked(w, e.op, to.op, i);
  }

  /** Only an accepted write settles its action. */
  lemma AnsweredShape(caps: Capabilities, e: Engine, now: Time)
    requires e.Busy? && e.point.WriteReplied? && e.point.i < |e.op.items|
    ensures var i, to := e.point.i, Answered(caps, e, now);
            to.Busy? ==>
              && |to.op.items| == |e.op.items|
                   && (forall j :: 0 <= j < |e.op.items| && j != i ==> to.op.items[j] == e.op.items[j])
              && (SettledStatus(to.op.items[i].status) ==> e.point.reply.Accepted?)
              && (to.point.SaveFailure? || (to.point.SaveCommit? && to.point.meta == e.point.meta))
  {
    hide SanitizeError, ValidWriteEvidence, RefusalStatus, Filled;
  }

  lemma AnsweredBacked(w: World, e: Engine, now: Time)
    requires e.Busy? && EngineBacked(w, e) && e.point.WriteReplied? && e.point.i < |e.op.items|
    ensures EngineBacked(w, Answered(w.caps, e, now))
  {
    var i, to := e.point.i, Answered(w.caps, e, now);
    AnsweredShape(w.caps, e, now);
    assert e.point.reply.Accepted? ==> w.commits[i] > 0;
    hide Answered, Believes, Backed;
    if to.Busy? { OneBacked(w, e, to, i); }
  }

  lemma VerifiedBacked(w: World, e: Engine, now: Time)
    requires e.Busy? && EngineBacked(w, e) && AllSettled(e.op.items)
    requires (e.point.VerifyReplied? && e.point.i < |e.op.items|) || e.point.VerifyTop?
    ensures EngineBacked(w, Decide(w.caps, e, now))
  {
    var i, to := e.point.i, Decide(w.caps, e, now);
    hide SanitizeError, ValidVerifyEvidence, Believes;
    if i < |e.op.items| {
      assert ItemBacked(w, e.op.items[i], i);
      if to.Busy? { SetBacked(w, e.op, to.op, i); }
    } else {
      SameItems(w, e.op, to.op);
    }
  }

  lemma LoadedBacked(w: World, e: Engine, now: Time)
    requires e.Busy? && EngineBacked(w, e) && e.point.LoadValue?
    ensures EngineBacked(w, AtLoaded(e, now))
  {
    var i, to := e.point.i, AtLoaded(e, now);
    hide Believes;
    if i < |e.op.items| {
      assert ItemBacked(w, to.op.items[i], i);
      SetBacked(w, e.op, to.op, i);
    }
  }

  lemma BatchBacked(w: World, e: Engine, now: Time)
    requires e.Busy? && EngineBacked(w, e) && (e.point.BatchTop? || e.point.StageReplied?)
    ensures EngineBacked(w, Decide(w.caps, e, now))
  {
    var to := Decide(w.caps, e, now);
    hide SanitizeError, ValidWriteEvidence, Believes;
    if to.Busy? {
      forall i | 0 <= i < |to.op.items|
        ensures ItemBacked(w, to.op.items[i], i)
      {
        assert ItemBacked(w, e.op.items[i], i);
      }
    }
  }

  lemma AllWrittenBacked(w: World, e: Engine, now: Time)
    requires e.Busy? && EngineBacked(w, e) && e.point.AllWritten?
    ensures EngineBacked(w, AtAllWritten(e, now))
  {
    SameItems(w, e.op, AtAllWritten(e, now).op);
  }

  lemma DecideBacked(w: World, e: Engine, now: Time)
    requires e.Busy? && EngineOk(w, e) && EngineBacked(w, e) && Decides(e.point)
    ensures EngineBacked(w, Decide(w.caps, e, now))
  {
    EngineParts(w, e);
    var p := e.point;
    assert e.op.id == w.op.id && (p.VerifyTop? || p.VerifyReplied? ==> AllSettled(e.op.items))
           && (p.WriteReplied? || p.VerifyReplied? ==> p.i < |e.op.items|)
                by { hide Sound, Follows, SettledBelow, CheckedBelow, LimitedBelow; }
    DecideIs(w.caps, e, now);
    hide *;
    match p
    case Top(_, _) => TopBacked(w, e, now);
    case LoadValue(_, _) => LoadedBacked(w, e, now);
    case WriteReplied(_, _, _) => AnsweredBacked(w, e, now);
    case VerifyTop(_, _) => VerifiedBacked(w, e, now);
    case VerifyReplied(_, _, _) => VerifiedBacked(w, e, now);
    case AllWritten => AllWrittenBacked(w, e, now);
    case BatchTop(_) => BatchBacked(w, e, now);
    case StageReplied(_, _) => BatchBacked(w, e, now);
  }

  lemma DecideIs(caps: Capabilities, e: Engine, now: Time)
    requires e.Busy? && Decides(e.point)
    ensures e.point.Top? ==> Decide(caps, e, now) == AtTop(caps, e, now)
    ensures e.point.LoadValue? ==> Decide(caps, e, now) == AtLoaded(e, now)
    ensures e.point.AllWritten? ==> Decide(caps, e, now) == AtAllWritten(e, now)
    ensures e.point.WriteReplied? && e.point.i < |e.op.items| ==> Decide(caps, e, now) == Answered(caps, e, now)
    ensures e.point.BatchTop? || e.point.VerifyTop? || e.point.VerifyReplied? || e.point.StageReplied?
              || e.point.Top? ||
            e.point.LoadValue? || e.point.AllWritten? || e.point.WriteReplied?
  {
    hide AtTop, AtLoaded, AtAllWritten, Answered, AtBatchTop, AtVerifyTop, VerifiedTo, Staged;
  }

  lemma SavedBacked(w: World, e: Engine)
    requires e.Busy? && EngineBacked(w, e) && !AsSaved(e.point)
    ensures EngineBacked(w, Saved(e))
  {
    hide Believes, Backed;
  }

  // ----- Every prompt step keeps it ------------------------------------------------------------

  /** One engine moves to a backed state while the provider only gains. */
  lemma OneMoves(w: World, w': World, e: nat, to: Engine)
    requires AllBacked(w) && Inv(w') && More(w, w') && w'.engines == w.engines[e := to]
    requires Backed(w', w'.op) && EngineBacked(w', to)
    ensures AllBacked(w')
  {
    forall f | f in w'.engines ensures EngineBacked(w', w'.engines[f]) {
      if f != e { StillBacked(w, w', w.engines[f]); }
    }
  }

  /** Where the engine of a step goes, and what becomes of the journal and the provider. */
  lemma MoverBacked(w: World, s: Step)
    requires AllBacked(w) && Enabled(w, s) && Prompt(w, s) && !s.Settle?
    ensures var w' := Next(w, s);
            && More(w, w') && Backed(w', w'.op) && s.e in w'.engines
            && w'.engines == w.engines[s.e := w'.engines[s.e]] && EngineBacked(w', w'.engines[s.e])
  {
    if s.e in w.engines { assert EngineOk(w, w.engines[s.e]) && EngineBacked(w, w.engines[s.e]); }
    hide Inv;
    match s
    case Decided(e, now) =>
      DecideBacked(w, w.engines[e], now);
      hide Decide, EngineOk;
      StillBacked(w, Next(w, s), Decide(w.caps, w.engines[e], now));
    case SaveDone(e) => SaveBacks(w, e);
    case WriteDone(e, _, outcome) => CallBacks(w, s);
    case WriteLost(e, outcome) => CallBacks(w, s);
    case StageDone(e, _, outcome) => CallBacks(w, s);
    case StageLost(e, outcome) => CallBacks(w, s);
    case _ => PlainBacks(w, s);
  }

  lemma SaveBacks(w: World, e: nat)
    requires Enabled(w, SaveDone(e)) && EngineOk(w, w.engines[e]) && EngineBacked(w, w.engines[e])
    ensures var w' := Next(w, SaveDone(e));
            && More(w, w') && Backed(w', w'.op) && w'.engines == w.engines[e := w'.engines[e]]
                 && EngineBacked(w', w'.engines[e])
  {
    var at, w' := w.engines[e], Next(w, SaveDone(e));
    assert at.op.id == w.op.id by { hide Sound, PointOk, Follows; }
    hide EngineOk, ValidOperation, Saved;
    SavedBacked(w, at);
    StillBacked(w, w', at);
    StillBacked(w, w', Saved(at));
  }

  lemma CallBacks(w: World, s: Step)
    requires Enabled(w, s) && Prompt(w, s) && (s.WriteDone? || s.WriteLost? || s.StageDone? || s.StageLost?)
    requires Backed(w, w.op) && EngineBacked(w, w.engines[s.e])
    ensures var w' := Next(w, s);
            && More(w, w') && Backed(w', w'.op) && w'.engines == w.engines[s.e := w'.engines[s.e]]
                 && EngineBacked(w', w'.engines[s.e])
  {
    var at, w' := w.engines[s.e], Next(w, s);
    assert More(w, w');
    StillBacked(w, w', at);
    hide Backed, Believes;
  }

  lemma PlainBacks(w: World, s: Step)
    requires Enabled(w, s) && Prompt(w, s) && (s.Resume? || s.Inspected? || s.VerifyDone? || s.Stop?)
    requires Backed(w, w.op) && EngineBacked(w, w.engines[s.e])
    ensures var w' := Next(w, s);
            && More(w, w') && Backed(w', w'.op) && w'.engines == w.engines[s.e := w'.engines[s.e]]
                 && EngineBacked(w', w'.engines[s.e])
  {
    var at, w' := w.engines[s.e], Next(w, s);
    assert More(w, w');
    StillBacked(w, w', at);
    hide Backed;
    if s.Inspected? { assert Believes(w', s.meta)
      by { assert forall i :: 0 <= i < |w.commits| ==> Attests(w', s.meta, i) == Attests(w, s.meta, i); } }
  }

  lemma StepBacked(w: World, s: Step)
    requires AllBacked(w) && Enabled(w, s) && Prompt(w, s)
    ensures AllBacked(Next(w, s))
  {
    assert Inv(w);
    var w' := Next(w, s);
    if s.Settle? {
      assert Inv(w') by { hide AllBacked; StepKeeps(w, s); }
      assert More(w, w') && w'.engines == w.engines;
      hide Inv;
      StillBacked(w, w', Idle);
      forall f | f in w'.engines ensures EngineBacked(w', w'.engines[f]) { StillBacked(w, w', w.engines[f]); }
    } else {
      MoverBacked(w, s);
      hide Inv, Next, Backed, EngineBacked, More, Enabled;
      StepKeeps(w, s);
      OneMoves(w, w', s.e, w'.engines[s.e]);
    }
  }

  lemma {:induction false} RunBacked(run: seq<World>, steps: seq<Step>, k: nat)
    requires IsRun(run, steps) && Starts(run[0]) && k < |run|
    requires forall m {:trigger steps[m]} :: 0 <= m < |steps| ==> Prompt(run[m], steps[m])
    ensures AllBacked(run[k])
  {
    if k == 0 {
      StartOk(run[0]);
      hide Inv;
      forall e | e in run[0].engines ensures EngineBacked(run[0], run[0].engines[e]) {}
    } else {
      RunBacked(run, steps, k - 1);
      assert Enabled(run[k - 1], steps[k - 1]) && Prompt(run[k - 1], steps[k - 1]);
      hide AllBacked, Enabled, Next, Prompt;
      StepBacked(run[k - 1], steps[k - 1]);
    }
  }

  /**
   * A settled action that stores a value was committed: on any adapter, batch or not, with any
   * number of engines, as long as what is accepted is committed and what is attested was written.
   */
  lemma SettledWasCommitted(run: seq<World>, steps: seq<Step>, k: nat, i: nat)
    requires IsRun(run, steps) && Starts(run[0]) && k < |run| && i < |run[k].op.items|
    requires forall m {:trigger steps[m]} :: 0 <= m < |steps| ==> Prompt(run[m], steps[m])
    requires SettledStatus(run[k].op.items[i].status) && run[k].op.items[i].action.verb != Revoke
    ensures i < |run[k].commits| && run[k].commits[i] > 0
  {
    RunBacked(run, steps, k);
    assert ItemBacked(run[k], run[k].op.items[i], i);
  }

  /** With one engine at a time and no repeatable writes, exactly once. */
  lemma ExactlyOnce(run: seq<World>, steps: seq<Step>, k: nat, i: nat)
    requires IsRun(run, steps) && Starts(run[0]) && OneBusy(run[0])
    requires !run[0].batch && !run[0].caps.idempotencyKey && !run[0].caps.idempotentWrite
    requires forall m {:trigger steps[m]} :: 0 <= m < |steps| ==> Careful(run[m], steps[m]) && Prompt(run[m], steps[m])
    requires k < |run| && i < |run[k].op.items|
    requires SettledStatus(run[k].op.items[i].status) && run[k].op.items[i].action.verb != Revoke
    ensures i < |run[k].commits| && i < |run[k].unsettled| && run[k].commits[i] == 1 && run[k].unsettled[i] == 0
  {
    SettledWasCommitted(run, steps, k, i);
    SamePlan(run, steps, k);
    AtMostOnce(run, steps, k, i);
  }

  lemma SamePlan(run: seq<World>, steps: seq<Step>, k: nat)
    requires IsRun(run, steps) && Starts(run[0]) && k < |run|
    ensures |run[k].op.items| == |run[0].plan.actions|
  {
    RunKeeps(run, steps, k);
    PlanStays(run, steps, k);
  }

  lemma {:induction false} PlanStays(run: seq<World>, steps: seq<Step>, k: nat)
    requires IsRun(run, steps) && k < |run|
    ensures run[k].plan == run[0].plan
  {
    if k > 0 {
      PlanStays(run, steps, k - 1);
      assert Enabled(run[k - 1], steps[k - 1]);
      hide Decide, Saved, ValidOperation;
    }
  }

  // ----- What a pending action of an atomic batch says -----------------------------------------

  predicate OneAtATime(w: World, s: Step) { s.Resume? ==> AllIdleBut(w, s.e) }

  /** One engine, which holds the newest revision. */
  predicate Current(w: World) {
    OneBusy(w) && forall e :: e in w.engines && w.engines[e].Busy? ==> w.engines[e].revision == w.revision
  }

  /** What the items of an operation leave pending never reached the provider. */
  predicate PendingTrue(w: World, op: Operation) {
    |op.items| == |w.commits| == |w.unsettled| &&
    forall i :: 0 <= i < |op.items| && op.items[i].status == Pending ==> Clear(w, i)
  }

  /** Whatever this step journals as pending is so. */
  predicate RecordsTruth(w: World, s: Step)
    requires Enabled(w, s)
  {
    s.SaveDone? ==> PendingTrue(w, w.engines[s.e].op)
  }

  lemma CurrentStep(w: World, s: Step)
    requires Current(w) && Enabled(w, s) && OneAtATime(w, s)
    ensures Current(Next(w, s))
  {
    hide ValidOperation;
    if s.Decided? { KeepsRevision(w.caps, w.engines[s.e], s.now); }
    hide Decide;
  }

  lemma KeepsRevision(caps: Capabilities, e: Engine, now: Time)
    requires e.Busy?
    ensures Decide(caps, e, now).Busy? ==> Decide(caps, e, now).revision == e.revision
  {
    hide Reconcile, SanitizeError, ValidWriteEvidence, ValidVerifyEvidence;
  }

  /** While something is journalled as pending nobody is about to call. */
  lemma NoCallWhilePending(w: World, s: Step)
    requires Inv(w) && w.batch && Current(w) && Enabled(w, s)
    requires s.WriteDone? || s.WriteLost? || s.StageDone? || s.StageLost?
    ensures forall i :: 0 <= i < |w.op.items| ==> w.op.items[i].status == InFlight
  {
    var at := w.engines[s.e];
    assert EngineOk(w, at) && at.revision == w.revision;
    EngineParts(w, at);
    assert at.op == w.op by { hide Sound, PointOk; }
    hide Inv, EngineOk, Sound;
  }

  lemma PendingStep(w: World, s: Step)
    requires Inv(w) && w.batch && Current(w) && Enabled(w, s) && PendingTrue(w, w.op)
    ensures PendingTrue(Next(w, s), Next(w, s).op) <==> RecordsTruth(w, s)
  {
    SizesAgree(w);
    if s.WriteDone? || s.WriteLost? || s.StageDone? || s.StageLost? {
      NoCallWhilePending(w, s);
      hide Inv, Current, ValidOperation;
    } else if s.SaveDone? {
      hide Inv, Current, Saved, ValidOperation;
    } else if s.Settle? {
      hide Inv, Current;
    } else {
      SameJournal(w, s);
      hide *;
      SamePending(w, Next(w, s));
    }
  }

  lemma SameJournal(w: World, s: Step)
    requires Enabled(w, s) && (s.Resume? || s.Inspected? || s.Decided? || s.VerifyDone? || s.Stop?)
    ensures Next(w, s).op == w.op && Next(w, s).commits == w.commits && Next(w, s).unsettled == w.unsettled
              && RecordsTruth(w, s)
  {
    hide Decide;
  }

  lemma SamePending(w: World, w': World)
    requires w'.op == w.op && w'.commits == w.commits && w'.unsettled == w.unsettled && PendingTrue(w, w.op)
    ensures PendingTrue(w', w'.op)
  {
  }

  lemma SizesAgree(w: World)
    requires Inv(w)
    ensures |w.op.items| == |w.commits| == |w.unsettled|
  {
  }

  /** The states a batch run is in, with one engine at a time. */
  lemma {:induction false} BatchStays(run: seq<World>, steps: seq<Step>, k: nat)
    requires IsRun(run, steps) && Starts(run[0]) && run[0].batch && OneBusy(run[0]) && k < |run|
    requires forall m {:trigger steps[m]} :: 0 <= m < |steps| ==> OneAtATime(run[m], steps[m])
    ensures Inv(run[k]) && run[k].batch && Current(run[k])
  {
    RunKeeps(run, steps, k);
    if k > 0 {
      BatchStays(run, steps, k - 1);
      assert Enabled(run[k - 1], steps[k - 1]) && OneAtATime(run[k - 1], steps[k - 1]);
      hide Inv, Current, Decide, Saved, ValidOperation;
      CurrentStep(run[k - 1], steps[k - 1]);
    }
  }

  /** Up to `k` the journal called nothing pending that had reached the provider. */
  ghost predicate TrueUpTo(run: seq<World>, k: nat)
    requires k < |run|
  {
    forall j :: 0 <= j <= k ==> PendingTrue(run[j], run[j].op)
  }

  ghost predicate RecordedTruly(run: seq<World>, steps: seq<Step>, k: nat)
    requires IsRun(run, steps) && k < |run|
  {
    forall m {:trigger steps[m]} :: 0 <= m < k ==> RecordsTruth(run[m], steps[m])
  }

  /**
   * With one engine at a time, the journal of a batch only ever calls pending what never reached
   * the provider, exactly when that is so whenever a refusal is recorded: once recorded it stays
   * true, because the next attempt is journalled before the next call.
   */
  lemma {:induction false} BatchPendingExactly(run: seq<World>, steps: seq<Step>, k: nat)
    requires IsRun(run, steps) && Starts(run[0]) && run[0].batch && OneBusy(run[0]) && k < |run|
    requires forall m {:trigger steps[m]} :: 0 <= m < |steps| ==> OneAtATime(run[m], steps[m])
    ensures TrueUpTo(run, k) <==> RecordedTruly(run, steps, k)
  {
    BatchStays(run, steps, k);
    assert |run| == |steps| + 1;
    if k == 0 {
      SizesAgree(run[0]);
      NothingPending(run, steps);
    } else {
      BatchPendingExactly(run, steps, k - 1);
      BatchStays(run, steps, k - 1);
      StepOf(run, steps, k - 1);
      hide *;
      OneLater(run, steps, k);
      if PendingTrue(run[k - 1], run[k - 1].op) { PendingStep(run[k - 1], steps[k - 1]); }
      if TrueUpTo(run, k - 1) { TrueNow(run, k - 1); }
    }
  }

  lemma NothingPending(run: seq<World>, steps: seq<Step>)
    requires IsRun(run, steps) && Starts(run[0]) && |run[0].op.items| == |run[0].commits| == |run[0].unsettled|
    ensures TrueUpTo(run, 0) && RecordedTruly(run, steps, 0)
  {
  }

  lemma StepOf(run: seq<World>, steps: seq<Step>, k: nat)
    requires IsRun(run, steps) && k < |steps|
    ensures Enabled(run[k], steps[k]) && run[k + 1] == Next(run[k], steps[k])
  {
    hide Enabled, Next;
  }

  lemma TrueNow(run: seq<World>, k: nat)
    requires k < |run| && TrueUpTo(run, k)
    ensures PendingTrue(run[k], run[k].op)
  {
    hide PendingTrue;
  }

  lemma OneLater(run: seq<World>, steps: seq<Step>, k: nat)
    requires IsRun(run, steps) && 0 < k < |run| && Enabled(run[k - 1], steps[k - 1])
    ensures TrueUpTo(run, k) <==> TrueUpTo(run, k - 1) && PendingTrue(run[k], run[k].op)
    ensures RecordedTruly(run, steps, k) <==> RecordedTruly(run, steps, k - 1) && RecordsTruth(run[k - 1], steps[k - 1])
  {
    hide PendingTrue, RecordsTruth, Enabled, Next;
    if TrueUpTo(run, k - 1) && PendingTrue(run[k], run[k].op) {
      forall j | 0 <= j <= k ensures PendingTrue(run[j], run[j].op) {}
    }
    if RecordedTruly(run, steps, k - 1) && RecordsTruth(run[k - 1], steps[k - 1]) {
      forall m {:trigger steps[m]} | 0 <= m < k ensures RecordsTruth(run[m], steps[m]) {}
    }
  }

  // ----- A refusal that is recorded falsely ----------------------------------------------------

  lemma ThreeSteps(w: World, r: Step, s: Step, t: Step) returns (run: seq<World>)
    requires Enabled(w, r) && Enabled(Next(w, r), s) && Enabled(Next(Next(w, r), s), t)
    ensures |run| == 4 && run[0] == w && run[3] == Next(Next(Next(w, r), s), t) && IsRun(run, [r, s, t])
  {
    hide Enabled, Next;
    run := [w, Next(w, r), Next(Next(w, r), s), Next(Next(Next(w, r), s), t)];
  }

  /** The first three steps of a batch: it looks, decides to attempt everything, and saves that. */
  lemma FirstAttempt(w: World, e: nat) returns (run: seq<World>, steps: seq<Step>)
    requires Starts(w) && w.batch && e in w.engines && w.engines[e].Busy?
    ensures IsRun(run, steps) && |steps| == 3 && run[0] == w && forall m :: 0 <= m < 3 ==> !steps[m].Resume?
    ensures var last := run[3];
            && Inv(last) && e in last.engines && last.engines[e] == Busy(last.op, last.revision, CallStage(map[]))
            && last.commits == w.commits && last.unsettled == w.unsettled && |last.op.items| == |w.commits| > 0
  {
    StartOk(w);
    hide Inv, ValidOperation;
    var r, s, t := Inspected(e, map[]), Decided(e, w.op.createdAt), SaveDone(e);
    var w1 := Next(w, r);
    StepKeeps(w, r);
    assert !SettledStatus(w.op.items[0].status);
    var w2 := Next(w1, s);
    StepKeeps(w1, s);
    WouldSave(w2, e);
    StepKeeps(w2, t);
    steps := [r, s, t];
    run := ThreeSteps(w, r, s, t);
  }

  lemma WouldSave(w: World, e: nat)
    requires Inv(w) && e in w.engines && w.engines[e].Busy?
    ensures ValidOperation(w.engines[e].op)
  {
    OneEngineOk(w, e);
    EngineParts(w, w.engines[e]);
    hide EngineOk, Sound, PointOk;
    SoundIsValid(w.engines[e].op, w.plan, w.batch);
  }

  /** An error nobody classified is recorded as final, whatever the stage did. */
  lemma UntypedRefusal(w: World, e: nat) returns (run: seq<World>, steps: seq<Step>)
    requires Inv(w) && e in w.engines && w.engines[e] == Busy(w.op, w.revision, CallStage(map[]))
    requires |w.commits| == |w.unsettled| == |w.op.items|
    ensures IsRun(run, steps) && |steps| == 3 && run[0] == w && forall m :: 0 <= m < 3 ==> !steps[m].Resume?
    ensures run[3].op.status == Failed && |run[3].op.items| == |w.op.items|
    ensures forall i :: 0 <= i < |run[3].op.items| ==> run[3].op.items[i].status == Pending
    ensures |run[3].commits| == |w.commits| && forall i :: 0 <= i < |w.commits| ==>
              run[3].commits[i] == w.commits[i] + 1
  {
    var r, s, t := StageDone(e, Refused(Untyped), Done), Decided(e, w.op.createdAt), SaveDone(e);
    hide *;
    StageFails(w, e);
    StepKeeps(w, r);
    var w1 := Next(w, r);
    RefusalIsFinal(w1, e);
    StepKeeps(w1, s);
    var w2 := Next(w1, s);
    WouldSave(w2, e);
    SavesRefusal(w2, e);
    steps := [r, s, t];
    run := ThreeSteps(w, r, s, t);
  }

  lemma SavesRefusal(w: World, e: nat)
    requires e in w.engines && w.engines[e].Busy? && w.engines[e].point.SaveFailure?
               && w.engines[e].revision == w.revision
    requires ValidOperation(w.engines[e].op)
    ensures Enabled(w, SaveDone(e)) && Next(w, SaveDone(e)).op == w.engines[e].op
              && Next(w, SaveDone(e)).commits == w.commits
  {
    hide ValidOperation;
  }

  lemma StageFails(w: World, e: nat)
    requires e in w.engines && w.engines[e] == Busy(w.op, w.revision, CallStage(map[]))
    requires |w.commits| == |w.unsettled| == |w.op.items|
    ensures var s := StageDone(e, Refused(Untyped), Done);
            && Enabled(w, s)
            && var w1 := Next(w, s);
               && w1.op == w.op && w1.revision == w.revision && w1.caps == w.caps && e in w1.engines
               && w1.engines[e] == Busy(w.op, w.revision, StageReplied(map[], Refused(Untyped)))
               && |w1.commits| == |w.commits| && forall i :: 0 <= i < |w.commits| ==> w1.commits[i] == w.commits[i] + 1
  {
  }

  lemma RefusalIsFinal(w: World, e: nat)
    requires e in w.engines && w.engines[e] == Busy(w.op, w.revision, StageReplied(map[], Refused(Untyped)))
    ensures var s := Decided(e, w.op.createdAt);
            && Enabled(w, s)
            && var w2 := Next(w, s);
               && w2.commits == w.commits && e in w2.engines && w2.engines[e].Busy? && w2.engines[e].point.SaveFailure?
               && w2.engines[e].revision == w2.revision
               && w2.engines[e].op.status == Failed && |w2.engines[e].op.items| == |w.op.items|
               && forall i :: 0 <= i < |w.op.items| ==> w2.engines[e].op.items[i].status == Pending
  {
    UntypedStageIsFinal();
    hide SanitizeError;
  }

  lemma UntypedStageIsFinal()
    ensures SanitizeError("stage", Untyped).retry == Never
  {
    assert EvidenceToken("stage");
    SafeIsToken("stage");
  }

  /**
   * It happens with any plan: a stage that commits and then fails with an unclassified error leaves
   * every action journalled as pending, the operation failed for good, and every action committed.
   */
  lemma UntypedStageMisleads(w: World, e: nat) returns (run: seq<World>, steps: seq<Step>)
    requires Starts(w) && w.batch && OneBusy(w) && e in w.engines && w.engines[e].Busy?
    ensures IsRun(run, steps) && run[0] == w && |run| == 7
    ensures forall m {:trigger steps[m]} :: 0 <= m < |steps| ==> OneAtATime(run[m], steps[m])
    ensures run[6].op.status == Failed && |run[6].op.items| == |run[6].commits| > 0
    ensures forall i :: 0 <= i < |run[6].op.items| ==> run[6].op.items[i].status == Pending && run[6].commits[i] == 1
  {
    assert forall i :: 0 <= i < |w.commits| ==> w.commits[i] == 0;
    hide Enabled, Next, Inv, Starts, OneBusy;
    var a, s := FirstAttempt(w, e);
    SizesAgree(a[3]);
    var b, t := UntypedRefusal(a[3], e);
    Chained(a, b, s, t);
    run, steps := a + b[1..], s + t;
  }

  /** Runs that meet make one run. */
  lemma Chained(a: seq<World>, b: seq<World>, s: seq<Step>, t: seq<Step>)
    requires IsRun(a, s) && IsRun(b, t) && b[0] == a[|s|]
    ensures IsRun(a + b[1..], s + t)
  {
    hide Enabled, Next;
    var run, steps := a + b[1..], s + t;
    forall m {:trigger steps[m]} | 0 <= m < |steps|
      ensures Enabled(run[m], steps[m]) && run[m + 1] == Next(run[m], steps[m])
    {
      if m < |s| { assert steps[m] == s[m]; } else { assert steps[m] == t[m - |s|]; }
    }
  }
}

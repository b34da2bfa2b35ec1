/**
 * At-most-once commit on a provider that cannot repeat a write safely, over every run of one Apply
 * and any number of crashes and Resumes.
 */
module RolloutAtMostOnce {
  import opened Basics
  import opened RolloutJournal
  import opened RolloutMachine
  import opened RolloutInvariant

  function Look(meta: Metadata, a: Action): Variable {
    if (a.service, a.name) in meta then meta[(a.service, a.name)] else Variable(Unknown, None)
  }

  /**
   * Metadata about an action in flight is true, its write having settled: an attested key was
   * written, and an absent variable was not. Other actions may be described in any way.
   */
  predicate TruthfulAt(w: World, meta: Metadata, i: nat)
    requires i < |w.op.items| && i < |w.commits| && i < |w.unsettled|
  {
    var item := w.op.items[i];
    item.status == InFlight ==>
    && w.unsettled[i] == 0
    && (Look(meta, item.action).lastWriteKey == Some(item.writeKey) ==> w.commits[i] > 0)
    && (item.action.verb != Revoke && Look(meta, item.action).presence == Absent ==> w.commits[i] == 0)
  }

  predicate AllIdleBut(w: World, e: nat) {
    forall f :: f in w.engines && f != e ==> w.engines[f] == Idle
  }

  /** The operating assumptions, step by step. */
  predicate Careful(w: World, s: Step) {
    match s
    case Resume(e) => AllIdleBut(w, e)                           // one engine at a time
    case Inspected(_, meta) =>                                   // truthful, after writes settled
      forall i :: 0 <= i < |w.commits| && i < |w.unsettled| && i < |w.op.items| ==> TruthfulAt(w, meta, i)
    case WriteDone(_, reply, outcome) =>                         // safe and final refusals mean "not committed"
      reply.Refused? && SanitizeError("write", reply.error).retry != Ambiguous ==> outcome == NotDone
    case _ => true
  }

  predicate NonRepeatable(w: World) { !w.batch && !Retriable(w.caps) }

  // ----- The invariant -------------------------------------------------------------------------

  predicate Clear(w: World, i: nat)
    requires i < |w.commits| && i < |w.unsettled|
  {
    w.commits[i] == 0 && w.unsettled[i] == 0
  }

  /** What an item's status promises about the provider. */
  predicate ItemTrue(w: World, item: Item, i: nat)
    requires i < |w.commits| && i < |w.unsettled|
  {
    && w.commits[i] + w.unsettled[i] <= 1
    && (item.status == Pending ==> Clear(w, i))
  }

  predicate OpTrue(w: World, op: Operation) {
    && |op.items| == |w.commits| == |w.unsettled|
    && forall i :: 0 <= i < |op.items| ==> ItemTrue(w, op.items[i], i)
  }

  /** The metadata an engine carries still decides the in-flight items it has not reached. */
  predicate StillTrue(w: World, op: Operation, meta: Metadata, from: nat)
    requires |op.items| == |w.commits| == |w.unsettled|
  {
    forall j :: from <= j < |op.items| && op.items[j].status == InFlight ==>
      var v := Look(meta, op.items[j].action);
      && w.unsettled[j] == 0
      && (v.lastWriteKey == Some(op.items[j].writeKey) ==> w.commits[j] > 0)
      && (op.items[j].action.verb != Revoke && v.presence == Absent ==> w.commits[j] == 0)
  }

  predicate PointTrue(w: World, op: Operation, p: Point)
    requires |op.items| == |w.commits| == |w.unsettled|
  {
    match p
    case Top(meta, i) => StillTrue(w, op, meta, i)
    case SaveResolved(meta, i) => StillTrue(w, op, meta, i + 1)
    case LoadValue(meta, i) => StillTrue(w, op, meta, i + 1) && i < |op.items| && Clear(w, i)
    case SaveAttempt(meta, i) => StillTrue(w, op, meta, i + 1) && i < |op.items| && Clear(w, i)
    case CallWrite(meta, i) => StillTrue(w, op, meta, i + 1) && i < |op.items| && Clear(w, i)
    case WriteReplied(meta, i, reply) =>
      && StillTrue(w, op, meta, i + 1) && i < |op.items|
      && (reply.Refused? && SanitizeError("write", reply.error).retry != Ambiguous ==> Clear(w, i))
    case SaveCommit(meta, i) => StillTrue(w, op, meta, i + 1)
    case _ => true
  }

  predicate EngineTrue(w: World, e: Engine) {
    e.Busy? ==> e.revision == w.revision && OpTrue(w, e.op) && PointTrue(w, e.op, e.point)
  }

  predicate OneBusy(w: World) {
    forall e, f :: e in w.engines && f in w.engines && w.engines[e].Busy? && w.engines[f].Busy? ==> e == f
  }

  ghost predicate True(w: World) {
    && NonRepeatable(w) && Inv(w) && OneBusy(w) && OpTrue(w, w.op)
    && forall e :: e in w.engines ==> EngineTrue(w, w.engines[e])
  }

  // ----- One engine's own move -----------------------------------------------------------------

  lemma ReconcileTrue(w: World, op: Operation, meta: Metadata, i: nat, now: Time)
    requires OpTrue(w, op) && i < |op.items| && op.items[i].status == InFlight
    requires StillTrue(w, op, meta, i)
    ensures Reconcile(op.items[i], meta, now).Some? ==>
              ItemTrue(w, Reconcile(op.items[i], meta, now).value, i)
  {
    assert ItemTrue(w, op.items[i], i);
  }

  /** Replacing one item by a true one, and nothing else, keeps an operation true. */
  lemma SetTrue(w: World, op: Operation, to: Operation, i: nat)
    requires OpTrue(w, op) && i < |op.items| && |to.items| == |op.items|
    requires forall j :: 0 <= j < |op.items| && j != i ==> to.items[j] == op.items[j]
    requires ItemTrue(w, to.items[i], i)
    ensures OpTrue(w, to)
  {
  }

  lemma TopTrue(w: World, e: Engine, now: Time)
    requires NonRepeatable(w) && EngineOk(w, e) && e.Busy? && EngineTrue(w, e) && e.point.Top?
    ensures EngineTrue(w, AtTop(w.caps, e, now))
  {
    var i, op := e.point.i, e.op;
    var to := AtTop(w.caps, e, now);
    hide EngineOk;
    if i < |op.items| {
      assert ItemTrue(w, op.items[i], i);
      if op.items[i].status == InFlight {
        ReconcileTrue(w, op, e.point.meta, i, now);
        hide Reconcile;
        if Reconcile(op.items[i], e.point.meta, now).Some? { SetTrue(w, op, to.op, i); }
      }
    }
  }

  lemma LoadedTrue(w: World, e: Engine, now: Time)
    requires NonRepeatable(w) && EngineOk(w, e) && e.Busy? && EngineTrue(w, e) && e.point.LoadValue?
    ensures EngineTrue(w, AtLoaded(e, now))
  {
    assert ItemTrue(w, e.op.items[e.point.i], e.point.i);
    hide EngineOk;
    SetTrue(w, e.op, AtLoaded(e, now).op, e.point.i);
  }

  lemma VerifyTrue(w: World, e: Engine, now: Time)
    requires EngineOk(w, e) && e.Busy? && EngineTrue(w, e) && e.point.VerifyTop?
    ensures EngineTrue(w, AtVerifyTop(w.caps, e, now))
  {
    var i := e.point.i;
    var to := AtVerifyTop(w.caps, e, now);
    if i < |e.op.items| {
      assert ItemTrue(w, e.op.items[i], i) && SettledStatus(e.op.items[i].status);
      hide EngineOk;
      SetTrue(w, e.op, to.op, i);
    }
  }

  lemma VerifiedTrue(w: World, e: Engine, now: Time)
    requires EngineOk(w, e) && e.Busy? && EngineTrue(w, e) && e.point.VerifyReplied? && e.point.i < |e.op.items|
    ensures EngineTrue(w, VerifiedTo(e, now))
  {
    var i := e.point.i;
    var to := VerifiedTo(e, now);
    assert ItemTrue(w, e.op.items[i], i) && SettledStatus(e.op.items[i].status);
    hide EngineOk, SanitizeError, ValidVerifyEvidence;
    if to.Busy? { SetTrue(w, e.op, to.op, i); }
  }

  lemma DecideTrue(w: World, e: Engine, now: Time)
    requires NonRepeatable(w) && EngineOk(w, e) && e.Busy? && EngineTrue(w, e) && Decides(e.point)
    ensures EngineTrue(w, Decide(w.caps, e, now))
  {
    assert !e.point.BatchTop? && !e.point.StageReplied?;
    assert e.point.WriteReplied? || e.point.VerifyReplied? ==> e.point.i < |e.op.items|;
    if e.point.AllWritten? {
      AllWrittenTrue(w, e, now);
    } else {
      hide EngineOk, EngineTrue, AtTop, AtLoaded, AtVerifyTop, Answered, VerifiedTo;
      if e.point.Top? { TopTrue(w, e, now); }
      else if e.point.LoadValue? { LoadedTrue(w, e, now); }
      else if e.point.WriteReplied? { AnsweredTrue(w, e, now); }
      else if e.point.VerifyTop? { VerifyTrue(w, e, now); }
      else { VerifiedTrue(w, e, now); }
    }
  }

  lemma AllWrittenTrue(w: World, e: Engine, now: Time)
    requires e.Busy? && EngineTrue(w, e) && e.point.AllWritten?
    ensures EngineTrue(w, AtAllWritten(e, now))
  {
    forall j | 0 <= j < |e.op.items| ensures ItemTrue(w, e.op.items[j], j) {}
  }

  lemma SavedTrue(w: World, e: Engine)
    requires NonRepeatable(w) && EngineOk(w, e) && e.Busy? && EngineTrue(w, e) && !AsSaved(e.point)
    ensures EngineTrue(w.(op := e.op, revision := w.revision + 1), Saved(e))
  {
    if e.point.SaveResolved? { assert ItemTrue(w, e.op.items[e.point.i], e.point.i); }
  }

  lemma AnsweredTrue(w: World, e: Engine, now: Time)
    requires NonRepeatable(w) && EngineOk(w, e) && e.Busy? && EngineTrue(w, e) && e.point.WriteReplied?
    ensures EngineTrue(w, Answered(w.caps, e, now))
  {
    forall j | 0 <= j < |e.op.items| ensures ItemTrue(w, e.op.items[j], j) {}
  }

  lemma RepliedTrue(w: World, e: Engine, reply: WriteReply, outcome: Outcome)
    requires NonRepeatable(w) && EngineOk(w, e) && e.Busy? && EngineTrue(w, e) && e.point.CallWrite?
    requires reply.Refused? && SanitizeError("write", reply.error).retry != Ambiguous ==> outcome == NotDone
    ensures EngineTrue(Provided(w, e.point.i, outcome), e.(point := WriteReplied(e.point.meta, e.point.i, reply)))
  {
    ProvidedTrue(w, e.op, e.point.i, outcome);
  }

  /** Whatever a call did, the journal's in-flight item still tells the truth. */
  lemma ProvidedTrue(w: World, op: Operation, i: nat, outcome: Outcome)
    requires OpTrue(w, op) && i < |op.items| && op.items[i].status == InFlight && Clear(w, i)
    ensures OpTrue(Provided(w, i, outcome), op)
  {
    var w' := Provided(w, i, outcome);
    forall j | 0 <= j < |op.items| ensures ItemTrue(w', op.items[j], j) { assert ItemTrue(w, op.items[j], j); }
  }

  lemma SettleTrue(w: World, e: Engine, i: nat, commit: bool)
    requires Enabled(w, Settle(i, commit)) && EngineTrue(w, e)
    ensures EngineTrue(Next(w, Settle(i, commit)), e)
  {
    if e.Busy? { SettleOpTrue(w, e.op, i, commit); }
  }

  lemma SettleOpTrue(w: World, op: Operation, i: nat, commit: bool)
    requires Enabled(w, Settle(i, commit)) && OpTrue(w, op)
    ensures OpTrue(Next(w, Settle(i, commit)), op)
  {
    var w' := Next(w, Settle(i, commit));
    forall j | 0 <= j < |op.items| ensures ItemTrue(w', op.items[j], j) { assert ItemTrue(w, op.items[j], j); }
  }

  // ----- Every careful step keeps it -----------------------------------------------------------

  /** The only busy engine moves; the journal stays. */
  lemma OnlyMover(w: World, w': World, e: nat, to: Engine)
    requires True(w) && AllIdleBut(w, e) && Inv(w')
    requires w'.engines == w.engines[e := to] && w'.op == w.op && w'.caps == w.caps && w'.batch == w.batch
    requires OpTrue(w', w.op) && EngineTrue(w', to)
    ensures True(w')
  {
  }

  lemma Alone(w: World, e: nat)
    requires OneBusy(w) && e in w.engines && w.engines[e].Busy?
    ensures AllIdleBut(w, e)
  {
  }

  lemma SaveStays(w: World, e: nat)
    requires True(w) && Enabled(w, SaveDone(e))
    ensures True(Next(w, SaveDone(e)))
  {
    assert Inv(Next(w, SaveDone(e))) by { StepKeeps(w, SaveDone(e)); }
    Alone(w, e);
    var w' := Next(w, SaveDone(e));
    var at := w.engines[e];
    assert EngineTrue(w', Saved(at)) by {
      assert EngineOk(w, at) && EngineTrue(w, at);
      SavedTrue(w, at);
      SameProvider(w.(op := at.op, revision := w.revision + 1), w', at.op, Saved(at));
    }
    assert OpTrue(w', w'.op) by { SameProviderOp(w, w', at.op); }
    hide Inv, EngineTrue, OpTrue, Saved;
    assert forall f :: f in w'.engines && f != e ==> w'.engines[f] == Idle;
    IdleTrue(w');
  }

  lemma IdleTrue(w: World)
    ensures EngineTrue(w, Idle)
  {
  }

  lemma SameProviderOp(w: World, w': World, op: Operation)
    requires w'.commits == w.commits && w'.unsettled == w.unsettled && OpTrue(w, op)
    ensures OpTrue(w', op)
  {
    forall i | 0 <= i < |op.items| ensures ItemTrue(w', op.items[i], i) { assert ItemTrue(w, op.items[i], i); }
  }

  lemma InspectStays(w: World, e: nat, meta: Metadata)
    requires True(w) && Enabled(w, Inspected(e, meta)) && Careful(w, Inspected(e, meta))
    ensures True(Next(w, Inspected(e, meta)))
  {
    StepKeeps(w, Inspected(e, meta));
    Alone(w, e);
    var at := w.engines[e];
    var w', to := Next(w, Inspected(e, meta)), at.(point := Top(meta, 0));
    assert EngineOk(w, at) && EngineTrue(w, at);
    AsSeen(w, at, meta);
    hide Inv, EngineOk;
    SameProvider(w, w', w.op, to);
    OnlyMover(w, w', e, to);
  }

  /** What was just inspected decides every action in flight. */
  lemma AsSeen(w: World, at: Engine, meta: Metadata)
    requires at.Busy? && at.point.Inspect? && EngineOk(w, at) && EngineTrue(w, at)
    requires forall i :: 0 <= i < |w.commits| && i < |w.unsettled| && i < |w.op.items| ==> TruthfulAt(w, meta, i)
    ensures EngineTrue(w, at.(point := Top(meta, 0)))
  {
    assert at.op == w.op by { hide Sound, PointOk; }
    assert OpTrue(w, at.op) && |at.op.items| == |w.commits| == |w.unsettled|;
    hide EngineOk, OpTrue;
    forall j | 0 <= j < |at.op.items| && at.op.items[j].status == InFlight
      ensures var v := Look(meta, at.op.items[j].action);
              && w.unsettled[j] == 0
              && (v.lastWriteKey == Some(at.op.items[j].writeKey) ==> w.commits[j] > 0)
              && (at.op.items[j].action.verb != Revoke && v.presence == Absent ==> w.commits[j] == 0)
    {
      assert TruthfulAt(w, meta, j);
    }
  }

  /** The caller of a write, alone and clear to call, moves on while the provider does what it does. */
  lemma CallStays(w: World, w': World, e: nat, outcome: Outcome, to: Engine)
    requires True(w) && Inv(w') && e in w.engines && w.engines[e].Busy? && w.engines[e].point.CallWrite?
    requires var i := w.engines[e].point.i;
             && i < |w.commits| == |w.unsettled|
             && w'.commits == Provided(w, i, outcome).commits
             && w'.unsettled == Provided(w, i, outcome).unsettled
             && EngineTrue(Provided(w, i, outcome), to)
    requires w'.engines == w.engines[e := to] && w'.op == w.op && w'.revision == w.revision
    requires w'.caps == w.caps && w'.batch == w.batch
    ensures True(w')
  {
    Alone(w, e);
    var at := w.engines[e];
    assert EngineOk(w, at) && EngineTrue(w, at);
    var provided := Provided(w, at.point.i, outcome);
    ProvidedTrue(w, w.op, at.point.i, outcome);
    SameProvider(provided, w', w.op, to);
    OnlyMover(w, w', e, to);
  }

  lemma WriteDoneStays(w: World, e: nat, reply: WriteReply, outcome: Outcome)
    requires True(w) && Enabled(w, WriteDone(e, reply, outcome)) && Careful(w, WriteDone(e, reply, outcome))
    ensures True(Next(w, WriteDone(e, reply, outcome)))
  {
    var at := w.engines[e];
    var to := at.(point := WriteReplied(at.point.meta, at.point.i, reply));
    assert EngineTrue(Provided(w, at.point.i, outcome), to) by {
      assert EngineOk(w, at) && EngineTrue(w, at);
      hide EngineOk, EngineTrue, Inv;
      RepliedTrue(w, at, reply, outcome);
    }
    assert Inv(w);
    hide EngineTrue, True, Inv;
    StepKeeps(w, WriteDone(e, reply, outcome));
    CallStays(w, Next(w, WriteDone(e, reply, outcome)), e, outcome, to);
  }

  lemma WriteLostStays(w: World, s: Step)
    requires True(w) && Enabled(w, s) && s.WriteLost?
    ensures True(Next(w, s))
  {
    IdleTrue(Provided(w, w.engines[s.e].point.i, s.outcome));
    assert Inv(w);
    hide EngineTrue, True, Inv;
    StepKeeps(w, s);
    CallStays(w, Next(w, s), s.e, s.outcome, Idle);
  }

  lemma SameProvider(w: World, w': World, op: Operation, e: Engine)
    requires w'.commits == w.commits && w'.unsettled == w.unsettled && w'.revision == w.revision
    ensures OpTrue(w, op) ==> OpTrue(w', op)
    ensures EngineTrue(w, e) ==> EngineTrue(w', e)
  {
    if OpTrue(w, op) {
      forall i | 0 <= i < |op.items| ensures ItemTrue(w', op.items[i], i) { assert ItemTrue(w, op.items[i], i); }
    }
    if e.Busy? && OpTrue(w, e.op) {
      forall i | 0 <= i < |e.op.items| ensures ItemTrue(w', e.op.items[i], i) { assert ItemTrue(w, e.op.items[i], i); }
    }
  }

  lemma SettleStays(w: World, i: nat, commit: bool)
    requires True(w) && Enabled(w, Settle(i, commit))
    ensures True(Next(w, Settle(i, commit)))
  {
    StepKeeps(w, Settle(i, commit));
    SettleOpTrue(w, w.op, i, commit);
    forall e | e in w.engines ensures EngineTrue(Next(w, Settle(i, commit)), w.engines[e]) {
      SettleTrue(w, w.engines[e], i, commit);
    }
  }

  lemma MoveStays(w: World, s: Step)
    requires True(w) && Enabled(w, s) && Careful(w, s)
    requires s.Resume? || s.Decided? || s.VerifyDone? || s.Stop?
    ensures True(Next(w, s))
  {
    StepKeeps(w, s);
    var e := s.e;
    var to :=
      match s
      case Resume(_) => Busy(w.op, w.revision, Inspect)
      case Decided(_, now) => Decide(w.caps, w.engines[e], now)
      case VerifyDone(_, answer) =>
        w.engines[e].(point := VerifyReplied(w.engines[e].point.i, w.engines[e].point.limited, answer))
      case _ => Idle;
    if s.Decided? {
      assert EngineOk(w, w.engines[e]);
      DecideTrue(w, w.engines[e], s.now);
    }
    if s.VerifyDone? { assert EngineTrue(w, w.engines[e]); }
    if s.Stop? { StopStays(w, e); }
    else {
      if !s.Resume? { Alone(w, e); }
      var w' := Next(w, s);
      SameProvider(w, w', w.op, to);
      OnlyMover(w, w', e, to);
    }
  }

  lemma StopStays(w: World, e: nat)
    requires True(w) && Enabled(w, Stop(e))
    ensures True(Next(w, Stop(e)))
  {
    StepKeeps(w, Stop(e));
    var w' := Next(w, Stop(e));
    SameProvider(w, w', w.op, Idle);
    forall f | f in w'.engines ensures EngineTrue(w', w'.engines[f]) {
      if f != e { SameProvider(w, w', w.op, w.engines[f]); }
    }
  }

  lemma StepStays(w: World, s: Step)
    requires True(w) && Enabled(w, s) && Careful(w, s)
    requires !s.StageDone? && !s.StageLost?
    ensures True(Next(w, s))
  {
    match s
    case Inspected(e, meta) => InspectStays(w, e, meta);
    case SaveDone(e) => SaveStays(w, e);
    case WriteDone(e, reply, outcome) => WriteDoneStays(w, e, reply, outcome);
    case WriteLost(_, _) => WriteLostStays(w, s);
    case Settle(i, commit) => SettleStays(w, i, commit);
    case _ => MoveStays(w, s);
  }

  /** A non-batch engine never stands where an atomic stage would be called. */
  lemma NeverStages(w: World, s: Step)
    requires True(w) && Enabled(w, s)
    ensures !s.StageDone? && !s.StageLost?
  {
  }

  // ----- Result --------------------------------------------------------------------------------

  lemma {:induction false} CarefulRun(run: seq<World>, steps: seq<Step>, k: nat)
    requires IsRun(run, steps) && Starts(run[0]) && OneBusy(run[0]) && NonRepeatable(run[0])
    requires forall m {:trigger steps[m]} :: 0 <= m < |steps| ==> Careful(run[m], steps[m])
    requires k < |run|
    ensures True(run[k])
  {
    if k == 0 {
      StartOk(run[0]);
    } else {
      CarefulRun(run, steps, k - 1);
      NeverStages(run[k - 1], steps[k - 1]);
      StepStays(run[k - 1], steps[k - 1]);
    }
  }

  /**
   * Every action commits at the provider at most once, counting writes still on their way, and a
   * pending action never did.
   */
  lemma AtMostOnce(run: seq<World>, steps: seq<Step>, k: nat, i: nat)
    requires IsRun(run, steps) && Starts(run[0]) && OneBusy(run[0])
    requires !run[0].batch && !run[0].caps.idempotencyKey && !run[0].caps.idempotentWrite
    requires forall m {:trigger steps[m]} :: 0 <= m < |steps| ==> Careful(run[m], steps[m])
    requires k < |run| && i < |run[0].plan.actions|
    ensures i < |run[k].commits| && i < |run[k].unsettled| && i < |run[k].op.items|
    ensures run[k].commits[i] + run[k].unsettled[i] <= 1
    ensures run[k].op.items[i].status == Pending ==> run[k].commits[i] == 0 && run[k].unsettled[i] == 0
  {
    CarefulRun(run, steps, k);
    RunKeeps(run, steps, k);
    assert ItemTrue(run[k], run[k].op.items[i], i);
  }
}

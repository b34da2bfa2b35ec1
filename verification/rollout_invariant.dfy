/** What holds in every reachable world of the rollout machine, however many engines interleave. */
module RolloutInvariant {
  import opened Basics
  import opened RolloutJournal
  import opened RolloutMachine

  predicate SettledBelow(items: seq<Item>, i: nat) {
    i <= |items| && forall j :: 0 <= j < i ==> SettledStatus(items[j].status)
  }

  predicate CheckedBelow(items: seq<Item>, i: nat) {
    i <= |items| && forall j :: 0 <= j < i ==> Checked(items[j].status)
  }

  predicate LimitedBelow(items: seq<Item>, i: nat) {
    i <= |items| && exists j :: 0 <= j < i && items[j].status == Limited
  }

  predicate AllInFlight(items: seq<Item>) {
    forall i :: 0 <= i < |items| ==> items[i].status == InFlight
  }

  predicate Terminal(s: Status) { s == ReadyToDeploy || s == LimitedEvidence }

  predicate PointOk(batch: bool, op: Operation, p: Point) {
    && (p.SaveFinal? || !Terminal(op.status))
    && match p
       case Inspect => true
       case BatchTop(_) => batch
       case SaveBatchAttempt(_) => batch && AllInFlight(op.items)
       case CallStage(_) => batch && AllInFlight(op.items)
       case StageReplied(_, _) => batch && AllInFlight(op.items)
       case SaveStaged(_) => batch && AllSettled(op.items)
       case Top(_, i) => SettledBelow(op.items, i) && (batch ==> AllSettled(op.items))
       case SaveUnresolved => !batch
       case SaveResolved(_, i) =>
         !batch && i < |op.items| && SettledBelow(op.items, i) &&
         (op.items[i].status == Committed || op.items[i].status == Pending)
       case LoadValue(_, i) =>
         !batch && i < |op.items| && SettledBelow(op.items, i) && !SettledStatus(op.items[i].status)
       case SaveAttempt(_, i) =>
         !batch && i < |op.items| && SettledBelow(op.items, i) && op.items[i].status == InFlight
       case CallWrite(_, i) =>
         !batch && i < |op.items| && SettledBelow(op.items, i) && op.items[i].status == InFlight
       case WriteReplied(_, i, _) =>
         !batch && i < |op.items| && SettledBelow(op.items, i) && op.items[i].status == InFlight
       case SaveCommit(_, i) => !batch && i < |op.items| && SettledBelow(op.items, i + 1)
       case SaveFailure => true
       case SaveWritten => AllSettled(op.items)
       case AllWritten => AllSettled(op.items)
       case SaveVerifying => AllSettled(op.items)
       case VerifyTop(i, limited) =>
         AllSettled(op.items) && CheckedBelow(op.items, i) && limited == LimitedBelow(op.items, i)
       case CallVerify(i, limited) =>
         && AllSettled(op.items) && i < |op.items| && CheckedBelow(op.items, i)
         && limited == LimitedBelow(op.items, i)
       case VerifyReplied(i, limited, _) =>
         && AllSettled(op.items) && i < |op.items| && CheckedBelow(op.items, i)
         && limited == LimitedBelow(op.items, i)
       case SaveVerdict(i, limited) =>
         && AllSettled(op.items) && i < |op.items| && CheckedBelow(op.items, i + 1)
         && limited == LimitedBelow(op.items, i + 1)
       case SaveFinal => Terminal(op.status)
  }

  /** A pending save of an attempt carries one attempt more than the journal it was read from. */
  predicate Adds(p: Point, j: nat) { p.SaveBatchAttempt? || (p.SaveAttempt? && p.i == j) }

  predicate Follows(journal: Operation, op: Operation, p: Point) {
    && |op.items| == |journal.items|
    && (AsSaved(p) ==> op == journal)
    && forall j :: 0 <= j < |op.items| ==>
         op.items[j].attempts == journal.items[j].attempts + (if Adds(p, j) then 1 else 0)
  }

  predicate EngineOk(w: World, e: Engine) {
    e.Busy? ==>
      && Sound(e.op, w.plan, w.batch) && PointOk(w.batch, e.op, e.point)
      && e.op.id == w.op.id && e.op.createdAt == w.op.createdAt
      && e.revision <= w.revision
      && (e.revision == w.revision ==> Follows(w.op, e.op, e.point))
  }

  /** An engine holds a permit for an action between saving an attempt and making the call. */
  predicate Holds(e: Engine, j: nat) {
    e.Busy? && j < |e.op.items| && (e.point.CallStage? || (e.point.CallWrite? && e.point.i == j))
  }

  predicate IssuedOk(w: World) {
    && (forall k :: 0 <= k < |w.issued| ==>
          && w.issued[k].item < |w.op.items|
          && 1 <= w.issued[k].attempt <= w.op.items[w.issued[k].item].attempts)
    && Distinct(w.issued)
  }

  /** A permit's attempt number is within the journal's, and no call has carried it yet. */
  predicate PermitOk(w: World, e: nat, j: nat) {
    e in w.engines && Holds(w.engines[e], j) ==>
      && j < |w.op.items|
      && 1 <= w.engines[e].op.items[j].attempts <= w.op.items[j].attempts
      && Issue(j, w.engines[e].op.items[j].attempts) !in w.issued
  }

  predicate ApartOk(w: World, e: nat, f: nat, j: nat) {
    e in w.engines && f in w.engines && e != f && Holds(w.engines[e], j) && Holds(w.engines[f], j) ==>
      w.engines[e].op.items[j].attempts != w.engines[f].op.items[j].attempts
  }

  ghost predicate PermitsOk(w: World) {
    && (forall e: nat, j: nat :: PermitOk(w, e, j))
    && (forall e: nat, f: nat, j: nat :: ApartOk(w, e, f, j))
  }

  ghost predicate Inv(w: World) {
    && ValidPlan(w.plan)
    && Sound(w.op, w.plan, w.batch)
    && |w.commits| == |w.unsettled| == |w.plan.actions|
    && (forall e :: e in w.engines ==> EngineOk(w, w.engines[e]))
    && IssuedOk(w)
    && PermitsOk(w)
  }

  // ----- One engine's own move -----------------------------------------------------------------

  /** Replacing one item keeps an operation sound where everything before it is settled. */
  lemma SetItem(op: Operation, i: nat, item: Item, status: Status, now: Time, plan: Plan, batch: bool)
    requires Sound(op, plan, batch) && i < |op.items| && SettledBelow(op.items, i)
    requires ItemOk(item, plan.actions[i], op.id, plan.binding.target)
    requires SettledStatus(item.status) || !SettledStatus(op.items[i].status)
    requires batch ==> AllSettled(op.items) && SettledStatus(item.status) &&
                       item.write == op.items[i].write && item.attempts == op.items[i].attempts
    requires now >= op.createdAt && !Terminal(status)
    ensures Sound(op.(items := op.items[i := item], status := status, updatedAt := now), plan, batch)
  {
    var items := op.items[i := item];
    forall j | 0 <= j < |items| ensures ItemOk(items[j], plan.actions[j], op.id, plan.binding.target) {
      assert ItemOk(op.items[j], plan.actions[j], op.id, plan.binding.target);
    }
    if batch {
      assert Uniform(op.items);
      assert forall j :: 0 <= j < |items| ==> SettledStatus(items[j].status) && items[j].write == op.items[j].write;
      assert Uniform(items);
    } else {
      assert InOrder(op.items);
      assert InOrder(items);
    }
  }

  lemma SetStatus(op: Operation, status: Status, now: Time, plan: Plan, batch: bool)
    requires Sound(op, plan, batch) && now >= op.createdAt && !Terminal(status)
    ensures Sound(op.(status := status, updatedAt := now), plan, batch)
  {
    var to := op.(status := status, updatedAt := now);
    assert forall i :: 0 <= i < |to.items| ==> ItemOk(to.items[i], plan.actions[i], to.id, plan.binding.target);
  }

  /** Replacing every item of an atomic batch by its image. */
  lemma SetItems(op: Operation, f: Item -> Item, status: Status, now: Time, plan: Plan)
    requires Sound(op, plan, true) && now >= op.createdAt && !Terminal(status)
    requires forall i :: 0 <= i < |op.items| ==>
               ItemOk(f(op.items[i]), plan.actions[i], op.id, plan.binding.target)
    requires Uniform(MapItems(op.items, f))
    ensures Sound(op.(items := MapItems(op.items, f), status := status, updatedAt := now), plan, true)
  {
    var items := MapItems(op.items, f);
    forall j | 0 <= j < |items| ensures ItemOk(items[j], plan.actions[j], op.id, plan.binding.target) {
      assert items[j] == f(op.items[j]);
    }
  }

  lemma DecideBatch(w: World, e: Engine, now: Time)
    requires e.Busy? && EngineOk(w, e) && e.point.BatchTop? && now >= w.op.createdAt
    ensures EngineOk(w, AtBatchTop(e, now))
    ensures forall j: nat :: !Holds(AtBatchTop(e, now), j)
  {
    if !AllSettled(e.op.items) && NoneSettled(e.op.items) {
      var f := (item: Item) => Attempted(item, now);
      forall i | 0 <= i < |e.op.items|
        ensures ItemOk(f(e.op.items[i]), w.plan.actions[i], e.op.id, w.plan.binding.target)
      {
        assert ItemOk(e.op.items[i], w.plan.actions[i], e.op.id, w.plan.binding.target);
      }
      SetItems(e.op, f, Writing, now, w.plan);
    }
  }

  /** Reconciliation hands back a sound item: committed with evidence, or pending without. */
  lemma ReconcileOk(item: Item, meta: Metadata, now: Time, action: Action, id: string, target: Target)
    requires ItemOk(item, action, id, target) && item.status == InFlight
    ensures Reconcile(item, meta, now).Some? ==>
              var to := Reconcile(item, meta, now).value;
              && ItemOk(to, action, id, target) && to.attempts == item.attempts
              && (to.status == Committed || to.status == Pending)
  {
  }

  /** A decision taken on a saved operation leaves an engine in order. */
  lemma Assemble(w: World, e: Engine, to: Engine)
    requires e.Busy? && EngineOk(w, e) && AsSaved(e.point)
    requires to.Busy? && Sound(to.op, w.plan, w.batch) && PointOk(w.batch, to.op, to.point)
    requires to.op.id == e.op.id && to.op.createdAt == e.op.createdAt && to.revision == e.revision
    requires AsSaved(to.point) ==> to.op == e.op
    requires |to.op.items| == |e.op.items|
    requires forall j :: 0 <= j < |to.op.items| ==>
               to.op.items[j].attempts == e.op.items[j].attempts + (if Adds(to.point, j) then 1 else 0)
    ensures EngineOk(w, to)
  {
    hide Sound, PointOk;
  }

  lemma TopSound(w: World, e: Engine, now: Time)
    requires e.Busy? && EngineOk(w, e) && e.point.Top? && now >= w.op.createdAt
    ensures Sound(AtTop(w.caps, e, now).op, w.plan, w.batch)
  {
    var i, op := e.point.i, e.op;
    if i >= |op.items| {
      SetStatus(op, Written, now, w.plan, w.batch);
    } else if !SettledStatus(op.items[i].status) && op.items[i].status == InFlight && !Retriable(w.caps) {
      assert ItemOk(op.items[i], w.plan.actions[i], op.id, w.plan.binding.target);
      ReconcileOk(op.items[i], e.point.meta, now, w.plan.actions[i], op.id, w.plan.binding.target);
      hide Reconcile, ItemOk;
      match Reconcile(op.items[i], e.point.meta, now)
      case None => SetStatus(op, Reconciliation, now, w.plan, w.batch);
      case Some(item) => SetItem(op, i, item, op.status, now, w.plan, w.batch);
    }
  }

  lemma EngineParts(w: World, e: Engine)
    requires e.Busy? && EngineOk(w, e)
    ensures Sound(e.op, w.plan, w.batch) && PointOk(w.batch, e.op, e.point)
  {
    hide Sound, PointOk, Follows;
  }

  lemma ItemResolves(w: World, e: Engine, now: Time)
    requires e.Busy? && Sound(e.op, w.plan, w.batch) && e.point.Top? && e.point.i < |e.op.items|
    requires e.op.items[e.point.i].status == InFlight
    ensures var to := Reconcile(e.op.items[e.point.i], e.point.meta, now);
            to.Some? ==> to.value.attempts == e.op.items[e.point.i].attempts &&
                         (to.value.status == Committed || to.value.status == Pending)
  {
    var i, op := e.point.i, e.op;
    assert ItemOk(op.items[i], w.plan.actions[i], op.id, w.plan.binding.target);
    hide Sound;
    ReconcileOk(op.items[i], e.point.meta, now, w.plan.actions[i], op.id, w.plan.binding.target);
  }

  /** Where the top of the loop leads, and with which attempts. */
  lemma TopPoint(w: World, e: Engine, now: Time)
    requires e.Busy? && Sound(e.op, w.plan, w.batch) && PointOk(w.batch, e.op, e.point) && e.point.Top?
    ensures var to := AtTop(w.caps, e, now);
            && to.Busy? && PointOk(w.batch, to.op, to.point) && |to.op.items| == |e.op.items|
            && (AsSaved(to.point) ==> to.op == e.op) && !to.point.CallStage? && !to.point.CallWrite?
            && forall j :: 0 <= j < |to.op.items| ==>
                 !Adds(to.point, j) && to.op.items[j].attempts == e.op.items[j].attempts
  {
    hide Sound, Reconcile;
    if e.point.i < |e.op.items| && e.op.items[e.point.i].status == InFlight { ItemResolves(w, e, now); }
  }

  lemma DecideTop(w: World, e: Engine, now: Time)
    requires e.Busy? && EngineOk(w, e) && e.point.Top? && now >= w.op.createdAt
    ensures EngineOk(w, AtTop(w.caps, e, now))
    ensures forall j: nat :: !Holds(AtTop(w.caps, e, now), j)
  {
    TopSound(w, e, now);
    EngineParts(w, e);
    TopPoint(w, e, now);
    TopKeepsIdentity(w, e, now);
    hide EngineOk, AtTop, PointOk, Sound, Adds;
    Assemble(w, e, AtTop(w.caps, e, now));
  }

  lemma TopKeepsIdentity(w: World, e: Engine, now: Time)
    requires e.Busy? && e.point.Top?
    ensures var to := AtTop(w.caps, e, now);
            to.Busy? && to.op.id == e.op.id && to.op.createdAt == e.op.createdAt && to.revision == e.revision
  {
    hide Reconcile;
  }

  lemma DecideLoad(w: World, e: Engine, now: Time)
    requires e.Busy? && EngineOk(w, e) && e.point.LoadValue? && now >= w.op.createdAt
    ensures EngineOk(w, AtLoaded(e, now))
    ensures forall j: nat :: !Holds(AtLoaded(e, now), j)
  {
    var i, op := e.point.i, e.op;
    assert ItemOk(op.items[i], w.plan.actions[i], op.id, w.plan.binding.target);
    SetItem(op, i, Attempted(op.items[i], now), Writing, now, w.plan, w.batch);
  }

  lemma VerdictPoint(batch: bool, op: Operation, to: Operation, i: nat, limited: bool, item: Item)
    requires AllSettled(op.items) && i < |op.items| && CheckedBelow(op.items, i)
    requires limited == LimitedBelow(op.items, i) && Checked(item.status)
    requires to.items == op.items[i := item] && !Terminal(to.status)
    ensures PointOk(batch, to, SaveVerdict(i, limited || item.status == Limited))
  {
    LimitedAfter(op.items, i, item);
  }

  lemma VerdictOk(w: World, e: Engine, evidence: VerifyEvidence, now: Time)
    requires e.Busy? && EngineOk(w, e) && (e.point.VerifyTop? || e.point.VerifyReplied?)
    requires e.point.i < |e.op.items| && ValidVerifyEvidence(evidence) && now >= w.op.createdAt
    ensures var i := e.point.i;
            var to := e.(op := e.op.(items := e.op.items[i := WithEvidence(e.op.items[i], evidence)], updatedAt := now),
                         point := SaveVerdict(i, e.point.limited || evidence.result != ProvedVerified));
            EngineOk(w, to)
  {
    var i, op := e.point.i, e.op;
    var item := WithEvidence(op.items[i], evidence);
    var to := op.(items := op.items[i := item], updatedAt := now);
    assert ItemOk(op.items[i], w.plan.actions[i], op.id, w.plan.binding.target);
    assert Sound(to, w.plan, w.batch) by { hide Follows; SetItem(op, i, item, op.status, now, w.plan, w.batch); }
    hide Sound, ItemOk, Follows, LimitedBelow;
    VerdictPoint(w.batch, op, to, i, e.point.limited, item);
    hide PointOk;
    Assemble(w, e, e.(op := to, point := SaveVerdict(i, e.point.limited || item.status == Limited)));
  }

  lemma DecideVerify(w: World, e: Engine, now: Time)
    requires e.Busy? && EngineOk(w, e) && e.point.VerifyTop? && now >= w.op.createdAt
    ensures EngineOk(w, AtVerifyTop(w.caps, e, now))
    ensures forall j: nat :: !Holds(AtVerifyTop(w.caps, e, now), j)
  {
    var i, op := e.point.i, e.op;
    if i >= |op.items| {
      hide EngineOk;
      FinalOk(w, e, now);
    } else if op.items[i].status != Verified && !w.caps.validate {
      hide EngineOk;
      VerdictOk(w, e, Unsupported(now), now);
    } else {
      hide EngineOk, Holds;
      VerifyMoves(w, e, now);
    }
    hide EngineOk, Sound;
  }

  /** An item that is verified already is passed over; another one is verified by a call. */
  lemma VerifyMoves(w: World, e: Engine, now: Time)
    requires e.Busy? && EngineOk(w, e) && e.point.VerifyTop? && e.point.i < |e.op.items|
    requires e.op.items[e.point.i].status == Verified || w.caps.validate
    ensures EngineOk(w, AtVerifyTop(w.caps, e, now))
  {
    EngineParts(w, e);
    VerifyPoint(w, e, now);
    hide Sound, PointOk, Follows, EngineOk;
    Assemble(w, e, AtVerifyTop(w.caps, e, now));
  }

  lemma VerifyPoint(w: World, e: Engine, now: Time)
    requires e.Busy? && Sound(e.op, w.plan, w.batch) && PointOk(w.batch, e.op, e.point)
    requires e.point.VerifyTop? && e.point.i < |e.op.items|
    requires e.op.items[e.point.i].status == Verified || w.caps.validate
    ensures var to := AtVerifyTop(w.caps, e, now);
            to.Busy? && Sound(to.op, w.plan, w.batch) && PointOk(w.batch, to.op, to.point)
  {
    hide Sound, AllSettled;
    if e.op.items[e.point.i].status == Verified { OneMoreChecked(e.op.items, e.point.i); }
    hide CheckedBelow, LimitedBelow;
  }

  lemma OneMoreChecked(items: seq<Item>, i: nat)
    requires CheckedBelow(items, i) && i < |items| && items[i].status == Verified
    ensures CheckedBelow(items, i + 1) && (LimitedBelow(items, i + 1) <==> LimitedBelow(items, i))
  {
  }

  lemma FinalOk(w: World, e: Engine, now: Time)
    requires e.Busy? && EngineOk(w, e) && e.point.VerifyTop? && e.point.i >= |e.op.items|
    requires now >= w.op.createdAt
    ensures EngineOk(w, AtVerifyTop(w.caps, e, now))
  {
    var to := AtVerifyTop(w.caps, e, now);
    assert LimitedBelow(e.op.items, e.point.i) <==> AnyLimited(e.op.items);
    assert forall j :: 0 <= j < |to.op.items| ==>
      ItemOk(to.op.items[j], w.plan.actions[j], to.op.id, w.plan.binding.target);
  }

  lemma AnsweredSound(w: World, e: Engine, now: Time)
    requires e.Busy? && EngineOk(w, e) && e.point.WriteReplied? && now >= w.op.createdAt
    requires e.point.i < |e.op.items|
    ensures Answered(w.caps, e, now).Busy? ==> Sound(Answered(w.caps, e, now).op, w.plan, w.batch)
  {
    var i, op := e.point.i, e.op;
    assert ItemOk(op.items[i], w.plan.actions[i], op.id, w.plan.binding.target);
    hide Follows;
    match e.point.reply
    case Refused(raw) =>
      var error := SanitizeError("write", raw);
      SetItem(op, i, AfterRefusal(op.items[i], error), RefusalStatus(error, w.caps), now, w.plan, w.batch);
    case Accepted(raw) =>
      if ValidWriteEvidence(Filled(raw, now)) {
        SetItem(op, i, Committing(op.items[i], Filled(raw, now)), op.status, now, w.plan, w.batch);
      }
  }

  lemma AnsweredOk(w: World, e: Engine, now: Time)
    requires e.Busy? && EngineOk(w, e) && e.point.WriteReplied? && now >= w.op.createdAt
    requires e.point.i < |e.op.items|
    ensures EngineOk(w, Answered(w.caps, e, now))
    ensures forall j: nat :: !Holds(Answered(w.caps, e, now), j)
  {
    AnsweredSound(w, e, now);
    hide Sound, SanitizeError, ValidWriteEvidence;
    if Answered(w.caps, e, now).Busy? { Assemble(w, e, Answered(w.caps, e, now)); }
  }

  lemma StagedSound(w: World, e: Engine, now: Time)
    requires e.Busy? && EngineOk(w, e) && e.point.StageReplied? && now >= w.op.createdAt
    ensures Staged(e, now).Busy? ==> Sound(Staged(e, now).op, w.plan, w.batch)
  {
    var op := e.op;
    match e.point.reply
    case Refused(raw) =>
      var error := SanitizeError("stage", raw);
      var f := (item: Item) => AfterStageRefusal(item, error);
      forall i | 0 <= i < |op.items|
        ensures ItemOk(f(op.items[i]), w.plan.actions[i], op.id, w.plan.binding.target)
      {
        assert ItemOk(op.items[i], w.plan.actions[i], op.id, w.plan.binding.target);
      }
      SetItems(op, f, StageRefusalStatus(error), now, w.plan);
    case Accepted(raw) =>
      var evidence := Filled(raw, now);
      if evidence.providerOperation != "" && ValidWriteEvidence(evidence) {
        var f := (item: Item) => Committing(item, evidence);
        forall i | 0 <= i < |op.items|
          ensures ItemOk(f(op.items[i]), w.plan.actions[i], op.id, w.plan.binding.target)
        {
          assert ItemOk(op.items[i], w.plan.actions[i], op.id, w.plan.binding.target);
        }
        SetItems(op, f, Written, now, w.plan);
      }
  }

  lemma StagedOk(w: World, e: Engine, now: Time)
    requires e.Busy? && EngineOk(w, e) && e.point.StageReplied? && now >= w.op.createdAt
    ensures EngineOk(w, Staged(e, now))
    ensures forall j: nat :: !Holds(Staged(e, now), j)
  {
    StagedSound(w, e, now);
    hide Sound, SanitizeError;
    if Staged(e, now).Busy? { Assemble(w, e, Staged(e, now)); }
  }

  lemma VerifiedOk(w: World, e: Engine, now: Time)
    requires e.Busy? && EngineOk(w, e) && e.point.VerifyReplied? && now >= w.op.createdAt
    requires e.point.i < |e.op.items|
    ensures EngineOk(w, VerifiedTo(e, now))
    ensures forall j: nat :: !Holds(VerifiedTo(e, now), j)
  {
    match e.point.answer
    case Unverified(raw) => UnverifiedOk(w, e, now);
    case Evidence(raw) =>
      var evidence := raw.(verifiedAt := FillStamp(raw.verifiedAt, now));
      hide EngineOk;
      if ValidVerifyEvidence(evidence) { VerdictOk(w, e, evidence, now); }
      else { IdleOk(w); }
  }

  lemma IdleOk(w: World)
    ensures EngineOk(w, Idle)
  {
  }

  lemma UnverifiedOk(w: World, e: Engine, now: Time)
    requires e.Busy? && EngineOk(w, e) && e.point.VerifyReplied? && now >= w.op.createdAt
    requires e.point.i < |e.op.items| && e.point.answer.Unverified?
    ensures EngineOk(w, VerifiedTo(e, now))
  {
    var i, op := e.point.i, e.op;
    EngineParts(w, e);
    UnverifiedSound(w, e, now);
    hide Sound, SanitizeError, EngineOk, SettledBelow, AllSettled, CheckedBelow, LimitedBelow;
    Assemble(w, e, VerifiedTo(e, now));
  }

  lemma UnverifiedSound(w: World, e: Engine, now: Time)
    requires e.Busy? && Sound(e.op, w.plan, w.batch) && PointOk(w.batch, e.op, e.point) && e.point.VerifyReplied?
    requires now >= w.op.createdAt == e.op.createdAt && e.point.i < |e.op.items| && e.point.answer.Unverified?
    ensures VerifiedTo(e, now).Busy? && Sound(VerifiedTo(e, now).op, w.plan, w.batch)
  {
    var i, op := e.point.i, e.op;
    var error := SanitizeError("verify", e.point.answer.error);
    assert ItemOk(op.items[i], w.plan.actions[i], op.id, w.plan.binding.target);
    hide Sound;
    SetItem(op, i, op.items[i].(lastError := Some(error)),
            if error.retry == Never then Failed else Retryable, now, w.plan, w.batch);
  }

  lemma AllWrittenOk(w: World, e: Engine, now: Time)
    requires e.Busy? && EngineOk(w, e) && e.point.AllWritten? && now >= w.op.createdAt
    ensures EngineOk(w, AtAllWritten(e, now))
    ensures forall j: nat :: !Holds(AtAllWritten(e, now), j)
  {
    SetStatus(e.op, Verifying, now, w.plan, w.batch);
  }

  lemma DecideOk(w: World, e: Engine, now: Time)
    requires e.Busy? && EngineOk(w, e) && Decides(e.point) && now >= w.op.createdAt
    ensures EngineOk(w, Decide(w.caps, e, now))
    ensures forall j: nat :: !Holds(Decide(w.caps, e, now), j)
  {
    assert e.point.WriteReplied? || e.point.VerifyReplied? ==> e.point.i < |e.op.items|;
    hide EngineOk, Holds, AtBatchTop, AtTop, AtLoaded, AtVerifyTop, AtAllWritten, Staged, Answered, VerifiedTo;
    if e.point.BatchTop? { DecideBatch(w, e, now); }
    else if e.point.Top? { DecideTop(w, e, now); }
    else if e.point.LoadValue? { DecideLoad(w, e, now); }
    else if e.point.VerifyTop? { DecideVerify(w, e, now); }
    else if e.point.AllWritten? { AllWrittenOk(w, e, now); }
    else if e.point.StageReplied? { StagedOk(w, e, now); }
    else if e.point.WriteReplied? { AnsweredOk(w, e, now); }
    else { VerifiedOk(w, e, now); }
  }

  lemma LimitedAfter(items: seq<Item>, i: nat, item: Item)
    requires i < |items|
    ensures LimitedBelow(items[i := item], i + 1) <==> LimitedBelow(items, i) || item.status == Limited
  {
    if LimitedBelow(items, i) {
      var j :| 0 <= j < i && items[j].status == Limited;
      assert items[i := item][j].status == Limited;
    }
    if item.status == Limited { assert items[i := item][i].status == Limited; }
  }

  lemma SavedPoint(plan: Plan, batch: bool, e: Engine)
    requires e.Busy? && Sound(e.op, plan, batch) && PointOk(batch, e.op, e.point)
    requires !AsSaved(e.point)
    ensures var to := Saved(e);
            to.Busy? ==> Sound(to.op, plan, batch) && PointOk(batch, to.op, to.point)
  {
  }

  lemma SavedOk(w: World, e: nat)
    requires e in w.engines && EngineOk(w, w.engines[e]) && Enabled(w, SaveDone(e))
    ensures var w' := Next(w, SaveDone(e));
            && Sound(w'.op, w'.plan, w'.batch) && w'.op.id == w.op.id && w'.op.createdAt == w.op.createdAt
            && EngineOk(w', w'.engines[e])
            && |w'.op.items| == |w.op.items|
            && (forall j :: 0 <= j < |w.op.items| ==> w.op.items[j].attempts <= w'.op.items[j].attempts)
            && (forall j: nat :: Holds(w'.engines[e], j) ==>
                  && j < |w.op.items|
                  && w'.engines[e].op.items[j].attempts == w'.op.items[j].attempts
                  && w.op.items[j].attempts < w'.op.items[j].attempts)
  {
    SavedPoint(w.plan, w.batch, w.engines[e]);
    hide Sound, PointOk;
  }

  // ----- Every step keeps the invariant --------------------------------------------------------

  /** A step that leaves the journal and the calls alone, and moves one engine where it holds nothing. */
  lemma QuietMove(w: World, w': World, e: nat, to: Engine)
    requires Inv(w) && EngineOk(w, to) && (forall j: nat :: !Holds(to, j))
    requires w'.plan == w.plan && w'.batch == w.batch && w'.op == w.op && w'.revision == w.revision
    requires |w'.commits| == |w.commits| && |w'.unsettled| == |w.unsettled|
    requires w'.issued == w.issued && w'.engines == w.engines[e := to]
    ensures Inv(w')
  {
    hide Sound, PointOk, Follows;
    forall f | f in w'.engines ensures EngineOk(w', w'.engines[f]) {
      assert f != e ==> EngineOk(w, w.engines[f]);
    }
    assert PermitsOk(w') by { hide EngineOk, Holds; QuietPermits(w, w', e, to); }
  }

  lemma QuietPermits(w: World, w': World, e: nat, to: Engine)
    requires PermitsOk(w) && (forall j: nat :: !Holds(to, j))
    requires w'.op == w.op && w'.issued == w.issued && w'.engines == w.engines[e := to]
    ensures PermitsOk(w')
  {
    forall f: nat, j: nat ensures PermitOk(w', f, j) { assert PermitOk(w, f, j); }
    forall f: nat, g: nat, j: nat ensures ApartOk(w', f, g, j) { assert ApartOk(w, f, g, j); }
  }

  /** A call: the caller's permits are spent and recorded. */
  lemma CallMove(w: World, w': World, e: nat, to: Engine, calls: seq<Issue>)
    requires Inv(w) && e in w.engines && EngineOk(w, to) && (forall j: nat :: !Holds(to, j))
    requires w'.plan == w.plan && w'.batch == w.batch && w'.op == w.op && w'.revision == w.revision
    requires |w'.commits| == |w.commits| && |w'.unsettled| == |w.unsettled|
    requires w'.issued == w.issued + calls && w'.engines == w.engines[e := to]
    requires forall k :: 0 <= k < |calls| ==>
               && Holds(w.engines[e], calls[k].item)
               && calls[k].attempt == w.engines[e].op.items[calls[k].item].attempts
    requires forall k, m :: 0 <= k < m < |calls| ==> calls[k].item != calls[m].item
    ensures Inv(w')
  {
    hide Sound, PointOk, Follows;
    forall f | f in w'.engines ensures EngineOk(w', w'.engines[f]) {
      assert f != e ==> EngineOk(w, w.engines[f]);
    }
    hide EngineOk;
    CallIssued(w, w', e, calls);
    CallPermits(w, w', e, to, calls);
  }

  lemma CallIssued(w: World, w': World, e: nat, calls: seq<Issue>)
    requires IssuedOk(w) && PermitsOk(w) && e in w.engines && w'.op == w.op && w'.issued == w.issued + calls
    requires forall k :: 0 <= k < |calls| ==>
               && Holds(w.engines[e], calls[k].item)
               && calls[k].attempt == w.engines[e].op.items[calls[k].item].attempts
    requires forall k, m :: 0 <= k < m < |calls| ==> calls[k].item != calls[m].item
    ensures IssuedOk(w')
  {
    forall k | 0 <= k < |calls|
      ensures calls[k] !in w.issued && calls[k].item < |w.op.items|
      ensures 1 <= calls[k].attempt <= w.op.items[calls[k].item].attempts
    {
      assert PermitOk(w, e, calls[k].item);
    }
    forall k, m | 0 <= k < m < |w'.issued| ensures w'.issued[k] != w'.issued[m] {
      if k < |w.issued| <= m { assert w'.issued[m] == calls[m - |w.issued|]; }
    }
  }

  lemma CallPermits(w: World, w': World, e: nat, to: Engine, calls: seq<Issue>)
    requires PermitsOk(w) && e in w.engines && (forall j: nat :: !Holds(to, j))
    requires w'.op == w.op && w'.issued == w.issued + calls && w'.engines == w.engines[e := to]
    requires forall k :: 0 <= k < |calls| ==>
               && Holds(w.engines[e], calls[k].item)
               && calls[k].attempt == w.engines[e].op.items[calls[k].item].attempts
    ensures PermitsOk(w')
  {
    forall f: nat, j: nat ensures PermitOk(w', f, j) {
      assert PermitOk(w, f, j);
      if f in w'.engines && Holds(w'.engines[f], j) {
        assert ApartOk(w, e, f, j);
        assert forall k :: 0 <= k < |calls| ==> calls[k] != Issue(j, w.engines[f].op.items[j].attempts);
      }
    }
    forall f: nat, g: nat, j: nat ensures ApartOk(w', f, g, j) { assert ApartOk(w, f, g, j); }
  }

  /** What a save does to attempts and permits: only the saver may gain one, and it is a fresh number. */
  ghost predicate SavedBy(w: World, w': World, e: nat) {
    && e in w.engines && e in w'.engines
    && w'.issued == w.issued && w'.engines == w.engines[e := w'.engines[e]]
    && |w'.op.items| == |w.op.items|
    && (forall j :: 0 <= j < |w.op.items| ==> w.op.items[j].attempts <= w'.op.items[j].attempts)
    && (forall j: nat :: Holds(w'.engines[e], j) ==>
          && j < |w.op.items|
          && w'.engines[e].op.items[j].attempts == w'.op.items[j].attempts
          && w.op.items[j].attempts < w'.op.items[j].attempts)
  }

  lemma SaveKeepsPermits(w: World, w': World, e: nat)
    requires IssuedOk(w) && PermitsOk(w) && SavedBy(w, w', e)
    ensures IssuedOk(w') && PermitsOk(w')
  {
    assert forall k :: 0 <= k < |w.issued| ==>
      w.op.items[w.issued[k].item].attempts <= w'.op.items[w.issued[k].item].attempts;
    forall f: nat, j: nat ensures PermitOk(w', f, j) { PermitKept(w, w', e, f, j); }
    forall f: nat, g: nat, j: nat ensures ApartOk(w', f, g, j) { PermitsApart(w, w', e, f, g, j); }
  }

  lemma PermitKept(w: World, w': World, e: nat, f: nat, j: nat)
    requires IssuedOk(w) && PermitOk(w, f, j) && SavedBy(w, w', e)
    ensures PermitOk(w', f, j)
  {
    if f == e && Holds(w'.engines[e], j) {
      var before: nat := w.op.items[j].attempts;
      assert forall k :: 0 <= k < |w.issued| ==> w.issued[k].attempt <= w.op.items[w.issued[k].item].attempts;
    } else if f in w'.engines && Holds(w'.engines[f], j) {
      assert w.op.items[j].attempts <= w'.op.items[j].attempts;
    }
  }

  lemma PermitsApart(w: World, w': World, e: nat, f: nat, g: nat, j: nat)
    requires PermitOk(w, f, j) && PermitOk(w, g, j) && ApartOk(w, f, g, j) && SavedBy(w, w', e)
    ensures ApartOk(w', f, g, j)
  {
  }

  lemma SaveKeeps(w: World, e: nat)
    requires Inv(w) && Enabled(w, SaveDone(e))
    ensures Inv(Next(w, SaveDone(e)))
  {
    var w' := Next(w, SaveDone(e));
    SavedOk(w, e);
    assert SavedBy(w, w', e);
    SaveKeepsPermits(w, w', e);
    forall f | f in w'.engines ensures EngineOk(w', w'.engines[f]) {
      if f != e { assert EngineOk(w, w.engines[f]); }
    }
  }

  lemma WriteKeeps(w: World, e: nat, outcome: Outcome, to: Engine)
    requires Inv(w) && Calling(w, e) && EngineOk(w, to) && (forall j: nat :: !Holds(to, j))
    ensures Inv(Move(Issued(Provided(w, w.engines[e].point.i, outcome), WriteIssues(w.engines[e])), e, to))
  {
    var calls := WriteIssues(w.engines[e]);
    CallMove(w, Move(Issued(Provided(w, w.engines[e].point.i, outcome), calls), e, to), e, to, calls);
  }

  lemma StageKeeps(w: World, e: nat, outcome: Outcome, to: Engine)
    requires Inv(w) && Enabled(w, StageLost(e, outcome)) && EngineOk(w, to) && (forall j: nat :: !Holds(to, j))
    ensures Inv(Move(Issued(ProvidedAll(w, outcome), StageIssues(w.engines[e].op)), e, to))
  {
    var calls := StageIssues(w.engines[e].op);
    CallMove(w, Move(Issued(ProvidedAll(w, outcome), calls), e, to), e, to, calls);
  }

  lemma SettleKeeps(w: World, i: nat, commit: bool)
    requires Inv(w) && Enabled(w, Settle(i, commit))
    ensures Inv(Next(w, Settle(i, commit)))
  {
    hide Sound, PointOk, Follows, Holds;
    var w' := Next(w, Settle(i, commit));
    forall f | f in w'.engines ensures EngineOk(w', w'.engines[f]) { assert EngineOk(w, w.engines[f]); }
    forall f: nat, j: nat ensures PermitOk(w', f, j) { assert PermitOk(w, f, j); }
    forall f: nat, g: nat, j: nat ensures ApartOk(w', f, g, j) { assert ApartOk(w, f, g, j); }
  }

  lemma ResumeOk(w: World)
    requires Sound(w.op, w.plan, w.batch) && !Finished(w.op.status)
    ensures EngineOk(w, Busy(w.op, w.revision, Inspect))
  {
    hide Sound;
  }

  lemma InspectedOk(w: World, e: Engine, meta: Metadata)
    requires e.Busy? && EngineOk(w, e) && e.point.Inspect?
    ensures EngineOk(w, e.(point := if w.batch then BatchTop(meta) else Top(meta, 0)))
  {
    hide Sound;
  }

  lemma VerifyDoneOk(w: World, e: Engine, answer: VerifyReply)
    requires e.Busy? && EngineOk(w, e) && e.point.CallVerify?
    ensures EngineOk(w, e.(point := VerifyReplied(e.point.i, e.point.limited, answer)))
  {
    hide Sound, AllSettled, CheckedBelow, LimitedBelow;
  }

  lemma OneEngineOk(w: World, e: nat)
    requires Inv(w) && e in w.engines
    ensures EngineOk(w, w.engines[e])
  {
    hide EngineOk, PermitsOk, Sound;
  }

  lemma JournalSound(w: World)
    requires Inv(w)
    ensures Sound(w.op, w.plan, w.batch)
  {
    hide EngineOk, PermitsOk, Sound;
  }

  lemma EngineKeeps(w: World, s: Step)
    requires Inv(w) && Enabled(w, s)
    requires s.Resume? || s.Inspected? || s.Decided? || s.VerifyDone? || s.Stop?
    ensures Inv(Next(w, s))
  {
    hide Inv, EngineOk, Decide;
    if s.e in w.engines { OneEngineOk(w, s.e); }
    match s
    case Resume(e) =>
      JournalSound(w);
      ResumeOk(w);
      QuietMove(w, Next(w, s), e, Busy(w.op, w.revision, Inspect));
    case Inspected(e, meta) =>
      InspectedOk(w, w.engines[e], meta);
      QuietMove(w, Next(w, s), e, w.engines[e].(point := if w.batch then BatchTop(meta) else Top(meta, 0)));
    case Decided(e, now) =>
      hide Holds;
      DecideOk(w, w.engines[e], now);
      QuietMove(w, Next(w, s), e, Decide(w.caps, w.engines[e], now));
    case VerifyDone(e, answer) =>
      var at := w.engines[e];
      VerifyDoneOk(w, at, answer);
      QuietMove(w, Next(w, s), e, at.(point := VerifyReplied(at.point.i, at.point.limited, answer)));
    case Stop(e) =>
      IdleOk(w);
      QuietMove(w, Next(w, s), e, Idle);
  }

  lemma WriteRepliedOk(w: World, e: Engine, reply: WriteReply)
    requires e.Busy? && EngineOk(w, e) && e.point.CallWrite?
    ensures EngineOk(w, e.(point := WriteReplied(e.point.meta, e.point.i, reply)))
  {
    hide Sound, SettledBelow;
  }

  lemma StageRepliedOk(w: World, e: Engine, reply: WriteReply)
    requires e.Busy? && EngineOk(w, e) && e.point.CallStage?
    ensures EngineOk(w, e.(point := StageReplied(e.point.meta, reply)))
  {
    hide Sound, AllInFlight;
  }

  lemma StepKeeps(w: World, s: Step)
    requires Inv(w) && Enabled(w, s)
    ensures Inv(Next(w, s))
  {
    hide Inv, EngineOk;
    match s
    case SaveDone(e) => SaveKeeps(w, e);
    case WriteDone(e, reply, outcome) =>
      var at := w.engines[e];
      OneEngineOk(w, e);
      WriteRepliedOk(w, at, reply);
      WriteKeeps(w, e, outcome, at.(point := WriteReplied(at.point.meta, at.point.i, reply)));
    case WriteLost(e, outcome) =>
      IdleOk(w);
      WriteKeeps(w, e, outcome, Idle);
    case StageDone(e, reply, outcome) =>
      var at := w.engines[e];
      OneEngineOk(w, e);
      StageRepliedOk(w, at, reply);
      StageKeeps(w, e, outcome, at.(point := StageReplied(at.point.meta, reply)));
    case StageLost(e, outcome) =>
      IdleOk(w);
      StageKeeps(w, e, outcome, Idle);
    case Settle(i, commit) => SettleKeeps(w, i, commit);
    case _ => EngineKeeps(w, s);
  }

  lemma StartOk(w: World)
    requires Starts(w)
    ensures Inv(w)
  {
    assert Sound(w.op, w.plan, w.batch);
    assert forall e: nat, j: nat :: e in w.engines ==> !Holds(w.engines[e], j);
  }

  // ----- Results over whole runs ---------------------------------------------------------------

  lemma SameSetting(w: World, s: Step)
    requires Enabled(w, s)
    ensures Next(w, s).plan == w.plan && Next(w, s).batch == w.batch && Next(w, s).caps == w.caps
  {
  }

  lemma {:induction false} RunKeeps(run: seq<World>, steps: seq<Step>, k: nat)
    requires IsRun(run, steps) && Starts(run[0]) && k < |run|
    ensures Inv(run[k])
    ensures run[k].plan == run[0].plan && run[k].batch == run[0].batch && run[k].caps == run[0].caps
  {
    hide Inv, Starts, Next, Enabled;
    if k == 0 {
      StartOk(run[0]);
    } else {
      RunKeeps(run, steps, k - 1);
      StepKeeps(run[k - 1], steps[k - 1]);
      SameSetting(run[k - 1], steps[k - 1]);
    }
  }

  /**
   * Whatever an engine is about to save passes validation, matches the plan and has the journal's
   * shape: no save is ever refused for what it contains, only for the revision it expects.
   */
  lemma EverySaveIsSound(run: seq<World>, steps: seq<Step>, k: nat, e: nat)
    requires IsRun(run, steps) && Starts(run[0]) && k < |run| && Standing(run[k], e)
    ensures var op := run[k].engines[e].op;
            ValidOperation(op) && MatchesPlan(op, run[0].plan) && WellShaped(op.items, run[0].batch)
    ensures ValidOperation(run[k].op) && MatchesPlan(run[k].op, run[0].plan)
    ensures WellShaped(run[k].op.items, run[0].batch)
  {
    RunKeeps(run, steps, k);
    assert EngineOk(run[k], run[k].engines[e]);
    SoundIsValid(run[k].engines[e].op, run[0].plan, run[0].batch);
    SoundIsValid(run[k].op, run[0].plan, run[0].batch);
  }

  /** The attempt numbers of the calls made for one action, in order. */
  function AttemptsIssued(issued: seq<Issue>, item: nat): (r: seq<nat>)
    ensures forall k :: 0 <= k < |r| ==> Issue(item, r[k]) in issued
  {
    if issued == [] then []
    else AttemptsIssued(issued[..|issued| - 1], item) +
         (if issued[|issued| - 1].item == item then [issued[|issued| - 1].attempt] else [])
  }

  lemma {:induction false} AttemptsDistinct(issued: seq<Issue>, item: nat)
    requires Distinct(issued)
    ensures Distinct(AttemptsIssued(issued, item))
  {
    if issued != [] {
      var last := issued[|issued| - 1];
      var front := issued[..|issued| - 1];
      AttemptsDistinct(front, item);
      assert last !in front;
      var r := AttemptsIssued(front, item);
      assert forall k :: 0 <= k < |r| ==> Issue(item, r[k]) in front;
      assert last.item == item ==> last == Issue(item, last.attempt) && last.attempt !in r;
    }
  }

  /** However engines interleave, the calls made for an action never outnumber its saved attempts. */
  lemma CallsNeverOutnumberAttempts(run: seq<World>, steps: seq<Step>, k: nat, item: nat)
    requires IsRun(run, steps) && Starts(run[0]) && k < |run| && item < |run[k].op.items|
    ensures |AttemptsIssued(run[k].issued, item)| <= run[k].op.items[item].attempts
  {
    RunKeeps(run, steps, k);
    IssuedAreFew(run[k], item);
  }

  lemma IssuedAreFew(w: World, item: nat)
    requires IssuedOk(w) && item < |w.op.items|
    ensures |AttemptsIssued(w.issued, item)| <= w.op.items[item].attempts
  {
    var r := AttemptsIssued(w.issued, item);
    AttemptsDistinct(w.issued, item);
    forall j | 0 <= j < |r| ensures 1 <= r[j] <= w.op.items[item].attempts {
      assert Issue(item, r[j]) in w.issued;
    }
    DistinctAreFew(r, w.op.items[item].attempts);
  }
}

/**
 * The rollout engine as a state machine. Any number of engines work on one operation; each engine
 * is somewhere between two external effects, and the journal is a compare-and-set register.
 * A crash may happen anywhere: it only forgets where an engine was.
 */
module RolloutMachine {
  import opened Basics
  import opened RolloutJournal

  datatype Capabilities = Capabilities(validate: bool, idempotencyKey: bool, idempotentWrite: bool)

  predicate Retriable(caps: Capabilities) { caps.idempotencyKey || caps.idempotentWrite }

  /** Metadata for one action's variable; None when the provider does not list it. */
  datatype Variable = Variable(presence: Presence, lastWriteKey: Option<Digest>)

  type Metadata = map<(string, string), Variable>

  datatype WriteReply = Accepted(evidence: WriteEvidence) | Refused(error: AdapterError)

  datatype VerifyReply = Evidence(evidence: VerifyEvidence) | Unverified(error: AdapterError)

  /** Where an engine stands. The comment says what the accompanying operation is. */
  datatype Point =
    | Inspect                                  // as saved
    | BatchTop(meta: Metadata)                 // as saved
    | SaveBatchAttempt(meta: Metadata)         // to be saved
    | CallStage(meta: Metadata)                // as saved
    | StageReplied(meta: Metadata, reply: WriteReply)          // as saved
    | SaveStaged(meta: Metadata)               // to be saved
    | Top(meta: Metadata, i: nat)              // as saved
    | SaveUnresolved                           // to be saved
    | SaveResolved(meta: Metadata, i: nat)     // to be saved
    | LoadValue(meta: Metadata, i: nat)        // as saved
    | SaveAttempt(meta: Metadata, i: nat)      // to be saved
    | CallWrite(meta: Metadata, i: nat)        // as saved
    | WriteReplied(meta: Metadata, i: nat, reply: WriteReply)  // as saved
    | SaveCommit(meta: Metadata, i: nat)       // to be saved
    | SaveFailure                              // to be saved
    | SaveWritten                              // to be saved
    | AllWritten                               // as saved
    | SaveVerifying                            // to be saved
    | VerifyTop(i: nat, limited: bool)         // as saved
    | CallVerify(i: nat, limited: bool)        // as saved
    | VerifyReplied(i: nat, limited: bool, answer: VerifyReply) // as saved
    | SaveVerdict(i: nat, limited: bool)       // to be saved
    | SaveFinal                                // to be saved

  predicate AsSaved(p: Point) {
    p.Inspect? || p.BatchTop? || p.CallStage? || p.StageReplied? || p.Top? || p.LoadValue? ||
    p.CallWrite? || p.WriteReplied? || p.AllWritten? || p.VerifyTop? || p.CallVerify? || p.VerifyReplied?
  }

  datatype Engine = Idle | Busy(op: Operation, revision: nat, point: Point)

  /** One call that reached the provider: the action, and the attempt number it carried. */
  datatype Issue = Issue(item: nat, attempt: nat)

  datatype World = World(plan: Plan, caps: Capabilities, batch: bool,
                         op: Operation, revision: nat,          // the journal
                         engines: map<nat, Engine>,
                         commits: seq<nat>, unsettled: seq<nat>, // the provider, per action
                         issued: seq<Issue>)

  // ----- Local decisions -----------------------------------------------------------------------

  /** What metadata says about an in-flight action; None when it settles nothing. */
  function Reconcile(item: Item, meta: Metadata, now: Time): Option<Item> {
    var key := (item.action.service, item.action.name);
    var variable := if key in meta then meta[key] else Variable(Unknown, None);
    if variable.lastWriteKey == Some(item.writeKey) then
      var id := if item.write.Some? then item.write.value.providerOperation else "";
      Some(item.(write := Some(WriteEvidence(id, Clocked(now))), status := Committed))
    else if item.action.verb == Revoke && variable.presence == Absent then
      Some(item.(write := Some(WriteEvidence("", Clocked(now))), status := Committed))
    else if item.action.verb != Revoke && variable.presence == Absent then
      Some(item.(status := Pending))
    else None
  }

  function Attempted(item: Item, now: Time): Item {
    item.(status := InFlight, attempts := item.attempts + 1, lastAttemptAt := Some(now), lastError := None)
  }

  function FillStamp(stamp: Stamp, now: Time): Stamp {
    if stamp.Missing? then Clocked(now) else stamp
  }

  function Filled(evidence: WriteEvidence, now: Time): WriteEvidence {
    evidence.(committedAt := FillStamp(evidence.committedAt, now))
  }

  function Committing(item: Item, evidence: WriteEvidence): Item {
    item.(write := Some(evidence), status := Committed)
  }

  function AfterRefusal(item: Item, error: Error): Item {
    item.(lastError := Some(error),
          status := if error.retry == Safe || error.retry == Never then Pending else InFlight)
  }

  function RefusalStatus(error: Error, caps: Capabilities): Status {
    if error.retry == Never then Failed
    else if error.retry == Ambiguous && !Retriable(caps) then Reconciliation
    else Retryable
  }

  function StageRefusalStatus(error: Error): Status {
    if error.retry == Never then Failed
    else if error.retry == Ambiguous then Reconciliation
    else Retryable
  }

  function AfterStageRefusal(item: Item, error: Error): Item {
    item.(lastError := Some(error),
          status := if error.retry == Safe || error.retry == Never then Pending else item.status)
  }

  function WithEvidence(item: Item, evidence: VerifyEvidence): Item {
    item.(verify := Some(evidence),
          status := if evidence.result == ProvedVerified then Verified else Limited)
  }

  function Unsupported(now: Time): VerifyEvidence {
    VerifyEvidence(ProvedLimited, Unknown, Clocked(now))
  }

  function MapItems(items: seq<Item>, f: Item -> Item): (r: seq<Item>)
    ensures |r| == |items|
    ensures forall i :: 0 <= i < |items| ==> r[i] == f(items[i])
  {
    seq(|items|, i requires 0 <= i < |items| => f(items[i]))
  }

  predicate AllSettled(items: seq<Item>) {
    forall i :: 0 <= i < |items| ==> SettledStatus(items[i].status)
  }

  predicate NoneSettled(items: seq<Item>) {
    forall i :: 0 <= i < |items| ==> !SettledStatus(items[i].status)
  }

  /** Where an engine goes once a write answered. */
  function Answered(caps: Capabilities, e: Engine, now: Time): Engine
    requires e.Busy? && e.point.WriteReplied? && e.point.i < |e.op.items|
  {
    var i := e.point.i;
    match e.point.reply
    case Refused(raw) =>
      var error := SanitizeError("write", raw);
      e.(op := e.op.(items := e.op.items[i := AfterRefusal(e.op.items[i], error)],
                     status := RefusalStatus(error, caps), updatedAt := now),
         point := SaveFailure)
    case Accepted(raw) =>
      var evidence := Filled(raw, now);
      if !ValidWriteEvidence(evidence) then Idle
      else e.(op := e.op.(items := e.op.items[i := Committing(e.op.items[i], evidence)], updatedAt := now),
              point := SaveCommit(e.point.meta, i))
  }

  /** Where an engine goes once an atomic stage answered. */
  function Staged(e: Engine, now: Time): Engine
    requires e.Busy? && e.point.StageReplied?
  {
    match e.point.reply
    case Refused(raw) =>
      var error := SanitizeError("stage", raw);
      e.(op := e.op.(items := MapItems(e.op.items, item => AfterStageRefusal(item, error)),
                     status := StageRefusalStatus(error), updatedAt := now),
         point := SaveFailure)
    case Accepted(raw) =>
      var evidence := Filled(raw, now);
      if evidence.providerOperation == "" || !ValidWriteEvidence(evidence) then Idle
      else e.(op := e.op.(items := MapItems(e.op.items, item => Committing(item, evidence)),
                          status := Written, updatedAt := now),
              point := SaveStaged(e.point.meta))
  }

  /** Where an engine goes once a verification answered. */
  function VerifiedTo(e: Engine, now: Time): Engine
    requires e.Busy? && e.point.VerifyReplied? && e.point.i < |e.op.items|
  {
    var i := e.point.i;
    match e.point.answer
    case Unverified(raw) =>
      var error := SanitizeError("verify", raw);
      e.(op := e.op.(items := e.op.items[i := e.op.items[i].(lastError := Some(error))],
                     status := if error.retry == Never then Failed else Retryable, updatedAt := now),
         point := SaveFailure)
    case Evidence(raw) =>
      var evidence := raw.(verifiedAt := FillStamp(raw.verifiedAt, now));
      if !ValidVerifyEvidence(evidence) then Idle
      else e.(op := e.op.(items := e.op.items[i := WithEvidence(e.op.items[i], evidence)], updatedAt := now),
              point := SaveVerdict(i, e.point.limited || evidence.result != ProvedVerified))
  }

  // What an engine does on its own at one point, with the clock reading `now`; Idle where the code
  // returns without a further effect.

  function AtBatchTop(e: Engine, now: Time): Engine
    requires e.Busy? && e.point.BatchTop?
  {
    var op := e.op;
    if AllSettled(op.items) then e.(point := Top(e.point.meta, 0))
    else if !NoneSettled(op.items) then Idle
    else e.(op := op.(items := MapItems(op.items, item => Attempted(item, now)), status := Writing, updatedAt := now),
            point := SaveBatchAttempt(e.point.meta))
  }

  function AtTop(caps: Capabilities, e: Engine, now: Time): Engine
    requires e.Busy? && e.point.Top?
  {
    var op, meta, i := e.op, e.point.meta, e.point.i;
    if i >= |op.items| then e.(op := op.(status := Written, updatedAt := now), point := SaveWritten)
    else if SettledStatus(op.items[i].status) then e.(point := Top(meta, i + 1))
    else if op.items[i].status == InFlight && !Retriable(caps) then
      match Reconcile(op.items[i], meta, now)
      case None => e.(op := op.(status := Reconciliation, updatedAt := now), point := SaveUnresolved)
      case Some(item) => e.(op := op.(items := op.items[i := item], updatedAt := now), point := SaveResolved(meta, i))
    else e.(point := LoadValue(meta, i))
  }

  function AtLoaded(e: Engine, now: Time): Engine
    requires e.Busy? && e.point.LoadValue?
  {
    var op, i := e.op, e.point.i;
    if i >= |op.items| then Idle
    else e.(op := op.(items := op.items[i := Attempted(op.items[i], now)], status := Writing, updatedAt := now),
            point := SaveAttempt(e.point.meta, i))
  }

  function AtVerifyTop(caps: Capabilities, e: Engine, now: Time): Engine
    requires e.Busy? && e.point.VerifyTop?
  {
    var op, i, limited := e.op, e.point.i, e.point.limited;
    if i >= |op.items| then
      e.(op := op.(status := if limited then LimitedEvidence else ReadyToDeploy, updatedAt := now), point := SaveFinal)
    else if op.items[i].status == Verified then e.(point := VerifyTop(i + 1, limited))
    else if !caps.validate then
      e.(op := op.(items := op.items[i := WithEvidence(op.items[i], Unsupported(now))], updatedAt := now),
         point := SaveVerdict(i, true))
    else e.(point := CallVerify(i, limited))
  }

  function AtAllWritten(e: Engine, now: Time): Engine
    requires e.Busy? && e.point.AllWritten?
  {
    e.(op := e.op.(status := Verifying, updatedAt := now), point := SaveVerifying)
  }

  function Decide(caps: Capabilities, e: Engine, now: Time): Engine
    requires e.Busy?
  {
    match e.point
    case BatchTop(_) => AtBatchTop(e, now)
    case Top(_, _) => AtTop(caps, e, now)
    case LoadValue(_, _) => AtLoaded(e, now)
    case VerifyTop(_, _) => AtVerifyTop(caps, e, now)
    case AllWritten => AtAllWritten(e, now)
    case StageReplied(_, _) => Staged(e, now)
    case WriteReplied(_, i, _) => if i < |e.op.items| then Answered(caps, e, now) else Idle
    case VerifyReplied(i, _, _) => if i < |e.op.items| then VerifiedTo(e, now) else Idle
    case _ => e
  }

  predicate Decides(p: Point) {
    p.BatchTop? || p.Top? || p.LoadValue? || p.VerifyTop? || p.AllWritten? ||
    p.StageReplied? || p.WriteReplied? || p.VerifyReplied?
  }

  /** Where an engine goes once its save was acknowledged. */
  function Saved(e: Engine): Engine
    requires e.Busy?
  {
    var kept := e.(revision := e.revision + 1);
    match e.point
    case SaveBatchAttempt(meta) => kept.(point := CallStage(meta))
    case SaveStaged(meta) => kept.(point := Top(meta, 0))
    case SaveResolved(meta, i) =>
      if i < |e.op.items| && e.op.items[i].status == Committed then kept.(point := Top(meta, i + 1))
      else kept.(point := LoadValue(meta, i))
    case SaveAttempt(meta, i) => kept.(point := CallWrite(meta, i))
    case SaveCommit(meta, i) => kept.(point := Top(meta, i + 1))
    case SaveWritten => kept.(point := AllWritten)
    case SaveVerifying => kept.(point := VerifyTop(0, false))
    case SaveVerdict(i, limited) => kept.(point := VerifyTop(i + 1, limited))
    case _ => Idle
  }

  // ----- Steps ---------------------------------------------------------------------------------

  /** Statuses on which Resume returns at once. */
  predicate Finished(s: Status) { s == ReadyToDeploy || s == LimitedEvidence || s == Failed }

  /** What the provider made of one call: committed at once, or left to commit or vanish later. */
  datatype Outcome = NotDone | Done | Lingering

  datatype Step =
    | Resume(e: nat)
    | Inspected(e: nat, meta: Metadata)
    | Decided(e: nat, now: Time)
    | SaveDone(e: nat)
    | WriteDone(e: nat, reply: WriteReply, outcome: Outcome)
    | WriteLost(e: nat, outcome: Outcome)
    | StageDone(e: nat, reply: WriteReply, outcome: Outcome)
    | StageLost(e: nat, outcome: Outcome)
    | VerifyDone(e: nat, answer: VerifyReply)
    | Stop(e: nat)
    | Settle(item: nat, commit: bool)

  function Bump(counts: seq<nat>, i: nat): seq<nat>
    requires i < |counts|
  {
    counts[i := counts[i] + 1]
  }

  function BumpAll(counts: seq<nat>): (r: seq<nat>)
    ensures |r| == |counts| && forall i :: 0 <= i < |counts| ==> r[i] == counts[i] + 1
  {
    seq(|counts|, i requires 0 <= i < |counts| => counts[i] + 1)
  }

  function Provided(w: World, i: nat, outcome: Outcome): World
    requires i < |w.commits| && i < |w.unsettled|
  {
    match outcome
    case NotDone => w
    case Done => w.(commits := Bump(w.commits, i))
    case Lingering => w.(unsettled := Bump(w.unsettled, i))
  }

  function ProvidedAll(w: World, outcome: Outcome): World {
    match outcome
    case NotDone => w
    case Done => w.(commits := BumpAll(w.commits))
    case Lingering => w.(unsettled := BumpAll(w.unsettled))
  }

  function Move(w: World, e: nat, to: Engine): World { w.(engines := w.engines[e := to]) }

  predicate Standing(w: World, e: nat) { e in w.engines && w.engines[e].Busy? }

  function WriteIssues(e: Engine): seq<Issue>
    requires e.Busy? && e.point.CallWrite? && e.point.i < |e.op.items|
  {
    [Issue(e.point.i, e.op.items[e.point.i].attempts)]
  }

  /** The calls one stage makes: one per action, each with that action's attempt number. */
  function StageIssues(op: Operation): (r: seq<Issue>)
    ensures |r| == |op.items| && forall i :: 0 <= i < |r| ==> r[i] == Issue(i, op.items[i].attempts)
  {
    seq(|op.items|, i requires 0 <= i < |op.items| => Issue(i, op.items[i].attempts))
  }

  predicate Calling(w: World, e: nat) {
    && Standing(w, e) && w.engines[e].point.CallWrite?
    && w.engines[e].point.i < |w.engines[e].op.items|
    && w.engines[e].point.i < |w.commits| && w.engines[e].point.i < |w.unsettled|
  }

  predicate Enabled(w: World, s: Step) {
    match s
    case Resume(e) => e in w.engines && w.engines[e] == Idle && !Finished(w.op.status)
    case Inspected(e, _) => Standing(w, e) && w.engines[e].point.Inspect?
    case Decided(e, now) => Standing(w, e) && Decides(w.engines[e].point) && now >= w.op.createdAt
    case SaveDone(e) =>
      && Standing(w, e) && !AsSaved(w.engines[e].point)
      && w.engines[e].revision == w.revision && ValidOperation(w.engines[e].op)
    case WriteDone(e, _, _) => Calling(w, e)
    case WriteLost(e, _) => Calling(w, e)
    case StageDone(e, _, _) => Standing(w, e) && w.engines[e].point.CallStage?
    case StageLost(e, _) => Standing(w, e) && w.engines[e].point.CallStage?
    case VerifyDone(e, _) => Standing(w, e) && w.engines[e].point.CallVerify?
    case Stop(e) => e in w.engines
    case Settle(i, _) => i < |w.commits| && i < |w.unsettled| && w.unsettled[i] > 0
  }

  function Issued(w: World, more: seq<Issue>): World { w.(issued := w.issued + more) }

  function Next(w: World, s: Step): World
    requires Enabled(w, s)
  {
    match s
    case Resume(e) => Move(w, e, Busy(w.op, w.revision, Inspect))
    case Inspected(e, meta) =>
      Move(w, e, w.engines[e].(point := if w.batch then BatchTop(meta) else Top(meta, 0)))
    case Decided(e, now) => Move(w, e, Decide(w.caps, w.engines[e], now))
    case SaveDone(e) =>
      Move(w.(op := w.engines[e].op, revision := w.revision + 1), e, Saved(w.engines[e]))
    case WriteDone(e, reply, outcome) =>
      var at := w.engines[e];
      Move(Issued(Provided(w, at.point.i, outcome), WriteIssues(at)), e,
           at.(point := WriteReplied(at.point.meta, at.point.i, reply)))
    case WriteLost(e, outcome) =>
      Move(Issued(Provided(w, w.engines[e].point.i, outcome), WriteIssues(w.engines[e])), e, Idle)
    case StageDone(e, reply, outcome) =>
      var at := w.engines[e];
      Move(Issued(ProvidedAll(w, outcome), StageIssues(at.op)), e, at.(point := StageReplied(at.point.meta, reply)))
    case StageLost(e, outcome) =>
      Move(Issued(ProvidedAll(w, outcome), StageIssues(w.engines[e].op)), e, Idle)
    case VerifyDone(e, answer) =>
      var at := w.engines[e];
      Move(w, e, at.(point := VerifyReplied(at.point.i, at.point.limited, answer)))
    case Stop(e) => Move(w, e, Idle)
    case Settle(i, commit) =>
      w.(unsettled := w.unsettled[i := w.unsettled[i] - 1],
         commits := if commit then Bump(w.commits, i) else w.commits)
  }

  /** Right after Apply saved the confirmed operation: one engine is about to advance it. */
  predicate Starts(w: World) {
    && ValidPlan(w.plan)
    && w.op.id != "" && w.op == NewOperation(w.plan, w.op.id, w.op.createdAt) && w.revision == 1
    && |w.commits| == |w.unsettled| == |w.plan.actions|
    && (forall i :: 0 <= i < |w.commits| ==> w.commits[i] == 0 && w.unsettled[i] == 0)
    && w.issued == []
    && forall e :: e in w.engines ==> w.engines[e] == Idle || w.engines[e] == Busy(w.op, 1, Inspect)
  }

  predicate IsRun(run: seq<World>, steps: seq<Step>) {
    && |run| == |steps| + 1
    && forall k {:trigger steps[k]} :: 0 <= k < |steps| ==>
         Enabled(run[k], steps[k]) && run[k + 1] == Next(run[k], steps[k])
  }
}

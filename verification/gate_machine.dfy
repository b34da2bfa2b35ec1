/**
 * The observation gate as a state machine: gates in memory, a latch file, an exclusive process
 * lock, and driver contexts that outlive the process. A process may be killed, or the machine lose
 * power, between any two steps; a power loss may undo whatever was not synced.
 */
module GateMachine {
  import opened Basics

  const EPOCHS: nat := 0x1_0000_0000_0000_0000

  type Target = string

  /** Why an operation believes that it may open the gate again. */
  datatype Reason = NeverValidated | ContextDestroyed | OrphansDestroyed

  /** Where the one operation of a gate stands. */
  datatype Phase =
    | Free
    | Creating(t: Target) | Syncing(t: Target)                         // in begin, under the mutex
    | Validating(t: Target) | Using(t: Target) | Destroying(t: Target)
    | Orphans
    | Resuming(why: Reason)
    | Removed(why: Reason)                                             // in resume, under the mutex

  /** A capture in flight: the epoch it started in, and whether a barrier has cancelled it. */
  datatype Observation = Observation(epoch: nat, cancelled: bool)

  datatype Gate = Gate(locked: bool, blocked: bool, closed: bool, epoch: nat,
                       phase: Phase, observations: map<nat, Observation>)

  /**
   * `visible`: the latch file as processes see it. `durable`: what a power loss may leave of it.
   * `live`: the validated contexts that may still be alive.
   */
  datatype World = World(visible: bool, durable: set<bool>, live: set<Target>, gates: map<nat, Gate>)

  datatype Step =
    | Open(g: nat)
    | Kill(g: nat)
    | PowerLoss(left: bool)
    | ObserveStart(g: nat, o: nat)
    | ObserveEnd(g: nat, o: nat, failed: bool)
    | CloseStart(g: nat)
    | Release(g: nat)
    | RunStart(g: nat, t: Target)
    | Created(g: nat, ok: bool, visibleAnyway: bool)
    | LatchSynced(g: nat, ok: bool, durableAnyway: bool)
    | Validated(g: nat, ok: bool)
    | Used(g: nat)
    | Destroyed(g: nat, ok: bool, goneAnyway: bool)
    | RecoverStart(g: nat)
    | OrphansGone(g: nat, ok: bool, gone: set<Target>)
    | ResumeStart(g: nat, ok: bool)
    | ResumeSynced(g: nat, ok: bool, rewritten: bool)

  predicate InMutex(p: Phase) { p.Creating? || p.Syncing? || p.Removed? }

  predicate At(w: World, g: nat) { g in w.gates }

  /** The gate's mutex is free: no begin or resume is in the middle of its file operations. */
  predicate Idle(w: World, g: nat) { At(w, g) && !InMutex(w.gates[g].phase) }

  predicate Barred(gate: Gate) { gate.blocked || gate.closed }

  predicate Enabled(w: World, s: Step) {
    match s
    case Open(g) => g !in w.gates && forall h :: h in w.gates ==> !w.gates[h].locked
    case Kill(g) => At(w, g)
    case PowerLoss(left) => left in w.durable
    case ObserveStart(g, o) => Idle(w, g) && !Barred(w.gates[g]) && o !in w.gates[g].observations
    case ObserveEnd(g, o, _) => Idle(w, g) && o in w.gates[g].observations
    case CloseStart(g) => Idle(w, g) && w.gates[g].locked
    case Release(g) => Idle(w, g) && w.gates[g].closed && w.gates[g].phase == Free
    case RunStart(g, _) => Idle(w, g) && w.gates[g].phase == Free && !Barred(w.gates[g])
    case Created(g, ok, _) => At(w, g) && w.gates[g].phase.Creating? && (ok ==> !w.visible)
    case LatchSynced(g, _, _) => At(w, g) && w.gates[g].phase.Syncing?
    case Validated(g, _) => At(w, g) && w.gates[g].phase.Validating?
    case Used(g) => At(w, g) && w.gates[g].phase.Using?
    case Destroyed(g, _, _) => At(w, g) && w.gates[g].phase.Destroying?
    case RecoverStart(g) => Idle(w, g) && w.gates[g].phase == Free && Barred(w.gates[g])
    case OrphansGone(g, ok, gone) => At(w, g) && w.gates[g].phase == Orphans
    case ResumeStart(g, _) => At(w, g) && w.gates[g].phase.Resuming?
    case ResumeSynced(g, _, _) => At(w, g) && w.gates[g].phase.Removed?
  }

  function Put(w: World, g: nat, gate: Gate): World { w.(gates := w.gates[g := gate]) }

  /** The epoch is a 64-bit counter. */
  function After(epoch: nat): nat { (epoch + 1) % EPOCHS }

  function Cancelled(pending: map<nat, Observation>): map<nat, Observation> {
    map o | o in pending :: pending[o].(cancelled := true)
  }

  /** What begin and Close do to whoever observes: a new epoch, and every pending capture cancelled. */
  function Barrier(gate: Gate): Gate {
    gate.(epoch := After(gate.epoch), observations := Cancelled(gate.observations))
  }

  predicate MayResume(gate: Gate) { !gate.closed && gate.blocked }

  function Next(w: World, s: Step): World
    requires Enabled(w, s)
  {
    match s
    case Open(g) => Put(w, g, Gate(true, w.visible, false, 0, Free, map[]))
    case Kill(g) => w.(gates := w.gates - {g})
    case PowerLoss(left) => w.(visible := left, durable := {left}, gates := map[])
    case ObserveStart(g, o) =>
      var gate := w.gates[g];
      Put(w, g, gate.(observations := gate.observations[o := Observation(gate.epoch, false)]))
    case ObserveEnd(g, o, _) => Put(w, g, w.gates[g].(observations := w.gates[g].observations - {o}))
    case CloseStart(g) => Put(w, g, Barrier(w.gates[g].(closed := true)))
    case Release(g) => Put(w, g, w.gates[g].(locked := false))
    case RunStart(g, t) => Put(w, g, Barrier(w.gates[g].(blocked := true, phase := Creating(t))))
    case Created(g, ok, visibleAnyway) =>
      if ok then
        Put(w, g, w.gates[g].(phase := Syncing(w.gates[g].phase.t))).(visible := true, durable := w.durable + {true})
      else if visibleAnyway then
        Put(w, g, w.gates[g].(phase := Free)).(visible := true, durable := w.durable + {true})
      else Put(w, g, w.gates[g].(phase := Free))
    case LatchSynced(g, ok, durableAnyway) =>
      Put(w, g, w.gates[g].(phase := if ok then Validating(w.gates[g].phase.t) else Free))
      .(durable := if ok || durableAnyway then {w.visible} else w.durable)
    case Validated(g, ok) =>
      var t := w.gates[g].phase.t;
      if ok then Put(w, g, w.gates[g].(phase := Using(t))).(live := w.live + {t})
      else Put(w, g, w.gates[g].(phase := Resuming(NeverValidated)))
    case Used(g) => Put(w, g, w.gates[g].(phase := Destroying(w.gates[g].phase.t)))
    case Destroyed(g, ok, goneAnyway) =>
      Put(w, g, w.gates[g].(phase := if ok then Resuming(ContextDestroyed) else Free))
      .(live := if ok || goneAnyway then w.live - {w.gates[g].phase.t} else w.live)
    case RecoverStart(g) => Put(w, g, w.gates[g].(phase := Orphans))
    case OrphansGone(g, ok, gone) =>
      Put(w, g, w.gates[g].(phase := if ok then Resuming(OrphansDestroyed) else Free))
      .(live := if ok then {} else w.live - gone)
    case ResumeStart(g, ok) =>
      if MayResume(w.gates[g]) && ok && w.visible then
        Put(w, g, w.gates[g].(phase := Removed(w.gates[g].phase.why))).(visible := false, durable :=
          w.durable + {false})
      else Put(w, g, w.gates[g].(phase := Free))
    case ResumeSynced(g, ok, rewritten) =>
      if ok
        then Put(w, g, w.gates[g].(blocked := false, phase := Free, epoch := After(w.gates[g].epoch))).(durable :=
        {w.visible})
      else if rewritten then Put(w, g, w.gates[g].(phase := Free)).(visible := true, durable := w.durable + {true})
      else Put(w, g, w.gates[g].(phase := Free))
  }

  /** Whether Observe answers with the captured value. */
  predicate Returns(w: World, s: Step)
    requires Enabled(w, s) && s.ObserveEnd?
  {
    var gate, capture := w.gates[s.g], w.gates[s.g].observations[s.o];
    !Barred(gate) && capture.epoch == gate.epoch && !s.failed && !capture.cancelled
  }

  ghost predicate IsRun(run: seq<World>, steps: seq<Step>) {
    && |run| == |steps| + 1
    && forall k {:trigger steps[k]} :: 0 <= k < |steps| ==>
         Enabled(run[k], steps[k]) && run[k + 1] == Next(run[k], steps[k])
  }

  /** Nothing has happened yet: no latch, no context, no gate. */
  predicate Starts(w: World) { w == World(false, {false}, {}, map[]) }

  // ----- The invariant -------------------------------------------------------------------------

  predicate Latched(w: World) { w.visible && w.durable == {true} }

  predicate PhaseOk(w: World, gate: Gate) {
    match gate.phase
    case Free => true
    case Creating(_) => gate.locked && gate.blocked && w.live == {} && !w.visible
    case Syncing(_) => gate.locked && gate.blocked && w.live == {} && w.visible
    case Validating(_) => gate.locked && gate.blocked && w.live == {} && Latched(w)
    case Using(t) => gate.locked && gate.blocked && w.live <= {t} && Latched(w)
    case Destroying(t) => gate.locked && gate.blocked && w.live <= {t} && Latched(w)
    case Orphans => Barred(gate)
    case Resuming(_) => Barred(gate) && (gate.locked ==> w.live == {})
    case Removed(_) => gate.locked && MayResume(gate) && w.live == {} && !w.visible
  }

  predicate GateOk(w: World, gate: Gate) {
    && PhaseOk(w, gate)
    && (!gate.locked ==> gate.closed)
    && (gate.locked && !gate.blocked ==> w.live == {} && !w.visible)
    && forall o :: o in gate.observations && !gate.observations[o].cancelled ==>
         !Barred(gate) && gate.observations[o].epoch == gate.epoch
  }

  predicate OneAuthority(w: World) {
    forall g, h :: g in w.gates && h in w.gates && w.gates[g].locked && w.gates[h].locked ==> g == h
  }

  predicate Inv(w: World) {
    && (w.live != {} ==> Latched(w))
    && w.visible in w.durable
    && OneAuthority(w)
    && forall g :: g in w.gates ==> GateOk(w, w.gates[g])
  }
}

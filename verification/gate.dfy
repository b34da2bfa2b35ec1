/**
 * The gate and its coordinator, thread by thread. Every method leaves a run of the machine behind,
 * and wherever the source gives up the mutex anything the machine allows may happen in between.
 */
module ObservationGate {
  import opened Basics
  import opened GateMachine
  import opened GateSafety

  /** What the gate shares with the rest of the machine. */
  class Host {
    const smooth: bool                // nobody steps in, and no file operation or destruction fails
    var visible: bool                 // the latch file
    var durable: set<bool>            // what a power loss may leave of it
    var live: set<Target>             // validated contexts that may be alive
    var others: map<nat, Gate>        // gates of other processes
    ghost var run: seq<World>
    ghost var steps: seq<Step>

    constructor (smooth: bool)
      ensures !visible && durable == {false} && live == {} && others == map[]
      ensures Recorded() && run == [World(false, {false}, {}, map[])] && this.smooth == smooth
    {
      this.smooth := smooth;
      visible, durable, live, others := false, {false}, {}, map[];
      run, steps := [World(false, {false}, {}, map[])], [];
    }

    ghost predicate Recorded()
      reads this
    {
      |run| == |steps| + 1 && IsRun(run, steps) && Starts(run[0])
    }

    /** More was recorded. */
    twostate predicate Extends()
      reads this
    {
      Recorded() && old(run) <= run && old(steps) <= steps
    }

    ghost method Record(s: Step, after: World)
      requires Recorded() && Enabled(run[|steps|], s) && after == Next(run[|steps|], s)
      modifies this`run, this`steps
      ensures Extends() && run == old(run) + [after] && steps == old(steps) + [s]
    {
      hide Enabled, Next;
      var longer, all := run + [after], steps + [s];
      forall k {:trigger all[k]} | 0 <= k < |all|
        ensures Enabled(longer[k], all[k]) && longer[k + 1] == Next(longer[k], all[k])
      {
        if k < |steps| { assert all[k] == steps[k]; }
      }
      run, steps := longer, all;
    }

    /** Steps of other threads and processes, any number of them. */
    method Elsewhere(from: World, id: nat, role: Role) returns (v: World)
      requires Recorded() && run[|steps|] == from && id in from.gates
      requires role.Observer? ==> role.o in from.gates[id].observations
      modifies this`run, this`steps
      ensures Extends() && run[|steps|] == v && id in v.gates
      ensures role.Operator? ==> Untaken(from.gates[id], v.gates[id])
      ensures role.Observer? ==> role.o in v.gates[id].observations && Holding(run, |old(steps)|, id, role.o)
      ensures from.gates[id].closed ==> v.gates[id].closed
    {
      hide Enabled, Next, IsRun, Starts, Holding, Foreign, Untaken;
      v := from;
      JustNow(run, |steps|);
      SameGate(from.gates[id]);
      var n: int := *;
      while n > 0
        invariant Extends() && run[|steps|] == v && id in v.gates
        invariant role.Operator? ==> Untaken(from.gates[id], v.gates[id])
        invariant role.Observer? ==> role.o in v.gates[id].observations && Holding(run, |old(steps)|, id, role.o)
        invariant from.gates[id].closed ==> v.gates[id].closed
      {
        var s: Step := *;
        if Enabled(v, s) && Foreign(s, id, role) {
          ForeignStep(v, s, id, role);
          var after := Next(v, s);
          if role.Operator? { StillUntaken(from.gates[id], v.gates[id], after.gates[id]); }
          if role.Observer? { HoldingMore(run, |old(steps)|, id, role.o, after); }
          Record(s, after);
          v := after;
        }
        n := n - 1;
      }
    }
  }

  /** Which thread is waiting: the one inside the operation, one that captures, or one that closes. */
  datatype Role = Operator | Observer(o: nat) | Closer

  /** What other threads and processes may do while this one waits. */
  predicate Foreign(s: Step, id: nat, role: Role) {
    if s.PowerLoss? then false
    else if s.g != id then true
    else if s.Kill? || s.Open? then false
    else match role
      case Operator => s.ObserveStart? || s.ObserveEnd? || s.CloseStart?
      case Observer(o) => !(s.ObserveEnd? && s.o == o)
      case Closer => true
  }

  class Authority {
    const id: nat
    const host: Host
    var locked: bool
    var blocked: bool
    var closed: bool
    var epoch: nat
    var pending: map<nat, Observation>
    var phase: Phase                   // where the operation stands

    function State(): Gate
      reads this
    {
      Gate(locked, blocked, closed, epoch, phase, pending)
    }

    function View(): World
      reads this, host
    {
      World(host.visible, host.durable, host.live, host.others[id := State()])
    }

    ghost predicate Valid()
      reads this, host
    {
      id !in host.others && host.Recorded() && host.run[|host.steps|] == View()
    }

    twostate predicate Went()
      reads this, host
    {
      Valid() && host.Extends()
    }

    /** Takes the lock and reads the latch, unless another authority is running. */
    constructor Open(host: Host, id: nat)
      requires host.Recorded() && id !in host.others
      requires host.run[|host.steps|] == World(host.visible, host.durable, host.live, host.others)
      requires forall h :: h in host.others ==> !host.others[h].locked
      modifies host`run, host`steps
      ensures this.host == host && this.id == id && Valid() && host.Extends()
      ensures locked && blocked == host.visible && !closed && phase == Free && pending == map[]
    {
      this.id, this.host := id, host;
      locked, blocked, closed, epoch, pending, phase := true, host.visible, false, 0, map[], Free;
      new;
      host.Record(GateMachine.Open(id), View());
    }

    /** Anything the machine allows the others. */
    method Interfere(role: Role)
      requires Valid() && (role.Observer? ==> role.o in pending)
      modifies this, host
      ensures Went()
      ensures role.Operator? ==> Untaken(old(State()), State())
      ensures role.Observer? ==> role.o in pending && Holding(host.run, |old(host.steps)|, id, role.o)
      ensures old(closed) ==> closed
      ensures host.smooth ==> State() == old(State()) && View() == old(View())
    {
      hide Enabled, Next, IsRun, Starts, Holding, Foreign, Untaken;
      if host.smooth {
        JustNow(host.run, |host.steps|);
        SameGate(State());
        return;
      }
      var v := host.Elsewhere(View(), id, role);
      var gate := v.gates[id];
      PutBack(v, id);
      locked, blocked, closed, epoch := gate.locked, gate.blocked, gate.closed, gate.epoch;
      pending, phase := gate.observations, gate.phase;
      host.visible, host.durable, host.live, host.others := v.visible, v.durable, v.live, v.gates - {id};
      assert State() == gate;
    }

    // ----- Observing ---------------------------------------------------------------------------

    /**
     * A capture, unless the gate is barred; its result counts only when no barrier was met. The
     * second lock of the mutex may have to wait for a begin or resume, and so may the answer.
     * `capture`: what the capture delivers; None for an error, a panic or a cancelled caller.
     */
    method Observe(o: nat, capture: Option<int>) returns (value: Option<int>)
      requires Valid() && !InMutex(phase) && o !in pending
      modifies this, host
      ensures Went()
      ensures old(blocked || closed) ==> value == None && host.run == old(host.run)
      ensures value.Some? ==> value == capture && Undisturbed(host.run, |old(host.run)|, |host.run| - 2, id)
      ensures host.smooth && !old(blocked || closed) ==> value == capture
      ensures host.smooth ==> pending == old(pending)
    {
      hide IsRun, Starts, Holding, Undisturbed;
      if blocked || closed { return None; }
      ghost var i := |host.run|;
      Start(o);
      Interfere(Observer(o));
      if InMutex(phase) { return None; }
      ghost var j, before, done := |host.steps|, host.run, host.steps;
      var clean := Finish(o, capture.None?);
      if clean && capture.Some? {
        assert host.run[..j + 1] == before && host.steps[..j] == done;
        CleanIsUndisturbed(host.run, host.steps, i, j, id, o);
        return capture;
      }
      return None;
    }

    method Start(o: nat)
      requires Valid() && !InMutex(phase) && o !in pending && !blocked && !closed
      modifies this, host
      ensures Went() && host.steps == old(host.steps) + [ObserveStart(id, o)] && |host.run| == |host.steps| + 1
      ensures pending == old(pending)[o := Observation(epoch, false)]
                && old(State()).(observations := pending) == State()
    {
      hide IsRun, Starts;
      pending := pending[o := Observation(epoch, false)];
      host.Record(ObserveStart(id, o), View());
    }

    /** The second half of Observe, under the mutex. */
    method Finish(o: nat, failed: bool) returns (clean: bool)
      requires Valid() && !InMutex(phase) && o in pending
      modifies this, host
      ensures Went() && host.steps == old(host.steps) + [ObserveEnd(id, o, failed)] && |host.run| == |host.steps| + 1
      ensures clean <==> !old(Barred(State())) && old(pending[o].epoch) == old(epoch) && !old(pending[o].cancelled)
      ensures pending == old(pending) - {o} && old(State()).(observations := pending) == State()
    {
      hide IsRun, Starts;
      clean := !(blocked || closed || pending[o].epoch != epoch) && !pending[o].cancelled;
      pending := pending - {o};
      host.Record(ObserveEnd(id, o, failed), View());
    }

    /** Records one step of this gate, taken from `before`. */
    ghost method Mark(s: Step, before: World, gate: Gate)
      requires host.Recorded() && id !in host.others && host.run[|host.steps|] == before
      requires before.gates == host.others[id := gate] && Enabled(before, s)
      requires Next(before, s) == World(host.visible, host.durable, host.live, before.gates[id := State()])
      modifies host`run, host`steps
      ensures Went() && host.run == old(host.run) + [View()] && host.steps == old(host.steps) + [s]
    {
      hide IsRun, Starts, Enabled;
      assert host.others[id := gate][id := State()] == host.others[id := State()];
      hide Next;
      host.Record(s, View());
    }

    // ----- Barriers ----------------------------------------------------------------------------

    lemma Safe()
      requires Valid()
      ensures !locked ==> closed
      ensures locked && !blocked ==> host.live == {} && !host.visible
      ensures phase.Creating? ==> host.live == {} && !host.visible
      ensures phase.Syncing? ==> host.visible && host.live == {}
      ensures phase.Using? || phase.Destroying? ==> blocked && locked
      ensures phase.Resuming? ==> (blocked || closed) && (locked ==> host.live == {})
      ensures phase.Removed? ==> blocked && !closed && locked && !host.visible && host.live == {}
    {
      RunKeeps(host.run, host.steps, |host.steps|);
      assert View().gates[id] == State() && GateOk(View(), State());
    }

    /** Bars the gate before anything else, then makes the latch durable. */
    method Begin(t: Target) returns (ok: bool)
      requires Valid() && phase == Free
      modifies this, host
      ensures Went()
      ensures ok ==> phase == Validating(t) && blocked && Latched(View()) && host.live == {}
      ensures !ok ==> phase == Free && (blocked || closed)
      ensures closed == old(closed) && (old(blocked) || old(closed) ==> !ok && host.run == old(host.run))
      ensures !(old(blocked) || old(closed)) ==> blocked && pending == Cancelled(old(pending))
      ensures epoch == if old(blocked) || old(closed) then old(epoch) else After(old(epoch))
      ensures host.smooth && !(old(blocked) || old(closed)) ==> ok
    {
      hide IsRun, Starts, Enabled, Next;
      if blocked || closed { return false; }
      Safe();
      Bar(t);
      ok := CreateLatch(t);
      if ok { ok := SyncLatch(t); }
    }

    method Bar(t: Target)
      requires Valid() && phase == Free && !blocked && !closed
      modifies this, host
      ensures Went() && blocked && !closed && phase == Creating(t)
      ensures epoch == After(old(epoch)) && pending == Cancelled(old(pending))
      ensures host.visible == old(host.visible)
    {
      hide IsRun, Starts;
      ghost var before, gate := View(), State();
      blocked, epoch, pending, phase := true, After(epoch), Cancelled(pending), Creating(t);
      Mark(RunStart(id, t), before, gate);
    }

    method CreateLatch(t: Target) returns (ok: bool)
      requires Valid() && phase == Creating(t)
      modifies this, host
      ensures Went() && blocked == old(blocked) && closed == old(closed) && epoch == old(epoch)
                && pending == old(pending)
      ensures phase == if ok then Syncing(t) else Free
      ensures host.smooth ==> ok == !old(host.visible)
    {
      hide IsRun, Starts;
      ghost var before, gate := View(), State();
      var created: bool, left: bool := *, *;
      ok := (created || host.smooth) && !host.visible;
      if ok || left { host.visible, host.durable := true, host.durable + {true}; }
      phase := if ok then Syncing(t) else Free;
      Mark(Created(id, ok, left), before, gate);
    }

    method SyncLatch(t: Target) returns (ok: bool)
      requires Valid() && phase == Syncing(t)
      modifies this, host
      ensures Went() && blocked == old(blocked) && closed == old(closed) && epoch == old(epoch)
                && pending == old(pending)
      ensures phase == (if ok then Validating(t) else Free) && host.live == {}
      ensures ok ==> Latched(View())
      ensures host.smooth ==> ok
    {
      hide IsRun, Starts;
      ghost var before, gate := View(), State();
      Safe();
      ok := *;
      ok := ok || host.smooth;
      var anyway: bool := *;
      if ok || anyway { host.durable := {host.visible}; }
      phase := if ok then Validating(t) else Free;
      Mark(LatchSynced(id, ok, anyway), before, gate);
    }

    /** Removes the latch and, once that is durable, opens the gate; otherwise it stays barred. */
    method Resume() returns (ok: bool)
      requires Valid() && phase.Resuming?
      modifies this, host
      ensures Went() && phase == Free && closed == old(closed)
      ensures ok ==> !blocked && !closed && !host.visible && host.durable == {false} && host.live == {}
      ensures !ok ==> blocked || closed
      ensures old(closed) ==> !ok && host.visible == old(host.visible)
      ensures host.smooth ==> (ok <==> !old(closed) && old(blocked) && old(host.visible))
    {
      hide IsRun, Starts, Enabled, Next;
      ok := RemoveLatch();
      if ok { ok := SyncRemoval(); }
    }

    method RemoveLatch() returns (ok: bool)
      requires Valid() && phase.Resuming?
      modifies this, host
      ensures Went() && blocked == old(blocked) && closed == old(closed)
      ensures phase == if ok then Removed(old(phase.why)) else Free
      ensures !ok ==> (blocked || closed) && host.visible == old(host.visible)
      ensures ok ==> !closed
      ensures host.smooth ==> (ok <==> !closed && old(blocked) && old(host.visible))
    {
      hide IsRun, Starts;
      ghost var before, gate := View(), State();
      Safe();
      var removed: bool := *;
      removed := removed || host.smooth;
      ok := !closed && blocked && removed && host.visible;
      if ok { host.visible, host.durable := false, host.durable + {false}; }
      phase := if ok then Removed(phase.why) else Free;
      Mark(ResumeStart(id, removed), before, gate);
    }

    /** When the removal cannot be made durable the latch is put back, as far as that works. */
    method SyncRemoval() returns (ok: bool)
      requires Valid() && phase.Removed?
      modifies this, host
      ensures Went() && phase == Free && closed == old(closed)
      ensures ok ==> !blocked && !closed && !host.visible && host.durable == {false} && host.live == {}
      ensures !ok ==> blocked
      ensures host.smooth ==> ok
    {
      hide IsRun, Starts;
      ghost var before, gate := View(), State();
      Safe();
      ok := *;
      ok := ok || host.smooth;
      var rewritten: bool := *;
      if ok {
        host.durable, epoch, blocked := {host.visible}, After(epoch), false;
      } else if rewritten {
        host.visible, host.durable := true, host.durable + {true};
      }
      phase := Free;
      Mark(ResumeSynced(id, ok, rewritten), before, gate);
    }

    /**
     * Bars the gate for good; the lock is only given up when no operation runs. The mutex is free
     * between the two, so that others may act, close the gate as well, or start a recovery.
     */
    method Close() returns (ok: bool)
      requires Valid() && !InMutex(phase)
      modifies this, host
      ensures Went()
      ensures old(locked) ==> closed && (ok <==> phase == Free) && (ok ==> !locked)
      ensures old(locked) && host.smooth ==> phase == old(phase) && locked == !ok && pending == Cancelled(old(pending))
      ensures !old(locked) ==> ok && host.run == old(host.run)
    {
      hide IsRun, Starts, Enabled, Next;
      if !locked { return true; }
      Shut();
      Interfere(Closer);
      if phase != Free { return false; }
      if locked { GiveUpLock(); }
      return true;
    }

    method Shut()
      requires Valid() && !InMutex(phase) && locked
      modifies this, host
      ensures Went() && closed && phase == old(phase) && locked && pending == Cancelled(old(pending))
    {
      hide IsRun, Starts;
      ghost var before, gate := View(), State();
      closed, epoch, pending := true, After(epoch), Cancelled(pending);
      Mark(CloseStart(id), before, gate);
    }

    method GiveUpLock()
      requires Valid() && phase == Free && closed
      modifies this, host
      ensures Went() && phase == Free && closed && !locked && pending == old(pending)
    {
      hide IsRun, Starts;
      ghost var before, gate := View(), State();
      locked := false;
      Mark(GateMachine.Release(id), before, gate);
    }

    // ----- What the operation asks of the driver -------------------------------------------------

    method Validate(valid: bool)
      requires Valid() && phase.Validating?
      modifies this, host
      ensures Went() && blocked == old(blocked) && locked == old(locked) && closed == old(closed)
      ensures phase == if valid then Using(old(phase.t)) else Resuming(NeverValidated)
      ensures host.visible == old(host.visible) && host.live == old(host.live) + if valid then {old(phase.t)} else {}
    {
      hide IsRun, Starts;
      ghost var before, gate := View(), State();
      if valid { host.live := host.live + {phase.t}; }
      phase := if valid then Using(phase.t) else Resuming(NeverValidated);
      Mark(Validated(id, valid), before, gate);
    }

    method Leave()
      requires Valid() && phase.Using?
      modifies this, host
      ensures Went() && phase == Destroying(old(phase.t)) && blocked && closed == old(closed)
      ensures host.visible == old(host.visible) && host.live == old(host.live)
    {
      hide IsRun, Starts;
      ghost var before, gate := View(), State();
      Safe();
      phase := Destroying(phase.t);
      Mark(Used(id), before, gate);
    }

    method Destroy() returns (ok: bool)
      requires Valid() && phase.Destroying?
      modifies this, host
      ensures Went() && blocked == old(blocked) && closed == old(closed)
      ensures phase == if ok then Resuming(ContextDestroyed) else Free
      ensures host.visible == old(host.visible) && (host.smooth ==> ok)
      ensures host.live <= old(host.live) && (ok ==> old(phase.t) !in host.live)
    {
      hide IsRun, Starts;
      ghost var before, gate := View(), State();
      ok := *;
      ok := ok || host.smooth;
      var anyway: bool := *;
      if ok || anyway { host.live := host.live - {phase.t}; }
      phase := if ok then Resuming(ContextDestroyed) else Free;
      Mark(Destroyed(id, ok, anyway), before, gate);
    }

    method StartRecovery()
      requires Valid() && phase == Free && (blocked || closed)
      modifies this, host
      ensures Went() && phase == Orphans && blocked == old(blocked) && closed == old(closed) && locked == old(locked)
      ensures host.visible == old(host.visible) && host.live == old(host.live)
    {
      hide IsRun, Starts;
      ghost var before, gate := View(), State();
      phase := Orphans;
      Mark(RecoverStart(id), before, gate);
    }

    method DestroyOrphans() returns (ok: bool)
      requires Valid() && phase == Orphans
      modifies this, host
      ensures Went() && blocked == old(blocked) && closed == old(closed)
      ensures phase == if ok then Resuming(OrphansDestroyed) else Free
      ensures host.visible == old(host.visible) && (host.smooth ==> ok)
      ensures host.live <= old(host.live) && (ok ==> host.live == {})
    {
      hide IsRun, Starts;
      ghost var before, gate := View(), State();
      ok := *;
      ok := ok || host.smooth;
      var gone: set<Target> := *;
      host.live := if ok then {} else host.live - gone;
      phase := if ok then Resuming(OrphansDestroyed) else Free;
      Mark(OrphansGone(id, ok, gone), before, gate);
    }
  }

  /** The running authority, or nothing while another one runs or the storage fails. */
  method OpenGate(host: Host, id: nat) returns (gate: Option<Authority>)
    requires host.Recorded() && id !in host.others
    requires host.run[|host.steps|] == World(host.visible, host.durable, host.live, host.others)
    modifies host`run, host`steps
    ensures host.Extends()
    ensures (exists h :: h in host.others && host.others[h].locked) ==> gate.None?
    ensures gate.None? ==> host.run == old(host.run)
    ensures host.smooth && gate.None? ==> exists h :: h in host.others && host.others[h].locked
    ensures gate.Some? ==>
              && fresh(gate.value) && gate.value.Valid() && gate.value.host == host && gate.value.id == id
              && gate.value.blocked == host.visible && (host.live != {} ==> gate.value.blocked)
  {
    var unusable: bool := *;
    if (unusable && !host.smooth) || exists h :: h in host.others && host.others[h].locked { return None; }
    RunKeeps(host.run, host.steps, |host.steps|);
    hide IsRun, Starts;
    var authority := new Authority.Open(host, id);
    gate := Some(authority);
  }

  datatype Receipt =
    | Unavailable | Rejected | Busy | RecoveryRequired | FailedContextClosed | AttemptedContextClosed

  datatype Approval = Approved | Refused | Panicked

  datatype Submission = Submitted(attempted: bool) | NotSubmitted | Crashed

  /** What the driver and the caller do in one operation, and whether its time runs out meanwhile. */
  datatype Conduct = Conduct(approval: Approval, startsInTime: bool, value: Option<string>, readInTime: bool,
                             submission: Submission, endsInTime: bool)

  const MAX_VALUE := 65536

  /** A value was read, and submitting it was attempted, all in time. */
  predicate Attempts(c: Conduct) {
    && c.approval == Approved && c.startsInTime && c.readInTime && c.endsInTime
    && c.value.Some? && 0 < |c.value.value| <= MAX_VALUE && c.submission == Submitted(true)
  }

  class Coordinator {
    const gate: Authority
    const configured: bool

    constructor (gate: Authority, configured: bool)
      ensures this.gate == gate && this.configured == configured
    {
      this.gate, this.configured := gate, configured;
    }

    /**
     * One protected fill. Unless recovery is required, the gate is open again on return and no
     * validated context is alive; when it is, the gate stays barred. The receipt says that a
     * submission was attempted exactly when it was; and when nothing fails, an open gate always
     * leads to such a receipt.
     */
    method Run(t: Target, acceptable: bool, conduct: Conduct) returns (receipt: Receipt)
      requires gate.Valid()
      modifies gate, gate.host
      ensures gate.Went()
      ensures receipt.Unavailable? <==> !configured
      ensures !configured || !acceptable ==> gate.host.run == old(gate.host.run)
      ensures configured && !acceptable ==> receipt.Rejected?
      ensures configured && acceptable ==>
                && (receipt.FailedContextClosed? || receipt.AttemptedContextClosed? || receipt.Rejected? ==>
                      !gate.blocked && gate.host.live == {} && !gate.host.visible)
                && (receipt.RecoveryRequired? ==> gate.blocked || gate.closed)
                && (receipt.Busy? <==> old(gate.phase) != Free)
                && (receipt.Rejected? ==> conduct.approval == Refused)
                && (receipt.AttemptedContextClosed? ==>
                      && conduct.approval == Approved && conduct.startsInTime && conduct.readInTime
                           && conduct.endsInTime
                      && conduct.value.Some? && 0 < |conduct.value.value| <= 65536
                      && conduct.submission == Submitted(true))
                && (receipt.FailedContextClosed? && conduct.approval == Approved ==>
                      || !conduct.startsInTime || !conduct.readInTime || !conduct.endsInTime
                      || conduct.value.None? || conduct.value.value == "" || |conduct.value.value| > 65536
                      || conduct.submission != Submitted(true))
                && (receipt.FailedContextClosed? ==> conduct.approval != Refused)
                && (old(gate.phase) == Free && old(gate.blocked || gate.closed) ==> receipt.RecoveryRequired?)
                && (gate.host.smooth && old(gate.phase) == Free && !old(gate.blocked || gate.closed) ==>
                     !receipt.RecoveryRequired?)
    {
      hide IsRun, Starts, Enabled, Next, Latched, Host.Recorded;
      if !configured { return Unavailable; }
      if !acceptable { return Rejected; }
      if gate.phase != Free { return Busy; }
      var began := gate.Begin(t);
      if !began { return RecoveryRequired; }
      LatchedIsVisible(gate.View());
      gate.Interfere(Operator);
      gate.Validate(conduct.approval == Approved);
      receipt := if conduct.approval == Refused then Rejected else FailedContextClosed;
      if conduct.approval == Approved { receipt := Use(conduct); }
      if receipt.RecoveryRequired? { return; }
      gate.Interfere(Operator);
      var resumed := gate.Resume();
      if !resumed { receipt := RecoveryRequired; }
    }

    /** With a validated context: fill, and destroy it whatever happened. */
    method Use(conduct: Conduct) returns (receipt: Receipt)
      requires gate.Valid() && gate.phase.Using? && conduct.approval == Approved
      modifies gate, gate.host
      ensures gate.Went()
      ensures receipt.RecoveryRequired? ==> gate.blocked && !gate.host.smooth
      ensures !receipt.RecoveryRequired? ==>
                && gate.phase == Resuming(ContextDestroyed)
                && (gate.closed || receipt == if Attempts(conduct) then AttemptedContextClosed else FailedContextClosed)
                && (receipt == AttemptedContextClosed || receipt == FailedContextClosed)
      ensures gate.host.smooth ==>
                gate.blocked && gate.closed == old(gate.closed) && gate.host.visible == old(gate.host.visible)
    {
      hide IsRun, Starts, Enabled, Next, Latched, Authority.Valid, Host.Recorded;
      var attempted := Fill(conduct);
      gate.Leave();
      gate.Interfere(Operator);
      var destroyed := gate.Destroy();
      if !destroyed { return RecoveryRequired; }
      receipt := if attempted then AttemptedContextClosed else FailedContextClosed;
    }

    /** Reads the value, fills and submits; every failure looks alike, and a Close cancels all of it. */
    method Fill(conduct: Conduct) returns (attempted: bool)
      requires gate.Valid() && gate.phase.Using? && conduct.approval == Approved
      modifies gate, gate.host
      ensures gate.Went() && Untaken(old(gate.State()), gate.State())
      ensures attempted ==> Attempts(conduct) && !gate.closed
      ensures Attempts(conduct) ==> attempted || gate.closed
      ensures gate.host.smooth ==> gate.State() == old(gate.State()) && gate.View() == old(gate.View())
    {
      hide IsRun, Starts, Enabled, Next, Authority.Valid, Host.Recorded, Untaken;
      attempted := false;
      ghost var first := gate.State();
      gate.Interfere(Operator);
      if !conduct.startsInTime || gate.closed { return; }
      ghost var second := gate.State();
      gate.Interfere(Operator);      // while the value is read
      StillUntaken(first, second, gate.State());
      second := gate.State();
      if conduct.value.None? || |conduct.value.value| == 0 || |conduct.value.value| > MAX_VALUE || !conduct.readInTime {
        return;
      }
      if gate.closed { return; }
      gate.Interfere(Operator);      // while the driver fills and submits
      StillUntaken(first, second, gate.State());
      match conduct.submission
      case Crashed =>
      case NotSubmitted =>
      case Submitted(done) => attempted := done && conduct.endsInTime && !gate.closed;
    }

    /**
     * Opens a barred gate once every orphaned context is gone. When nothing fails it succeeds unless
     * the gate is closed, busy, or barred without a latch, as after a latch that was never created.
     */
    method Recover() returns (ok: bool)
      requires gate.Valid()
      modifies gate, gate.host
      ensures gate.Went()
      ensures ok ==> !gate.blocked && (gate.locked ==> gate.host.live == {} && !gate.host.visible)
      ensures old(gate.closed) || !configured ==> !ok
      ensures gate.host.smooth && configured ==>
                (ok <==> old(gate.phase == Free && !gate.closed && (gate.blocked ==> gate.host.visible)))
    {
      hide IsRun, Starts, Enabled, Next, Host.Recorded;
      if !configured || gate.phase != Free { return false; }
      if !gate.blocked && !gate.closed {
        gate.Safe();
        return true;
      }
      gate.StartRecovery();
      gate.Interfere(Operator);
      var gone := gate.DestroyOrphans();
      if !gone { return false; }
      gate.Interfere(Operator);
      ok := gate.Resume();
    }
  }

  lemma LatchedIsVisible(w: World)
    ensures Latched(w) ==> w.visible
  {
  }

  /** The operation of a gate stands where it stood. */
  predicate Untaken(before: Gate, after: Gate) {
    && after.phase == before.phase && after.blocked == before.blocked && after.locked == before.locked
    && (before.closed ==> after.closed)
  }

  /** A capture has been pending at every moment since `from`. */
  ghost predicate Holding(run: seq<World>, from: nat, id: nat, o: nat) {
    forall k :: from <= k < |run| ==> id in run[k].gates && o in run[k].gates[id].observations
  }

  lemma ForeignStep(v: World, s: Step, id: nat, role: Role)
    requires Enabled(v, s) && Foreign(s, id, role) && id in v.gates
    ensures id in Next(v, s).gates && (v.gates[id].closed ==> Next(v, s).gates[id].closed)
    ensures role.Operator? ==> Untaken(v.gates[id], Next(v, s).gates[id])
    ensures role.Observer? && role.o in v.gates[id].observations ==> role.o in Next(v, s).gates[id].observations
  {
  }

  /** From the start of a capture to its end the gate was open and no validated context was alive. */
  ghost predicate Undisturbed(run: seq<World>, i: nat, j: int, id: nat) {
    i <= j < |run| && forall m :: i <= m <= j ==> id in run[m].gates && !Barred(run[m].gates[id]) && run[m].live == {}
  }

  lemma PutBack(v: World, id: nat)
    requires id in v.gates
    ensures v == World(v.visible, v.durable, v.live, (v.gates - {id})[id := v.gates[id]])
  {
  }

  lemma SameGate(gate: Gate)
    ensures Untaken(gate, gate)
  {
  }

  lemma StillUntaken(a: Gate, b: Gate, c: Gate)
    requires Untaken(a, b) && Untaken(b, c)
    ensures Untaken(a, c)
  {
  }

  lemma HoldingMore(run: seq<World>, from: nat, id: nat, o: nat, after: World)
    requires Holding(run, from, id, o) && id in after.gates && o in after.gates[id].observations
    ensures Holding(run + [after], from, id, o)
  {
  }

  lemma JustNow(run: seq<World>, k: nat)
    requires |run| == k + 1
    ensures forall id, o :: id in run[k].gates && o in run[k].gates[id].observations ==> Holding(run, k, id, o)
  {
  }

  lemma CleanIsUndisturbed(run: seq<World>, steps: seq<Step>, i: nat, j: nat, id: nat, o: nat)
    requires IsRun(run, steps) && Starts(run[0]) && i <= j < |steps| && 0 < i
    requires steps[i - 1] == ObserveStart(id, o) && steps[j] == ObserveEnd(id, o, false)
    requires Holding(run[..j + 1], i, id, o)
    requires id in run[j].gates && !Barred(run[j].gates[id]) && o in run[j].gates[id].observations
    requires run[j].gates[id].observations[o].epoch == run[j].gates[id].epoch
               && !run[j].gates[id].observations[o].cancelled
    ensures Undisturbed(run, i, j, id)
  {
    assert Pending(run, i, j, id, o) by {
      forall m | i <= m <= j ensures id in run[m].gates && o in run[m].gates[id].observations {
        assert run[..j + 1][m] == run[m];
      }
    }
    assert Enabled(run[j], steps[j]) && Returns(run[j], steps[j]);
    forall m | i <= m <= j ensures id in run[m].gates && !Barred(run[m].gates[id]) && run[m].live == {} {
      ObservationsAreClean(run, steps, i, j, id, o, m);
    }
  }
}

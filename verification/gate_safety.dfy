/** What holds in every run of the gate, whatever crashes and whenever. */
module GateSafety {
  import opened Basics
  import opened GateMachine

  /** A step that moves one gate and leaves the files and contexts alone. */
  lemma Moved(w: World, g: nat, gate: Gate)
    requires Inv(w) && g in w.gates && GateOk(w, gate) && gate.locked == w.gates[g].locked
    ensures Inv(Put(w, g, gate))
  {
    hide PhaseOk;
    var after := Put(w, g, gate);
    forall h | h in after.gates ensures GateOk(after, after.gates[h]) {
      var one := if h == g then gate else w.gates[h];
      assert GateOk(w, one) && after.gates[h] == one;
      SameDisk(w, after, one);
    }
  }

  lemma SameDisk(w: World, after: World, gate: Gate)
    requires GateOk(w, gate) && after.visible == w.visible && after.durable == w.durable && after.live == w.live
    ensures GateOk(after, gate)
  {
  }

  /** Gates without the lock do not depend on the files or the contexts. */
  lemma Bystander(w: World, after: World, gate: Gate)
    requires GateOk(w, gate) && !gate.locked
    ensures GateOk(after, gate)
  {
  }

  /** The authority moves and the files or contexts change; every other gate is a bystander. */
  lemma AuthorityMoved(w: World, after: World, g: nat, gate: Gate)
    requires Inv(w) && g in w.gates && w.gates[g].locked && gate.locked
    requires after.gates == w.gates[g := gate] && GateOk(after, gate)
    requires (after.live != {} ==> Latched(after)) && after.visible in after.durable
    ensures Inv(after)
  {
    forall h | h in after.gates ensures GateOk(after, after.gates[h]) {
      if h != g {
        assert !w.gates[h].locked && GateOk(w, w.gates[h]);
        Bystander(w, after, w.gates[h]);
      }
    }
  }

  lemma OpenKeeps(w: World, g: nat)
    requires Inv(w) && Enabled(w, Open(g))
    ensures Inv(Next(w, Open(g)))
  {
    var after := Next(w, Open(g));
    forall h | h in after.gates ensures GateOk(after, after.gates[h]) {
      if h != g { Bystander(w, after, w.gates[h]); }
    }
  }

  lemma KillKeeps(w: World, g: nat)
    requires Inv(w) && Enabled(w, Kill(g))
    ensures Inv(Next(w, Kill(g)))
  {
    var after := Next(w, Kill(g));
    forall h | h in after.gates ensures GateOk(after, after.gates[h]) {
      assert GateOk(w, w.gates[h]);
      SameDisk(w, after, w.gates[h]);
    }
  }

  lemma ReleaseKeeps(w: World, g: nat)
    requires Inv(w) && Enabled(w, Release(g))
    ensures Inv(Next(w, Release(g)))
  {
    var after := Next(w, Release(g));
    assert GateOk(w, w.gates[g]);
    forall h | h in after.gates ensures GateOk(after, after.gates[h]) {
      if h != g { SameDisk(w, after, w.gates[h]); }
    }
  }

  predicate MovesOnly(s: Step) {
    s.ObserveStart? || s.ObserveEnd? || s.CloseStart? || s.RunStart? || s.Used? || s.RecoverStart?
  }

  lemma MoveKeeps(w: World, s: Step)
    requires Inv(w) && Enabled(w, s) && MovesOnly(s)
    ensures Inv(Next(w, s))
  {
    var gate := Next(w, s).gates[s.g];
    assert GateOk(w, w.gates[s.g]);
    assert GateOk(w, gate);
    hide GateOk;
    Moved(w, s.g, gate);
  }

  predicate TouchesDisk(s: Step) {
    s.Created? || s.LatchSynced? || s.Validated? || s.Destroyed? || s.ResumeSynced?
  }

  lemma TouchKeeps(w: World, s: Step)
    requires Inv(w) && Enabled(w, s) && TouchesDisk(s)
    ensures Inv(Next(w, s))
  {
    var after := Next(w, s);
    assert GateOk(w, w.gates[s.g]);
    assert GateOk(after, after.gates[s.g]);
    hide GateOk;
    AuthorityMoved(w, after, s.g, after.gates[s.g]);
  }

  lemma OrphansKeeps(w: World, s: Step)
    requires Inv(w) && Enabled(w, s) && s.OrphansGone?
    ensures Inv(Next(w, s))
  {
    var after := Next(w, s);
    forall h | h in after.gates ensures GateOk(after, after.gates[h]) {
      assert GateOk(w, w.gates[h]);
    }
  }

  lemma ResumeKeeps(w: World, s: Step)
    requires Inv(w) && Enabled(w, s) && s.ResumeStart?
    ensures Inv(Next(w, s))
  {
    var gate := w.gates[s.g];
    assert GateOk(w, gate);
    var after := Next(w, s);
    if gate.locked {
      AuthorityMoved(w, after, s.g, after.gates[s.g]);
    } else {
      assert !MayResume(gate);
      Moved(w, s.g, gate.(phase := Free));
    }
  }

  lemma StepKeeps(w: World, s: Step)
    requires Inv(w) && Enabled(w, s)
    ensures Inv(Next(w, s))
  {
    if s.Open? { OpenKeeps(w, s.g); }
    else if s.Kill? { KillKeeps(w, s.g); }
    else if s.PowerLoss? { }
    else if s.Release? { ReleaseKeeps(w, s.g); }
    else if s.OrphansGone? { OrphansKeeps(w, s); }
    else if s.ResumeStart? { ResumeKeeps(w, s); }
    else if TouchesDisk(s) { TouchKeeps(w, s); }
    else { MoveKeeps(w, s); }
  }

  lemma {:induction false} RunKeeps(run: seq<World>, steps: seq<Step>, k: nat)
    requires IsRun(run, steps) && Starts(run[0]) && k < |run|
    ensures Inv(run[k])
  {
    if k > 0 {
      RunKeeps(run, steps, k - 1);
      assert Enabled(run[k - 1], steps[k - 1]);
      StepKeeps(run[k - 1], steps[k - 1]);
    }
  }

  // ----- The latch -----------------------------------------------------------------------------

  /**
   * While a validated context may be alive, the latch is there and durable: whatever crash comes
   * next leaves it there, and a gate opened then starts blocked.
   */
  lemma LiveMeansLatched(run: seq<World>, steps: seq<Step>, k: nat)
    requires IsRun(run, steps) && Starts(run[0]) && k < |run| && run[k].live != {}
    ensures Latched(run[k])
    ensures k < |steps| && steps[k].PowerLoss? ==> Latched(run[k + 1])
    ensures k < |steps| && steps[k].Open? ==> run[k + 1].gates[steps[k].g].blocked
  {
    RunKeeps(run, steps, k);
    if k < |steps| { assert Enabled(run[k], steps[k]); }
  }

  // ----- Opening the gate again ----------------------------------------------------------------

  predicate Unblocks(w: World, after: World, g: nat) {
    g in w.gates && g in after.gates && w.gates[g].blocked && !after.gates[g].blocked
  }

  function Why(p: Phase): Option<Reason> {
    if p.Resuming? || p.Removed? then Some(p.why) else None
  }

  /** The event that gives an operation its reason to open the gate. */
  predicate Ended(s: Step, g: nat, why: Reason) {
    match why
    case NeverValidated => s == Validated(g, false)
    case ContextDestroyed => s.Destroyed? && s.g == g && s.ok
    case OrphansDestroyed => s.OrphansGone? && s.g == g && s.ok
  }

  lemma ReasonStep(w: World, s: Step, g: nat)
    requires Enabled(w, s) && g in Next(w, s).gates && Why(Next(w, s).gates[g].phase).Some?
    ensures var why := Why(Next(w, s).gates[g].phase).value;
            Ended(s, g, why) || (g in w.gates && Why(w.gates[g].phase) == Some(why))
  {
  }

  lemma {:induction false} ReasonIsTrue(run: seq<World>, steps: seq<Step>, k: nat, g: nat, why: Reason) returns (j: nat)
    requires IsRun(run, steps) && Starts(run[0]) && k < |run|
    requires g in run[k].gates && Why(run[k].gates[g].phase) == Some(why)
    ensures j < k && Ended(steps[j], g, why)
    ensures forall i :: j < i <= k ==> g in run[i].gates && Why(run[i].gates[g].phase) == Some(why)
  {
    assert k > 0;
    assert Enabled(run[k - 1], steps[k - 1]);
    ReasonStep(run[k - 1], steps[k - 1], g);
    if Ended(steps[k - 1], g, why) {
      j := k - 1;
    } else {
      j := ReasonIsTrue(run, steps, k - 1, g, why);
    }
  }

  lemma UnblockStep(w: World, s: Step, g: nat)
    requires Inv(w) && Enabled(w, s) && Unblocks(w, Next(w, s), g)
    ensures s.ResumeSynced? && s.g == g && s.ok && w.gates[g].phase.Removed? && w.live == {}
    ensures !Next(w, s).visible && Next(w, s).durable == {Next(w, s).visible}
  {
    assert GateOk(w, w.gates[g]);
    if s.ResumeSynced? {
      assert GateOk(w, w.gates[s.g]);
      assert w.visible in w.durable;
    }
  }

  /**
   * A gate is opened again only by a resume whose reason is true: the context, or every orphan, was
   * destroyed, or validation never succeeded. No context is alive then, nor was any since, and the
   * latch is durably gone.
   */
  lemma OpensOnlyWhenDestroyed(run: seq<World>, steps: seq<Step>, k: nat, g: nat) returns (j: nat, why: Reason)
    requires IsRun(run, steps) && Starts(run[0]) && k < |steps| && Unblocks(run[k], run[k + 1], g)
    ensures j < k && Ended(steps[j], g, why)
    ensures forall i :: j < i <= k ==> run[i].live == {}
    ensures !run[k + 1].visible && run[k + 1].durable == {false}
  {
    RunKeeps(run, steps, k);
    assert Enabled(run[k], steps[k]);
    UnblockStep(run[k], steps[k], g);
    why := run[k].gates[g].phase.why;
    j := ReasonIsTrue(run, steps, k, g, why);
    forall i | j < i <= k ensures run[i].live == {} {
      RunKeeps(run, steps, i);
      LockedThroughout(run, steps, i, k, g, why);
      assert GateOk(run[i], run[i].gates[g]);
    }
  }

  /** A gate that is about to be opened has held the lock since it had its reason. */
  lemma {:induction false} LockedThroughout(run: seq<World>, steps: seq<Step>, i: nat, k: nat, g: nat, why: Reason)
    requires IsRun(run, steps) && i <= k < |run| && g in run[k].gates && run[k].gates[g].locked
    requires forall m :: i <= m <= k ==> g in run[m].gates && Why(run[m].gates[g].phase) == Some(why)
    ensures run[i].gates[g].locked
    decreases k - i
  {
    if i < k {
      LockedThroughout(run, steps, i + 1, k, g, why);
      assert Enabled(run[i], steps[i]);
      LockKept(run[i], steps[i], g);
    }
  }

  lemma LockKept(w: World, s: Step, g: nat)
    requires Enabled(w, s) && g in w.gates && g in Next(w, s).gates && Next(w, s).gates[g].locked
    ensures w.gates[g].locked
  {
  }

  // ----- Observations --------------------------------------------------------------------------

  /** One capture from its start to before its end: the gate holds it all the while. */
  predicate Pending(run: seq<World>, i: nat, j: nat, g: nat, o: nat) {
    i <= j < |run| && forall m :: i <= m <= j ==> g in run[m].gates && o in run[m].gates[g].observations
  }

  /** What bars a gate: the begin of an operation, or a Close. */
  predicate Bars(s: Step, g: nat) { (s.RunStart? || s.CloseStart?) && s.g == g }

  /** A capture keeps its epoch, and is cancelled by nothing but a barrier. */
  lemma CaptureStep(w: World, s: Step, g: nat, o: nat)
    requires Enabled(w, s) && g in w.gates && g in Next(w, s).gates
    requires o in w.gates[g].observations && o in Next(w, s).gates[g].observations
    ensures var before, after := w.gates[g].observations[o], Next(w, s).gates[g].observations[o];
            after.epoch == before.epoch && (after.cancelled <==> before.cancelled || Bars(s, g))
  {
  }

  /** A capture is cancelled exactly by the barriers it meets. */
  lemma {:induction false} CancelledExactly(run: seq<World>, steps: seq<Step>, i: nat, j: nat, g: nat, o: nat)
    requires IsRun(run, steps) && Pending(run, i, j, g, o) && !run[i].gates[g].observations[o].cancelled
    ensures run[j].gates[g].observations[o].epoch == run[i].gates[g].observations[o].epoch
    ensures run[j].gates[g].observations[o].cancelled <==> exists m :: i <= m < j && Bars(steps[m], g)
    decreases j - i
  {
    if i < j {
      CancelledExactly(run, steps, i, j - 1, g, o);
      assert Enabled(run[j - 1], steps[j - 1]);
      CaptureStep(run[j - 1], steps[j - 1], g, o);
      if run[j].gates[g].observations[o].cancelled && !run[j - 1].gates[g].observations[o].cancelled {
        assert Bars(steps[j - 1], g);
      }
    }
  }

  lemma StartsUncancelled(run: seq<World>, steps: seq<Step>, i: nat, g: nat, o: nat)
    requires IsRun(run, steps) && 0 < i < |run| && steps[i - 1] == ObserveStart(g, o)
    ensures g in run[i].gates && o in run[i].gates[g].observations && !run[i].gates[g].observations[o].cancelled
  {
    assert Enabled(run[i - 1], steps[i - 1]);
  }

  /**
   * Observe returns the captured value exactly when the capture worked and no operation began and
   * nobody closed the gate since its start. The epoch, which may come round, is not even needed.
   */
  lemma ReturnsExactly(run: seq<World>, steps: seq<Step>, i: nat, j: nat, g: nat, o: nat, failed: bool)
    requires IsRun(run, steps) && Starts(run[0]) && 0 < i <= j < |steps| && steps[i - 1] == ObserveStart(g, o)
    requires Pending(run, i, j, g, o) && steps[j] == ObserveEnd(g, o, failed)
    ensures Enabled(run[j], steps[j])
    ensures Returns(run[j], steps[j]) <==> !failed && forall m :: i <= m < j ==> !Bars(steps[m], g)
  {
    assert Enabled(run[j], steps[j]);
    StartsUncancelled(run, steps, i, g, o);
    CancelledExactly(run, steps, i, j, g, o);
    RunKeeps(run, steps, j);
    assert GateOk(run[j], run[j].gates[g]);
  }

  /**
   * An Observe call that returns a value overlapped no moment at which the gate was blocked or
   * closed, and none at which a validated context was alive.
   */
  lemma ObservationsAreClean(run: seq<World>, steps: seq<Step>, i: nat, j: nat, g: nat, o: nat, m: nat)
    requires IsRun(run, steps) && Starts(run[0]) && 0 < i <= m <= j < |steps| && steps[i - 1] == ObserveStart(g, o)
    requires Pending(run, i, j, g, o) && steps[j].ObserveEnd? && steps[j].g == g && steps[j].o == o
    requires Enabled(run[j], steps[j]) && Returns(run[j], steps[j])
    ensures !run[m].gates[g].blocked && !run[m].gates[g].closed && run[m].live == {}
  {
    StartsUncancelled(run, steps, i, g, o);
    CancelledExactly(run, steps, i, j, g, o);
    CancelledExactly(run, steps, i, m, g, o);
    RunKeeps(run, steps, m);
    assert GateOk(run[m], run[m].gates[g]);
  }

  // ----- The epoch -----------------------------------------------------------------------------

  /** The begin of an operation, a Close, or a resume that opened the gate. */
  predicate Turns(s: Step, g: nat) {
    (s.RunStart? || s.CloseStart? || (s.ResumeSynced? && s.ok)) && s.g == g
  }

  function Turned(steps: seq<Step>, i: nat, j: nat, g: nat): nat
    requires i <= j <= |steps|
  {
    if i == j then 0 else Turned(steps, i, j - 1, g) + if Turns(steps[j - 1], g) then 1 else 0
  }

  lemma EpochStep(w: World, s: Step, g: nat)
    requires Enabled(w, s) && g in w.gates && g in Next(w, s).gates && !(s.Open? && s.g == g)
    ensures Next(w, s).gates[g].epoch ==
            if Turns(s, g) then (w.gates[g].epoch + 1) % 0x1_0000_0000_0000_0000 else w.gates[g].epoch
  {
  }

  lemma OneMoreTurn(epoch: nat, n: nat)
    ensures ((epoch + n) % 0x1_0000_0000_0000_0000 + 1) % 0x1_0000_0000_0000_0000 ==
            (epoch + n + 1) % 0x1_0000_0000_0000_0000
  {
  }

  /**
   * While a gate lives its epoch counts what barred or opened it, as a 64-bit counter: it comes back
   * to the same value only after a multiple of 2^64 such turns.
   */
  lemma {:induction false} EpochCounts(run: seq<World>, steps: seq<Step>, i: nat, j: nat, g: nat)
    requires IsRun(run, steps) && i <= j < |run|
    requires forall m :: i <= m <= j ==> g in run[m].gates
    requires run[i].gates[g].epoch < 0x1_0000_0000_0000_0000
    ensures run[j].gates[g].epoch == (run[i].gates[g].epoch + Turned(steps, i, j, g)) % 0x1_0000_0000_0000_0000
    decreases j
  {
    if i < j {
      EpochCounts(run, steps, i, j - 1, g);
      assert Enabled(run[j - 1], steps[j - 1]);
      EpochStep(run[j - 1], steps[j - 1], g);
      OneMoreTurn(run[i].gates[g].epoch, Turned(steps, i, j - 1, g));
    }
  }

  // ----- Barred without a latch ----------------------------------------------------------------

  /** Barred for good: closed, or blocked with no latch for a resume to remove. */
  predicate Stuck(w: World, g: nat) {
    && g in w.gates
    && (w.gates[g].closed
         || (&& w.gates[g].blocked && !w.visible
             && (w.gates[g].phase == Free || w.gates[g].phase == Orphans || w.gates[g].phase.Resuming?)))
  }

  lemma StuckStep(w: World, s: Step, g: nat)
    requires Inv(w) && Enabled(w, s) && Stuck(w, g) && s != Kill(g) && !s.PowerLoss?
    ensures Stuck(Next(w, s), g)
  {
    assert GateOk(w, w.gates[g]);
    if s.Created? || s.ResumeSynced? { assert GateOk(w, w.gates[s.g]); }
  }

  /** A gate that blocked itself without a latch stays barred until its process or the machine dies. */
  lemma {:induction false} StuckForever(run: seq<World>, steps: seq<Step>, i: nat, j: nat, g: nat)
    requires IsRun(run, steps) && Starts(run[0]) && i <= j < |run| && Stuck(run[i], g)
    requires forall m :: i <= m < j ==> steps[m] != Kill(g) && !steps[m].PowerLoss?
    ensures Stuck(run[j], g) && Barred(run[j].gates[g])
    decreases j
  {
    if i < j {
      StuckForever(run, steps, i, j - 1, g);
      RunKeeps(run, steps, j - 1);
      assert Enabled(run[j - 1], steps[j - 1]);
      StuckStep(run[j - 1], steps[j - 1], g);
    }
  }

  /** It happens: the very first operation of a gate whose latch file cannot be created. */
  lemma LatchMayBeMissing() returns (run: seq<World>, steps: seq<Step>)
    ensures IsRun(run, steps) && Starts(run[0]) && |run| == 4
    ensures var w := run[3];
            && 0 in w.gates && w.gates[0].locked && w.gates[0].blocked && !w.gates[0].closed
            && w.gates[0].phase == Free && !w.visible && Stuck(w, 0)
  {
    var w0 := World(false, {false}, {}, map[]);
    var w1 := Next(w0, Open(0));
    var w2 := Next(w1, RunStart(0, "t"));
    var w3 := Next(w2, Created(0, false, false));
    run, steps := [w0, w1, w2, w3], [Open(0), RunStart(0, "t"), Created(0, false, false)];
  }
}

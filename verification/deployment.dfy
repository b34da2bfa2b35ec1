/** Ordered deployment: stage everywhere, activate in order, roll back in reverse. */
module Deployment {
  import opened Basics

  type Evidence = string
  type Request = string

  /** A destination by name; a missing adapter or name makes it malformed. */
  datatype Target = Target(name: string, hasAdapter: bool)

  /** What reached the adapters: the target's position, what it was given and how it answered. */
  datatype Event =
    | Stage(t: nat, request: Request, answer: Option<Evidence>)
    | Activate(t: nat, given: Evidence, answer: Option<Evidence>)
    | Verify(t: nat, given: Evidence, healthy: bool)
    | Rollback(t: nat, given: Evidence, done: bool)

  datatype Phase = Staging | Activating | Verifying

  datatype Outcome =
    | Deployed(evidence: seq<Evidence>)
    | Invalid
    | Failed(phase: Phase, target: string, rolledBack: seq<string>)

  predicate WellFormed(targets: seq<Target>, requests: map<string, Request>, i: nat)
    requires i < |targets|
  {
    targets[i].name != "" && targets[i].hasAdapter && targets[i].name in requests
  }

  predicate AllWellFormed(targets: seq<Target>, requests: map<string, Request>) {
    forall i :: 0 <= i < |targets| ==> WellFormed(targets, requests, i)
  }

  // ----- What the log may look like ------------------------------------------------------------

  /** Each of the first `n` targets staged, in order. */
  predicate StagedInOrder(log: seq<Event>, requests: map<string, Request>, targets: seq<Target>, staged: seq<Evidence>,
                          n: nat) {
    && n <= |targets| && n <= |staged| && |log| == n
    && forall i :: 0 <= i < n ==>
         targets[i].name in requests && log[i] == Stage(i, requests[targets[i].name], Some(staged[i]))
  }

  /** Each of the first `n` targets activated on its staging evidence and found healthy, in order. */
  predicate ActivatedInOrder(log: seq<Event>, staged: seq<Evidence>, activated: seq<Evidence>, n: nat) {
    && n <= |staged| && n <= |activated| && |log| == 2 * n
    && forall i :: 0 <= i < n ==>
         log[2 * i] == Activate(i, staged[i], Some(activated[i])) && log[2 * i + 1] == Verify(i, activated[i], true)
  }

  /** The first `n` targets rolled back once each, the last first, each on the evidence given. */
  predicate RolledBackInReverse(log: seq<Event>, newest: seq<Evidence>, n: nat) {
    && n <= |newest| && |log| == n
    && forall i :: 0 <= i < n ==> log[i].Rollback? && log[i].t == n - 1 - i && log[i].given == newest[n - 1 - i]
  }

  /** The targets whose rollback was done, in the order of the rollbacks. */
  function Reported(targets: seq<Target>, back: seq<Event>): seq<string> {
    if back == [] then []
    else
      var last := back[|back| - 1];
      Reported(targets, back[..|back| - 1]) +
      if last.Rollback? && last.done && last.t < |targets| then [targets[last.t].name] else []
  }

  /** Rolled back in reverse, and reported so. */
  predicate RolledBackAs(targets: seq<Target>, back: seq<Event>, newest: seq<Evidence>, n: nat, rolled: seq<string>) {
    RolledBackInReverse(back, newest, n) && rolled == Reported(targets, back)
  }

  /** A name is reported exactly if a rollback of a target of that name was done. */
  lemma {:induction false} ReportedExactly(targets: seq<Target>, back: seq<Event>, name: string)
    ensures name in Reported(targets, back) <==>
              exists k :: && 0 <= k < |back| && back[k].Rollback? && back[k].done && back[k].t < |targets|
                          && targets[back[k].t].name == name
  {
    if back != [] {
      var most, last := back[..|back| - 1], back[|back| - 1];
      ReportedExactly(targets, most, name);
      forall k | 0 <= k < |most| ensures most[k] == back[k] {}
      if last.Rollback? && last.done && last.t < |targets| && targets[last.t].name == name {
        assert back[|back| - 1] == last;
      }
    }
  }

  /** The newest evidence of each target: of its activation if it got that far, else of its staging. */
  function Newest(staged: seq<Evidence>, activated: seq<Evidence>): seq<Evidence>
    requires |activated| <= |staged|
  {
    activated + staged[|activated|..]
  }

  /** A run in four parts, with the evidence collected on the way. */
  datatype Parts = Parts(staging: seq<Event>, activating: seq<Event>, broken: seq<Event>, back: seq<Event>,
                         staged: seq<Evidence>, activated: seq<Evidence>)

  function Whole(p: Parts): seq<Event> { p.staging + p.activating + p.broken + p.back }

  predicate StagedAll(targets: seq<Target>, requests: map<string, Request>, p: Parts) {
    StagedInOrder(p.staging, requests, targets, p.staged, |targets|) && |p.staged| == |targets|
  }

  /** How a run may go and end. */
  predicate Shape(targets: seq<Target>, requests: map<string, Request>, outcome: Outcome, p: Parts) {
    match outcome
    case Deployed(evidence) =>
      && StagedAll(targets, requests, p) && ActivatedInOrder(p.activating, p.staged, p.activated, |targets|)
      && evidence == p.activated && |p.activated| == |targets| && p.broken == [] && p.back == []
    case Invalid =>
      var i := |p.staging|;
      && StagedInOrder(p.staging, requests, targets, p.staged, i) && p.activating == p.broken == p.back == []
      && (i < |targets| ==> !WellFormed(targets, requests, i)) && (i == |targets| ==> targets == [])
    case Failed(phase, name, rolled) =>
      if phase == Staging then
        var i := |p.staging|;
        && i < |targets| && targets[i].name == name && WellFormed(targets, requests, i) && p.activating == []
        && StagedInOrder(p.staging, requests, targets, p.staged, i) && |p.staged| == i && p.activated == []
        && p.broken == [Stage(i, requests[name], None)] && RolledBackAs(targets, p.back, p.staged, i, rolled)
      else
        var i := |p.activating| / 2;
        && StagedAll(targets, requests, p) && i < |targets| && targets[i].name == name
        && ActivatedInOrder(p.activating, p.staged, p.activated, i)
        && (if phase == Activating
            then |p.activated| == i && p.broken == [Activate(i, p.staged[i], None)]
            else |p.activated| == i + 1 &&
                 p.broken == [Activate(i, p.staged[i], Some(p.activated[i])), Verify(i, p.activated[i], false)])
        && RolledBackAs(targets, p.back, Newest(p.staged, p.activated), |targets|, rolled)
  }

  // ----- What that means -----------------------------------------------------------------------

  /** Nothing is activated before every target is staged, on the evidence its staging returned. */
  lemma ActivatesWhenAllStaged(targets: seq<Target>, requests: map<string, Request>, outcome: Outcome, p: Parts, k: nat,
                               t: nat)
    requires Shape(targets, requests, outcome, p) && k < |Whole(p)| && Whole(p)[k].Activate? && t < |targets|
    ensures t < |targets| <= k && t < |p.staged|
              && Whole(p)[t] == Stage(t, requests[targets[t].name], Some(p.staged[t]))
    ensures Whole(p)[k].t < |p.staged| && Whole(p)[k].given == p.staged[Whole(p)[k].t]
  {
    EventOfPart(p, k);
    EventOfPart(p, t);
    ActivationAt(targets, requests, outcome, p, k);
  }

  /** Where an event of the whole run stands. */
  lemma EventOfPart(p: Parts, k: nat)
    requires k < |Whole(p)|
    ensures k < |p.staging| ==> Whole(p)[k] == p.staging[k]
    ensures |p.staging| <= k < |p.staging| + |p.activating| ==> Whole(p)[k] == p.activating[k - |p.staging|]
    ensures var b := |p.staging| + |p.activating|;
            && (b <= k < b + |p.broken| ==> Whole(p)[k] == p.broken[k - b])
            && (b + |p.broken| <= k ==> k - b - |p.broken| < |p.back| && Whole(p)[k] == p.back[k - b - |p.broken|])
  {
  }

  /** A target is activated only after every earlier one was found healthy on its own activation. */
  lemma ActivatesAfterHealthy(targets: seq<Target>, requests: map<string, Request>, outcome: Outcome, p: Parts, k: nat,
                              t: nat)
    requires Shape(targets, requests, outcome, p) && k < |Whole(p)| && Whole(p)[k].Activate? && t < Whole(p)[k].t
    ensures |targets| + 2 * t + 1 < k && t < |p.activated|
    ensures Whole(p)[|targets| + 2 * t + 1] == Verify(t, p.activated[t], true)
  {
    EventOfPart(p, k);
    ActivationAt(targets, requests, outcome, p, k);
    EventOfPart(p, |targets| + 2 * t + 1);
  }

  lemma Alternates(a: seq<Event>, staged: seq<Evidence>, activated: seq<Evidence>, n: nat, j: nat)
    requires ActivatedInOrder(a, staged, activated, n) && j < |a|
    ensures j / 2 < n && j / 2 < |staged|
    ensures a[j] == if j % 2 == 0 then Activate(j / 2, staged[j / 2], Some(activated[j / 2]))
              else Verify(j / 2, activated[j / 2], true)
  {
    assert j == 2 * (j / 2) + j % 2;
  }

  /** Activations stand at every second place after the stagings. */
  lemma ActivationAt(targets: seq<Target>, requests: map<string, Request>, outcome: Outcome, p: Parts, k: nat)
    requires Shape(targets, requests, outcome, p) && k < |Whole(p)| && Whole(p)[k].Activate?
    ensures StagedAll(targets, requests, p) && |p.staging| == |targets| && k == |targets| + 2 * Whole(p)[k].t
    ensures Whole(p)[k].t < |p.staged| && Whole(p)[k].given == p.staged[Whole(p)[k].t]
    ensures forall t :: 0 <= t < Whole(p)[k].t ==>
              2 * t + 1 < |p.activating| && t < |p.activated|
                && p.activating[2 * t + 1] == Verify(t, p.activated[t], true)
  {
    EventOfPart(p, k);
    var j := k - |p.staging|;
    if 0 <= j < |p.activating| { Alternates(p.activating, p.staged, p.activated, |p.activating| / 2, j); }
  }

  /** On failure every staged target is rolled back once, the last first, on its newest evidence. */
  lemma RollsBackEveryStaged(targets: seq<Target>, requests: map<string, Request>, outcome: Outcome, p: Parts, t: nat)
    requires Shape(targets, requests, outcome, p) && outcome.Failed? && t < |p.staging|
    ensures var at := |Whole(p)| - 1 - t;
            && 0 <= at < |Whole(p)| && Whole(p)[at].Rollback? && Whole(p)[at].t == t
            && Whole(p)[at].given == (if t < |p.activated| then p.activated[t] else p.staged[t])
            && forall k :: 0 <= k < |Whole(p)| && Whole(p)[k].Rollback? && Whole(p)[k].t == t ==> k == at
    ensures |p.back| == |p.staging|
  {
    EventOfPart(p, |Whole(p)| - 1 - t);
    forall k | 0 <= k < |Whole(p)| && Whole(p)[k].Rollback? && Whole(p)[k].t == t ensures k == |Whole(p)| - 1 - t {
      EventOfPart(p, k);
      OnlyBackRollsBack(targets, requests, outcome, p, k);
    }
  }

  lemma OnlyBackRollsBack(targets: seq<Target>, requests: map<string, Request>, outcome: Outcome, p: Parts, k: nat)
    requires Shape(targets, requests, outcome, p) && k < |Whole(p)| && Whole(p)[k].Rollback?
    ensures outcome.Failed? && |p.staging| + |p.activating| + |p.broken| <= k
  {
    EventOfPart(p, k);
    var j := k - |p.staging|;
    if 0 <= j < |p.activating| { Alternates(p.activating, p.staged, p.activated, |p.activating| / 2, j); }
  }

  /**
   * A malformed target stops the run without any rollback, however many targets are staged by then;
   * well-formed input never ends that way.
   */
  lemma InvalidRollsNothingBack(targets: seq<Target>, requests: map<string, Request>, outcome: Outcome, p: Parts)
    requires Shape(targets, requests, outcome, p)
    ensures outcome == Invalid ==> Whole(p) == p.staging && forall k :: 0 <= k < |Whole(p)| ==> Whole(p)[k].Stage?
    ensures outcome == Invalid ==> targets == [] || !AllWellFormed(targets, requests)
    ensures outcome == Invalid && p.staging != [] ==>
              |p.staging| < |targets| && !WellFormed(targets, requests, |p.staging|)
  {
  }

  /** And it happens: one target is staged, the next is malformed, and the run ends there. */
  lemma StagedMayBeAbandoned() returns (targets: seq<Target>, requests: map<string, Request>, p: Parts)
    ensures Shape(targets, requests, Invalid, p) && StagingStops(targets, requests, {}, 1)
              && !WellFormed(targets, requests, 1)
    ensures Whole(p) == [Stage(0, "r", Some("e"))]
  {
    targets, requests := [Target("a", true), Target("b", false)], map["a" := "r"];
    p := Parts([Stage(0, "r", Some("e"))], [], [], [], ["e"], []);
  }

  predicate Went(e: Event) {
    (e.Stage? && e.answer.Some?) || (e.Activate? && e.answer.Some?) || (e.Verify? && e.healthy)
  }

  predicate Broke(e: Event, phase: Phase) {
    match phase
    case Staging => e.Stage? && e.answer.None?
    case Activating => e.Activate? && e.answer.None?
    case Verifying => e.Verify? && !e.healthy
  }

  /**
   * A failure names the one thing that went wrong: everything before it went well, and only rollbacks
   * follow it.
   */
  lemma FailureIsNamed(targets: seq<Target>, requests: map<string, Request>, outcome: Outcome, p: Parts)
    returns (k: nat)
    requires Shape(targets, requests, outcome, p) && outcome.Failed?
    ensures k < |Whole(p)| && Broke(Whole(p)[k], outcome.phase)
    ensures Whole(p)[k].t < |targets| && targets[Whole(p)[k].t].name == outcome.target
    ensures forall i :: 0 <= i < k ==> Went(Whole(p)[i])
    ensures forall i :: k < i < |Whole(p)| ==> Whole(p)[i].Rollback?
  {
    k := |p.staging| + |p.activating| + |p.broken| - 1;
    EventOfPart(p, k);
    forall i | 0 <= i < |Whole(p)| && i != k ensures if i < k then Went(Whole(p)[i]) else Whole(p)[i].Rollback? {
      EventOfPart(p, i);
      var j := i - |p.staging|;
      if 0 <= j < |p.activating| { Alternates(p.activating, p.staged, p.activated, |p.activating| / 2, j); }
    }
  }

  /** A deployment is reported with the evidence each target gave when it was activated, in order. */
  lemma DeployedIsWhole(targets: seq<Target>, requests: map<string, Request>, outcome: Outcome, p: Parts, t: nat)
    requires Shape(targets, requests, outcome, p) && outcome.Deployed? && t < |targets|
    ensures |outcome.evidence| == |targets| && |Whole(p)| == 3 * |targets|
    ensures var at := |targets| + 2 * t;
            && Whole(p)[at].Activate? && Whole(p)[at].t == t && Whole(p)[at].answer == Some(outcome.evidence[t])
            && Whole(p)[at + 1] == Verify(t, outcome.evidence[t], true)
    ensures Whole(p)[t].Stage? && Whole(p)[t].t == t && Whole(p)[t].answer == Some(Whole(p)[|targets| + 2 * t].given)
  {
    EventOfPart(p, t);
    EventOfPart(p, |targets| + 2 * t);
    EventOfPart(p, |targets| + 2 * t + 1);
  }

  // ----- The workflow --------------------------------------------------------------------------

  /** Which of the targets, by position, the adapters will not stage, activate or find healthy. */
  datatype Conduct = Conduct(unstaged: set<nat>, unactivated: set<nat>, unhealthy: set<nat>)

  /** The first target that is malformed or that its adapter will not stage. */
  predicate StagingStops(targets: seq<Target>, requests: map<string, Request>, unstaged: set<nat>, i: nat) {
    && i < |targets| && (!WellFormed(targets, requests, i) || i in unstaged)
    && forall k: nat :: k < i ==> WellFormed(targets, requests, k) && k !in unstaged
  }

  predicate Activates(targets: seq<Target>, c: Conduct, n: nat) {
    n <= |targets| && forall k: nat :: k < n ==> k !in c.unactivated && k !in c.unhealthy
  }

  predicate Deploys(targets: seq<Target>, requests: map<string, Request>, c: Conduct) {
    && targets != [] && Activates(targets, c, |targets|)
    && forall k: nat :: k < |targets| ==> WellFormed(targets, requests, k) && k !in c.unstaged
  }

  class Workflow {
    const targets: seq<Target>
    const requests: map<string, Request>
    const conduct: Conduct
    ghost var log: seq<Event>

    constructor (targets: seq<Target>, requests: map<string, Request>, conduct: Conduct)
      ensures this.targets == targets && this.requests == requests && this.conduct == conduct && log == []
    {
      this.targets, this.requests, this.conduct, log := targets, requests, conduct, [];
    }

    method StageOne(t: nat, request: Request) returns (answer: Option<Evidence>)
      modifies this
      ensures log == old(log) + [Stage(t, request, answer)] && (answer.None? <==> t in conduct.unstaged)
    {
      var evidence: Evidence := *;
      answer := if t in conduct.unstaged then None else Some(evidence);
      log := log + [Stage(t, request, answer)];
    }

    method ActivateOne(t: nat, given: Evidence) returns (answer: Option<Evidence>)
      modifies this
      ensures log == old(log) + [Activate(t, given, answer)] && (answer.None? <==> t in conduct.unactivated)
    {
      var evidence: Evidence := *;
      answer := if t in conduct.unactivated then None else Some(evidence);
      log := log + [Activate(t, given, answer)];
    }

    /** An error and an unhealthy answer are the same to the workflow. */
    method VerifyOne(t: nat, given: Evidence) returns (healthy: bool)
      modifies this
      ensures log == old(log) + [Verify(t, given, healthy)] && (healthy <==> t !in conduct.unhealthy)
    {
      healthy := t !in conduct.unhealthy;
      log := log + [Verify(t, given, healthy)];
    }

    method RollbackOne(t: nat, given: Evidence) returns (done: bool)
      modifies this
      ensures log == old(log) + [Rollback(t, given, done)]
    {
      done := *;
      log := log + [Rollback(t, given, done)];
    }

    /** Walks back over the first `n` targets; a rollback that fails does not stop the others. */
    method RollBack(n: nat, evidence: seq<Evidence>) returns (rolled: seq<string>, ghost tail: seq<Event>)
      requires n <= |targets| && n <= |evidence|
      modifies this
      ensures log == old(log) + tail && RolledBackAs(targets, tail, evidence, n, rolled)
    {
      rolled, tail := [], [];
      var i := n;
      while i > 0
        invariant 0 <= i <= n && log == old(log) + tail && |tail| == n - i
        invariant forall k :: 0 <= k < n - i ==>
                    tail[k].Rollback? && tail[k].t == n - 1 - k && tail[k].given == evidence[n - 1 - k]
        invariant rolled == Reported(targets, tail)
      {
        i := i - 1;
        var done := RollbackOne(i, evidence[i]);
        ghost var before := tail;
        tail := tail + [Rollback(i, evidence[i], done)];
        assert tail[..|before|] == before;
        if done { rolled := rolled + [targets[i].name]; }
      }
    }

    /**
     * Stages everywhere before the first activation; activates and checks one target after the
     * other; undoes all of it when anything fails. It ends as invalid exactly when the first target
     * that is malformed or refuses to be staged is a malformed one, and deploys exactly when every
     * target is well formed and plays its part.
     */
    method DeployInOrder() returns (outcome: Outcome, ghost p: Parts)
      modifies this
      ensures log == old(log) + Whole(p) && Shape(targets, requests, outcome, p)
      ensures outcome == Invalid <==>
                targets == [] || exists i ::
                  StagingStops(targets, requests, conduct.unstaged, i) && !WellFormed(targets, requests, i)
      ensures outcome == Invalid && targets != [] ==> StagingStops(targets, requests, conduct.unstaged, |p.staging|)
      ensures outcome.Failed? && outcome.phase == Staging <==>
                exists i :: StagingStops(targets, requests, conduct.unstaged, i) && WellFormed(targets, requests, i)
      ensures outcome.Deployed? <==> Deploys(targets, requests, conduct)
    {
      p := Parts([], [], [], [], [], []);
      if |targets| == 0 {
        assert old(log) + [] == log && Whole(p) == [];
        return Invalid, p;
      }
      var staged, stop;
      stop, staged, p := StageAll();
      if stop.Some? {
        assert StagingStops(targets, requests, conduct.unstaged, |p.staging|);
        return stop.value, p;
      }
      outcome, p := ActivateAll(staged, p, old(log));
    }

    method StageAll() returns (stop: Option<Outcome>, staged: seq<Evidence>, ghost p: Parts)
      requires targets != []
      modifies this
      ensures log == old(log) + Whole(p)
      ensures stop.Some? ==>
                && Shape(targets, requests, stop.value, p)
                     && StagingStops(targets, requests, conduct.unstaged, |p.staging|)
                && stop.value == if WellFormed(targets, requests, |p.staging|)
                                 then Failed(Staging, targets[|p.staging|].name, stop.value.rolledBack) else Invalid
      ensures stop.None? ==> forall k: nat :: k < |targets| ==>
                WellFormed(targets, requests, k) && k !in conduct.unstaged
      ensures stop.None? ==>
                StagedAll(targets, requests, p) && staged == p.staged && p == Parts(p.staging, [], [], [], staged, [])
    {
      hide RolledBackAs, RolledBackInReverse, Reported, ActivatedInOrder, Newest;
      staged := [];
      ghost var s: seq<Event> := [];
      for i := 0 to |targets|
        invariant |staged| == i && log == old(log) + s && StagedInOrder(s, requests, targets, staged, i)
        invariant forall k: nat :: k < i ==> WellFormed(targets, requests, k) && k !in conduct.unstaged
      {
        if targets[i].name == "" || !targets[i].hasAdapter || targets[i].name !in requests {
          p := Parts(s, [], [], [], staged, []);
          assert Whole(p) == s;
          return Some(Invalid), staged, p;
        }
        var request := requests[targets[i].name];
        var answer := StageOne(i, request);
        if answer.None? {
          var rolled; ghost var tail;
          rolled, tail := RollBack(i, staged);
          p := Parts(s, [], [Stage(i, request, None)], tail, staged, []);
          assert Whole(p) == s + [Stage(i, request, None)] + tail;
          return Some(Failed(Staging, targets[i].name, rolled)), staged, p;
        }
        staged := staged + [answer.value];
        s := s + [Stage(i, request, answer)];
      }
      p := Parts(s, [], [], [], staged, []);
      assert Whole(p) == s;
      return None, staged, p;
    }

    method ActivateAll(staged: seq<Evidence>, ghost before: Parts, ghost was: seq<Event>)
      returns (outcome: Outcome, ghost p: Parts)
      requires StagedAll(targets, requests, before) && before == Parts(before.staging, [], [], [], staged, [])
      requires log == was + before.staging
      modifies this
      ensures log == was + Whole(p) && Shape(targets, requests, outcome, p)
      ensures if Activates(targets, conduct, |targets|) then outcome.Deployed?
                else outcome.Failed? && outcome.phase != Staging
    {
      hide *;
      NoneActive(targets, conduct);
      var newest := staged;              // staged evidence, replaced as targets are activated
      var results: seq<Evidence> := [];
      ghost var s, a: seq<Event> := before.staging, [];
      NoneActivated(targets, requests, before);
      assert log == was + s + a;
      for i := 0 to |targets|
        invariant |results| == i && |staged| == |targets| && newest == Newest(staged, results)
        invariant log == was + s + a && ActivatedInOrder(a, staged, results, i) && Activates(targets, conduct, i)
      {
        NextActive(targets, conduct, i);
        var answer := ActivateOne(i, staged[i]);
        NewestSize(staged, results);
        if answer.None? {
          var rolled; ghost var tail;
          rolled, tail := RollBack(|targets|, newest);
          p := Parts(s, a, [Activate(i, staged[i], None)], tail, staged, results);
          Joined(was, p);
          FailsActivating(targets, requests, before, p, i, rolled);
          return Failed(Activating, targets[i].name, rolled), p;
        }
        var healthy := VerifyOne(i, answer.value);
        NewestNext(staged, results, answer.value);
        newest := newest[i := answer.value];
        ghost var two := [Activate(i, staged[i], answer), Verify(i, answer.value, healthy)];
        assert log == was + s + a + two;
        if !healthy {
          var rolled; ghost var tail;
          NewestSize(staged, results + [answer.value]);
          rolled, tail := RollBack(|targets|, newest);
          p := Parts(s, a, two, tail, staged, results + [answer.value]);
          Joined(was, p);
          StillActivated(a, staged, results, answer.value, i);
          FailsVerifying(targets, requests, before, p, i, rolled);
          return Failed(Verifying, targets[i].name, rolled), p;
        }
        ActivatedNext(a, staged, results, answer.value, i);
        assert was + s + a + two == was + s + (a + two);
        results, a := results + [answer.value], a + two;
      }
      p := Parts(s, a, [], [], staged, results);
      Joined(was, p);
      DeploysAll(targets, requests, before, p);
      return Deployed(results), p;
    }
  }

  lemma NoneActive(targets: seq<Target>, c: Conduct)
    ensures Activates(targets, c, 0)
  {
  }

  lemma NextActive(targets: seq<Target>, c: Conduct, i: nat)
    requires i < |targets| && Activates(targets, c, i)
    ensures Activates(targets, c, i + 1) <==> i !in c.unactivated && i !in c.unhealthy
    ensures Activates(targets, c, |targets|) ==> i !in c.unactivated && i !in c.unhealthy
  {
  }

  lemma Joined(was: seq<Event>, p: Parts)
    ensures was + p.staging + p.activating + p.broken + p.back == was + Whole(p)
    ensures p.broken == [] && p.back == [] ==> was + p.staging + p.activating == was + Whole(p)
  {
  }

  lemma NoneActivated(targets: seq<Target>, requests: map<string, Request>, before: Parts)
    requires StagedAll(targets, requests, before)
    ensures |before.staged| == |targets| && ActivatedInOrder([], before.staged, [], 0)
              && Newest(before.staged, []) == before.staged
  {
  }

  lemma NewestSize(staged: seq<Evidence>, activated: seq<Evidence>)
    requires |activated| <= |staged|
    ensures |Newest(staged, activated)| == |staged|
  {
  }

  lemma FailsActivating(targets: seq<Target>, requests: map<string, Request>, before: Parts, p: Parts, i: nat,
                        rolled: seq<string>)
    requires StagedAll(targets, requests, before) && before.staging == p.staging && before.staged == p.staged
               && i < |targets|
    requires |p.activated| == i && ActivatedInOrder(p.activating, p.staged, p.activated, i) && |p.staged| == |targets|
    requires p.broken == [Activate(i, p.staged[i], None)]
    requires RolledBackAs(targets, p.back, Newest(p.staged, p.activated), |targets|, rolled)
    ensures Shape(targets, requests, Failed(Activating, targets[i].name, rolled), p)
  {
  }

  lemma FailsVerifying(targets: seq<Target>, requests: map<string, Request>, before: Parts, p: Parts, i: nat,
                       rolled: seq<string>)
    requires StagedAll(targets, requests, before) && before.staging == p.staging && before.staged == p.staged
               && i < |targets|
    requires |p.activated| == i + 1 && ActivatedInOrder(p.activating, p.staged, p.activated, i)
               && |p.staged| == |targets|
    requires p.broken == [Activate(i, p.staged[i], Some(p.activated[i])), Verify(i, p.activated[i], false)]
    requires RolledBackAs(targets, p.back, Newest(p.staged, p.activated), |targets|, rolled)
    ensures Shape(targets, requests, Failed(Verifying, targets[i].name, rolled), p)
  {
  }

  lemma DeploysAll(targets: seq<Target>, requests: map<string, Request>, before: Parts, p: Parts)
    requires StagedAll(targets, requests, before) && before.staging == p.staging && before.staged == p.staged
    requires |p.activated| == |targets| && ActivatedInOrder(p.activating, p.staged, p.activated, |targets|)
    requires p.broken == [] && p.back == []
    ensures Shape(targets, requests, Deployed(p.activated), p)
  {
  }

  lemma NewestNext(staged: seq<Evidence>, activated: seq<Evidence>, e: Evidence)
    requires |activated| < |staged|
    ensures Newest(staged, activated)[|activated| := e] == Newest(staged, activated + [e])
  {
  }

  lemma StillActivated(a: seq<Event>, staged: seq<Evidence>, activated: seq<Evidence>, e: Evidence, n: nat)
    requires ActivatedInOrder(a, staged, activated, n) && |activated| == n
    ensures ActivatedInOrder(a, staged, activated + [e], n)
  {
  }

  lemma ActivatedNext(a: seq<Event>, staged: seq<Evidence>, activated: seq<Evidence>, e: Evidence, n: nat)
    requires ActivatedInOrder(a, staged, activated, n) && |activated| == n < |staged|
    ensures ActivatedInOrder(a + [Activate(n, staged[n], Some(e)), Verify(n, e, true)], staged, activated + [e], n + 1)
  {
  }
}

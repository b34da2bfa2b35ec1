/** The status of a bundle: what "prepared" claims about the values in the vault. */
module BundleStatus {
  import opened Basics
  import opened Ordering
  import opened SecretTemplate
  import opened Bundle
  import Derivations

  datatype RecordState = Prepared | Missing | Stale

  datatype Status = Status(overall: RecordState, records: map<string, RecordState>)

  /** The stored record is the one the snapshot of this very manifest names. */
  predicate Recorded(doc: Document, records: map<Name, Version>, snapshot: Option<Snapshot>, n: string) {
    var name := Physical(doc.manifest.bundle, n);
    && name in records && snapshot.Some? && snapshot.value.digest == doc.manifest
    && n in snapshot.value.revisions && snapshot.value.revisions[n] == records[name].revision
    && name in snapshot.value.logicalOf && snapshot.value.logicalOf[name] == n
  }

  function FirstState(doc: Document, records: map<Name, Version>, snapshot: Option<Snapshot>, n: string): RecordState {
    if Physical(doc.manifest.bundle, n) !in records then Missing
    else if Recorded(doc, records, snapshot, n) then Prepared
    else Stale
  }

  type States = map<string, RecordState>

  function FirstStates(doc: Document, records: map<Name, Version>, snapshot: Option<Snapshot>): States {
    map n | n in doc.manifest.records :: FirstState(doc, records, snapshot, n)
  }

  predicate AllPrepared(names: seq<string>, states: States) {
    forall n :: n in names ==> n in states && states[n] == Prepared
  }

  /** A derived record with an unprepared input is stale, unless it is missing. */
  function Judged(m: Manifest, states: States, n: string): (r: States)
    ensures r.Keys == states.Keys
  {
    if n in states && states[n] != Missing && IsDerived(m, n) && !AllPrepared(Inputs(m, n), states)
    then states[n := Stale]
    else states
  }

  function Propagated(doc: Document, states: States, i: nat): (r: States)
    requires i <= |doc.derived|
    ensures r.Keys == states.Keys
  {
    if i == 0 then states else Judged(doc.manifest, Propagated(doc, states, i - 1), doc.derived[i - 1])
  }

  function Overall(states: States): RecordState {
    if exists n :: n in states && states[n] == Missing then Missing
    else if exists n :: n in states && states[n] == Stale then Stale
    else Prepared
  }

  function StatusOf(doc: Document, records: map<Name, Version>, snapshot: Option<Snapshot>): Status {
    var states := Propagated(doc, FirstStates(doc, records, snapshot), |doc.derived|);
    Status(Overall(states), states)
  }

  /** Propagation only makes records stale, and never a missing one. */
  lemma {:induction false} PropagationMarks(doc: Document, states: States, i: nat, n: string)
    requires i <= |doc.derived| && n in states
    ensures var after := Propagated(doc, states, i)[n];
            after == states[n] || (after == Stale && states[n] != Missing)
  {
    hide IsDerived, Inputs, AllPrepared;
    if i > 0 { PropagationMarks(doc, states, i - 1, n); }
  }

  // ----- The loops -----------------------------------------------------------------------------

  function Worse(overall: RecordState, state: RecordState): RecordState {
    if overall == Missing || state == Missing then Missing else if state == Stale then Stale else overall
  }

  method CalculateStatus(doc: Document, records: map<Name, Version>, snapshot: Option<Snapshot>)
    returns (status: Status)
    requires ValidDocument(doc)
    ensures status == StatusOf(doc, records, snapshot)
  {
    DocumentIsOrdered(doc);
    hide *;
    var states, overall := FirstPass(doc, records, snapshot);
    status := Propagate(doc, states, overall);
    assert status == StatusOf(doc, records, snapshot) by { StatusUnfolds(doc, records, snapshot); }
  }

  lemma StatusUnfolds(doc: Document, records: map<Name, Version>, snapshot: Option<Snapshot>)
    ensures var states := Propagated(doc, FirstStates(doc, records, snapshot), |doc.derived|);
            StatusOf(doc, records, snapshot) == Status(Overall(states), states)
  {
  }

  method FirstPass(doc: Document, records: map<Name, Version>, snapshot: Option<Snapshot>)
    returns (states: States, overall: RecordState)
    ensures states == FirstStates(doc, records, snapshot) && states.Keys == doc.manifest.records.Keys
    ensures overall == Overall(states)
  {
    hide *;
    states, overall := map[], Prepared;
    EmptyIsPrepared();
    NoneFirst(doc, records, snapshot);
    var names := Derivations.SortedNames(doc.manifest.records.Keys);
    for i := 0 to |names|
      invariant forall n :: n in states <==> n in names[..i]
      invariant overall == Overall(states) && FirstOf(states, doc, records, snapshot)
    {
      var state := FirstState(doc, records, snapshot, names[i]);
      Derivations.NewAt(names, i);
      OneState(states, names[i], state);
      OneFirst(states, doc, records, snapshot, names[i]);
      states, overall := states[names[i] := state], Worse(overall, state);
      assert names[..i + 1] == names[..i] + [names[i]];
    }
    assert names[..|names|] == names;
    AllFirst(states, doc, records, snapshot);
  }

  ghost predicate FirstOf(states: States, doc: Document, records: map<Name, Version>, snapshot: Option<Snapshot>) {
    forall n :: n in states ==> states[n] == FirstState(doc, records, snapshot, n)
  }

  lemma NoneFirst(doc: Document, records: map<Name, Version>, snapshot: Option<Snapshot>)
    ensures FirstOf(map[], doc, records, snapshot)
  {
  }

  lemma OneFirst(states: States, doc: Document, records: map<Name, Version>, snapshot: Option<Snapshot>, n: string)
    requires FirstOf(states, doc, records, snapshot)
    ensures FirstOf(states[n := FirstState(doc, records, snapshot, n)], doc, records, snapshot)
  {
  }

  lemma AllFirst(states: States, doc: Document, records: map<Name, Version>, snapshot: Option<Snapshot>)
    requires FirstOf(states, doc, records, snapshot) && forall n :: n in states <==> n in doc.manifest.records
    ensures states == FirstStates(doc, records, snapshot) && states.Keys == doc.manifest.records.Keys
  {
  }

  /** The second loop: derived records after their inputs. */
  method Propagate(doc: Document, first: States, worst: RecordState) returns (status: Status)
    requires first.Keys == doc.manifest.records.Keys && worst == Overall(first)
    requires forall n :: n in doc.derived ==> IsDerived(doc.manifest, n)
    ensures var states := Propagated(doc, first, |doc.derived|);
            status == Status(Overall(states), states)
  {
    hide Overall, IsDerived, Inputs;
    var states, overall := first, worst;
    for i := 0 to |doc.derived|
      invariant states == Propagated(doc, first, i) && overall == Overall(states)
    {
      var n := doc.derived[i];
      if n !in states || states[n] == Missing { continue; }
      var all := CheckInputs(Inputs(doc.manifest, n), states);
      if !all {
        SetStale(states, n);
        states, overall := states[n := Stale], Worse(overall, Stale);
      }
    }
    status := Status(overall, states);
  }

  method CheckInputs(inputs: seq<string>, states: States) returns (all: bool)
    ensures all == AllPrepared(inputs, states)
  {
    for k := 0 to |inputs|
      invariant forall j :: 0 <= j < k ==> inputs[j] in states && states[inputs[j]] == Prepared
    {
      if inputs[k] !in states || states[inputs[k]] != Prepared {
        assert inputs[k] in inputs;
        return false;
      }
    }
    return true;
  }

  lemma EmptyIsPrepared()
    ensures Overall(map[]) == Prepared
  {
  }

  lemma OneState(states: States, n: string, state: RecordState)
    requires n !in states
    ensures Overall(states[n := state]) == Worse(Overall(states), state)
  {
    var after := states[n := state];
    assert n in after && forall m :: m in states ==> m in after && after[m] == states[m];
  }

  lemma SetStale(states: States, n: string)
    requires n in states && states[n] != Missing
    ensures Overall(states[n := Stale]) == Worse(Overall(states), Stale)
  {
    var after := states[n := Stale];
    assert n in after && after[n] == Stale;
    forall m | m in states && states[m] == Missing ensures m in after && after[m] == Missing {}
  }

  // ----- What a prepared record is -------------------------------------------------------------

  /** The current values of a bundle's records. */
  function ValuesOf(m: Manifest, records: map<Name, Version>): map<string, string> {
    map n | n in m.records && Physical(m.bundle, n) in records :: records[Physical(m.bundle, n)].value
  }

  /** A derived record holds exactly its template expanded over the current values of its inputs. */
  predicate FreshRecord(m: Manifest, records: map<Name, Version>, n: string) {
    && Physical(m.bundle, n) in records
    && (IsDerived(m, n) ==>
          && (forall ref :: ref in Inputs(m, n) ==> Physical(m.bundle, ref) in records)
          && records[Physical(m.bundle, n)].value == Filled(Nodes(m, n), ValuesOf(m, records)))
  }

  predicate Fresh(doc: Document, records: map<Name, Version>) {
    forall n :: n in doc.manifest.records ==> FreshRecord(doc.manifest, records, n)
  }

  /**
   * A derived record reads like its template: cut at some places it consists of the template's texts
   * and of the stored values of the records it references, each in its place, and of nothing else.
   */
  ghost predicate ReadsLike(m: Manifest, records: map<Name, Version>, n: string)
    requires n in m.records && m.records[n].Derived?
  {
    && Physical(m.bundle, n) in records && Parse(m.records[n].template).Ok?
    && (forall ref :: ref in Parse(m.records[n].template).value.references ==> Physical(m.bundle, ref) in records)
    && exists cuts :: CutsLike(m, records, Parse(m.records[n].template).value.nodes,
         records[Physical(m.bundle, n)].value, cuts)
  }

  predicate CutsLike(m: Manifest, records: map<Name, Version>, nodes: seq<Node>, s: string, cuts: seq<nat>) {
    && |cuts| == |nodes| + 1 && cuts[0] == 0 && cuts[|nodes|] == |s|
    && forall k :: 0 <= k < |nodes| ==> PieceLike(m, records, nodes, s, cuts, k)
  }

  predicate PieceLike(m: Manifest, records: map<Name, Version>, nodes: seq<Node>, s: string, cuts: seq<nat>, k: nat)
    requires k < |nodes| && k + 1 < |cuts|
  {
    && cuts[k] <= cuts[k + 1] <= |s|
    && match nodes[k]
       case Literal(text) => s[cuts[k]..cuts[k + 1]] == text
       case Reference(r) =>
         Physical(m.bundle, r) in records && s[cuts[k]..cuts[k + 1]] == records[Physical(m.bundle, r)].value
  }

  /** All records are there, and the derived ones read like their templates. */
  ghost predicate ReadsThroughout(doc: Document, records: map<Name, Version>) {
    forall n :: n in doc.manifest.records ==>
      && Physical(doc.manifest.bundle, n) in records
      && (doc.manifest.records[n].Derived? ==> ReadsLike(doc.manifest, records, n))
  }

  /** The two ways to put a value together cut it alike. */
  lemma CutsAlike(m: Manifest, records: map<Name, Version>, nodes: seq<Node>, s: string, cuts: seq<nat>)
    requires forall ref :: ref in ReferencesOf(nodes) ==> ref in m.records && Physical(m.bundle, ref) in records
    ensures Cuts(nodes, ValuesOf(m, records), s, cuts) <==> CutsLike(m, records, nodes, s, cuts)
  {
    forall k | 0 <= k < |nodes| && nodes[k].Reference? ensures nodes[k].name in ReferencesOf(nodes) {
      ReferenceIsListed(nodes, k);
    }
    hide ReferencesOf;
    if |cuts| == |nodes| + 1 {
      forall k | 0 <= k < |nodes|
        ensures PieceAt(nodes, ValuesOf(m, records), s, cuts, k) <==> PieceLike(m, records, nodes, s, cuts, k)
      {
      }
    }
  }

  lemma {:induction false} ReferenceIsListed(nodes: seq<Node>, k: nat)
    requires k < |nodes| && nodes[k].Reference?
    ensures nodes[k].name in ReferencesOf(nodes)
  {
    if k > 0 {
      assert nodes[1..][k - 1] == nodes[k];
      ReferenceIsListed(nodes[1..], k - 1);
    }
  }

  lemma FreshReads(doc: Document, records: map<Name, Version>, n: string)
    requires ValidDocument(doc) && n in doc.manifest.records && doc.manifest.records[n].Derived?
    ensures FreshRecord(doc.manifest, records, n) <==> ReadsLike(doc.manifest, records, n)
  {
    var m := doc.manifest;
    var nodes := Nodes(m, n);
    InputsAreReferences(m, n);
    assert forall ref :: ref in ReferencesOf(nodes) ==> ref in m.records;
    hide Parse, ReferencesOf, Cuts, CutsLike, ValidDocument, Filled;
    if Physical(m.bundle, n) in records && forall ref :: ref in Inputs(m, n) ==> Physical(m.bundle, ref) in records {
      var s := records[Physical(m.bundle, n)].value;
      FilledExactly(nodes, ValuesOf(m, records), s);
      forall cuts ensures Cuts(nodes, ValuesOf(m, records), s, cuts) <==> CutsLike(m, records, nodes, s, cuts) {
        CutsAlike(m, records, nodes, s, cuts);
      }
    }
  }

  /** Fresh records are exactly those that read like their templates. */
  lemma FreshExactly(doc: Document, records: map<Name, Version>)
    requires ValidDocument(doc)
    ensures Fresh(doc, records) <==> ReadsThroughout(doc, records)
  {
    hide ValidDocument, FreshRecord, ReadsLike;
    forall n | n in doc.manifest.records
      ensures FreshRecord(doc.manifest, records, n) <==>
              && Physical(doc.manifest.bundle, n) in records
              && (doc.manifest.records[n].Derived? ==> ReadsLike(doc.manifest, records, n))
    {
      if doc.manifest.records[n].Derived? { FreshReads(doc, records, n); }
      PlainIsFresh(doc.manifest, records, n);
    }
  }

  lemma PlainIsFresh(m: Manifest, records: map<Name, Version>, n: string)
    ensures FreshRecord(m, records, n) ==> Physical(m.bundle, n) in records
    ensures n in m.records && !m.records[n].Derived? ==>
              (FreshRecord(m, records, n) <==> Physical(m.bundle, n) in records)
  {
  }

  /** Records as they were listed at some moment: their values are the values of their revisions. */
  predicate Listed(records: map<Name, Version>, past: map<(Name, nat), string>) {
    forall n :: n in records ==>
      records[n].revision >= 1 && (n, records[n].revision) in past && past[(n, records[n].revision)] == records[n].value
  }

  /** A name's state does not change after its own turn. */
  lemma {:induction false} StateIsFinal(doc: Document, states: States, n: string, i: nat, j: nat)
    requires i <= j <= |doc.derived| && n in states
    requires forall k :: i <= k < j ==> doc.derived[k] != n
    ensures Propagated(doc, states, j)[n] == Propagated(doc, states, i)[n]
    decreases j
  {
    hide IsDerived, Inputs, AllPrepared;
    if i < j { StateIsFinal(doc, states, n, i, j - 1); }
  }

  lemma JudgedPrepared(doc: Document, states: States, i: nat)
    requires i < |doc.derived| && IsDerived(doc.manifest, doc.derived[i]) && doc.derived[i] in states
    requires Propagated(doc, states, i + 1)[doc.derived[i]] == Prepared
    ensures AllPrepared(Inputs(doc.manifest, doc.derived[i]), Propagated(doc, states, i))
  {
    hide IsDerived, Inputs, AllPrepared;
  }

  lemma OnlyOnce(doc: Document, i: nat)
    requires ValidDocument(doc) && i < |doc.derived|
    ensures forall k :: i + 1 <= k < |doc.derived| ==> doc.derived[k] != doc.derived[i]
  {
    DocumentIsOrdered(doc);
    hide ValidDocument, IsDerived, Inputs;
  }

  /** What a derived record reads is not derived after it. */
  lemma InputsComeFirst(doc: Document, i: nat, ref: string)
    requires ValidDocument(doc) && i < |doc.derived| && IsDerived(doc.manifest, doc.derived[i])
    requires ref in Inputs(doc.manifest, doc.derived[i])
    ensures ref in doc.manifest.records && forall k :: i <= k < |doc.derived| ==> doc.derived[k] != ref
  {
    DocumentIsOrdered(doc);
    hide ValidDocument, IsDerived, Inputs;
    forall k | i <= k < |doc.derived| ensures doc.derived[k] != ref {
      assert IsDerived(doc.manifest, doc.derived[k]) by { assert doc.derived[k] in doc.derived; }
    }
  }

  lemma InputsComeFirstOf(doc: Document, k: nat, i: nat)
    requires ValidDocument(doc) && k <= i < |doc.derived| && IsDerived(doc.manifest, doc.derived[k])
    ensures doc.derived[i] !in Inputs(doc.manifest, doc.derived[k])
    ensures forall ref :: ref in Inputs(doc.manifest, doc.derived[k]) ==> ref in doc.manifest.records
  {
    hide *;
    forall ref | ref in Inputs(doc.manifest, doc.derived[k])
      ensures ref in doc.manifest.records && ref != doc.derived[i]
    {
      InputsComeFirst(doc, k, ref);
    }
  }

  /** Once an input is found unprepared it stays so, and it is looked at before what reads it. */
  lemma PreparedInputs(doc: Document, states: States, i: nat)
    requires ValidDocument(doc) && states.Keys == doc.manifest.records.Keys && i < |doc.derived|
    requires IsDerived(doc.manifest, doc.derived[i]) && doc.derived[i] in states
    requires Propagated(doc, states, |doc.derived|)[doc.derived[i]] == Prepared
    ensures AllPrepared(Inputs(doc.manifest, doc.derived[i]), Propagated(doc, states, |doc.derived|))
  {
    hide *;
    OnlyOnce(doc, i);
    StateIsFinal(doc, states, doc.derived[i], i + 1, |doc.derived|);
    JudgedPrepared(doc, states, i);
    var inputs := Inputs(doc.manifest, doc.derived[i]);
    var before, after := Propagated(doc, states, i), Propagated(doc, states, |doc.derived|);
    forall ref | ref in inputs ensures ref in before && ref in after && after[ref] == before[ref] {
      InputsComeFirst(doc, i, ref);
      StateIsFinal(doc, states, ref, i, |doc.derived|);
    }
    SamePrepared(inputs, before, after);
  }

  lemma SamePrepared(names: seq<string>, before: States, after: States)
    requires AllPrepared(names, before)
    requires forall n :: n in names ==> n in before && n in after && after[n] == before[n]
    ensures AllPrepared(names, after)
  {
  }

  /** Two prepared records were recorded together, so the recorded values are the current ones. */
  lemma RecordedValues(doc: Document, records: map<Name, Version>, snapshot: Option<Snapshot>,
                       past: map<(Name, nat), string>, ref: string)
    requires Listed(records, past) && ref in doc.manifest.records && Recorded(doc, records, snapshot, ref)
    ensures Physical(doc.manifest.bundle, ref) in records && ref in ValuesOf(doc.manifest, records)
    ensures var at := ValuesAt(doc.manifest.bundle, snapshot.value.revisions, past);
            ref in at && at[ref] == ValuesOf(doc.manifest, records)[ref]
  {
  }

  lemma RecordedIsFresh(doc: Document, records: map<Name, Version>, snapshot: Option<Snapshot>,
                        past: map<(Name, nat), string>, n: string)
    requires Listed(records, past) && IsDerived(doc.manifest, n) && Recorded(doc, records, snapshot, n)
    requires ConsistentCut(snapshot.value, past)
    requires forall ref :: ref in Inputs(doc.manifest, n) ==>
               ref in doc.manifest.records && Recorded(doc, records, snapshot, ref)
    ensures FreshRecord(doc.manifest, records, n)
  {
    var m, revs := doc.manifest, snapshot.value.revisions;
    assert n in revs && Follows(m, n, revs[n], revs, past);
    RecordedValues(doc, records, snapshot, past, n);
    hide ConsistentCut, Listed, IsDerived;
    forall ref | ref in Inputs(m, n)
      ensures ref in ValuesAt(m.bundle, revs, past) && ref in ValuesOf(m, records) &&
              ValuesAt(m.bundle, revs, past)[ref] == ValuesOf(m, records)[ref]
    {
      RecordedValues(doc, records, snapshot, past, ref);
    }
    hide Recorded;
    InputsAreReferences(m, n);
    hide Inputs;
    FilledAgrees(Nodes(m, n), ValuesAt(m.bundle, revs, past), ValuesOf(m, records));
  }

  /**
   * A record reported as prepared is fresh, and so is everything it is derived from, whenever the
   * records and the snapshot were listed: before or after each other, with writers in between.
   */
  lemma PreparedRecordIsFresh(doc: Document, records: map<Name, Version>, snapshot: Option<Snapshot>,
                              past: map<(Name, nat), string>, n: string)
    requires ValidDocument(doc) && Listed(records, past)
    requires snapshot.Some? ==> ConsistentCut(snapshot.value, past)
    requires n in doc.manifest.records && StatusOf(doc, records, snapshot).records[n] == Prepared
    ensures FreshRecord(doc.manifest, records, n)
    ensures IsDerived(doc.manifest, n) ==>
              AllPrepared(Inputs(doc.manifest, n), StatusOf(doc, records, snapshot).records)
  {
    WasRecorded(doc, records, snapshot, n);
    if IsDerived(doc.manifest, n) {
      assert ConsistentCut(snapshot.value, past) by { assert Recorded(doc, records, snapshot, n); }
      hide *;
      DocumentIsOrdered(doc);
      var i :| 0 <= i < |doc.derived| && doc.derived[i] == n;
      var first := FirstStates(doc, records, snapshot);
      StatusUnfolds(doc, records, snapshot);
      FirstKeys(doc, records, snapshot);
      PreparedInputs(doc, first, i);
      forall ref | ref in Inputs(doc.manifest, n)
        ensures ref in doc.manifest.records && Recorded(doc, records, snapshot, ref)
      {
        OnePrepared(Inputs(doc.manifest, n), StatusOf(doc, records, snapshot).records, ref);
        WasRecorded(doc, records, snapshot, ref);
      }
      RecordedIsFresh(doc, records, snapshot, past, n);
    } else {
      SourceIsFresh(doc, records, snapshot, n);
    }
  }

  lemma FirstKeys(doc: Document, records: map<Name, Version>, snapshot: Option<Snapshot>)
    ensures FirstStates(doc, records, snapshot).Keys == doc.manifest.records.Keys
    ensures StatusOf(doc, records, snapshot).records.Keys == doc.manifest.records.Keys
  {
  }

  lemma OnePrepared(names: seq<string>, states: States, n: string)
    requires AllPrepared(names, states) && n in names
    ensures n in states && states[n] == Prepared
  {
  }

  lemma WasRecorded(doc: Document, records: map<Name, Version>, snapshot: Option<Snapshot>, n: string)
    requires n in StatusOf(doc, records, snapshot).records && StatusOf(doc, records, snapshot).records[n] == Prepared
    ensures n in doc.manifest.records && Recorded(doc, records, snapshot, n)
  {
    hide Recorded, Propagated;
    PropagationMarks(doc, FirstStates(doc, records, snapshot), |doc.derived|, n);
  }

  lemma SourceIsFresh(doc: Document, records: map<Name, Version>, snapshot: Option<Snapshot>, n: string)
    requires Recorded(doc, records, snapshot, n) && !IsDerived(doc.manifest, n)
    ensures FreshRecord(doc.manifest, records, n)
  {
  }

  /** "Prepared" means: every current derived value equals a fresh recomputation. */
  lemma PreparedIsFresh(doc: Document, records: map<Name, Version>, snapshot: Option<Snapshot>, past: map<(Name, nat),
                        string>)
    requires ValidDocument(doc) && Listed(records, past)
    requires snapshot.Some? ==> ConsistentCut(snapshot.value, past)
    requires StatusOf(doc, records, snapshot).overall == Prepared
    ensures Fresh(doc, records)
  {
    var states := StatusOf(doc, records, snapshot).records;
    forall n | n in doc.manifest.records ensures FreshRecord(doc.manifest, records, n) {
      assert n in states && states[n] != Missing && states[n] != Stale;
      PreparedRecordIsFresh(doc, records, snapshot, past, n);
    }
  }

  /** Exactly the bundles whose every record is the one recorded are prepared. */
  lemma PreparedExactly(doc: Document, records: map<Name, Version>, snapshot: Option<Snapshot>)
    requires ValidDocument(doc)
    ensures StatusOf(doc, records, snapshot).overall == Prepared <==>
              forall n :: n in doc.manifest.records ==> Recorded(doc, records, snapshot, n)
  {
    DocumentIsOrdered(doc);
    hide ValidDocument, Recorded, IsDerived, Inputs;
    var first := FirstStates(doc, records, snapshot);
    if forall n :: n in doc.manifest.records ==> Recorded(doc, records, snapshot, n) {
      forall n | n in first ensures first[n] == Prepared {
        assert Recorded(doc, records, snapshot, n);
        RecordedIsThere(doc, records, snapshot, n);
      }
      NothingToPropagate(doc, first, |doc.derived|);
    } else {
      var n :| n in doc.manifest.records && !Recorded(doc, records, snapshot, n);
      PropagationMarks(doc, first, |doc.derived|, n);
      hide Propagated;
      assert n in first && first[n] != Prepared;
      assert StatusOf(doc, records, snapshot).records[n] != Prepared;
    }
  }

  lemma RecordedIsThere(doc: Document, records: map<Name, Version>, snapshot: Option<Snapshot>, n: string)
    requires Recorded(doc, records, snapshot, n)
    ensures Physical(doc.manifest.bundle, n) in records
  {
  }

  lemma {:induction false} NothingToPropagate(doc: Document, states: States, i: nat)
    requires i <= |doc.derived| && (forall n :: n in states ==> states[n] == Prepared)
    requires forall k :: 0 <= k < |doc.derived| && IsDerived(doc.manifest, doc.derived[k]) ==>
               forall ref :: ref in Inputs(doc.manifest, doc.derived[k]) ==> ref in states
    ensures Propagated(doc, states, i) == states
  {
    hide IsDerived, Inputs;
    if i > 0 {
      NothingToPropagate(doc, states, i - 1);
      var n := doc.derived[i - 1];
      if IsDerived(doc.manifest, n) { assert AllPrepared(Inputs(doc.manifest, n), states); }
    }
  }

  // ----- What is reported of each record -------------------------------------------------------

  /** What is read is final when what reads it is judged. */
  lemma InputsAreFinal(doc: Document, states: States, i: nat)
    requires ValidDocument(doc) && states.Keys == doc.manifest.records.Keys && i < |doc.derived|
    requires IsDerived(doc.manifest, doc.derived[i])
    ensures AllPrepared(Inputs(doc.manifest, doc.derived[i]), Propagated(doc, states, i)) <==>
            AllPrepared(Inputs(doc.manifest, doc.derived[i]), Propagated(doc, states, |doc.derived|))
  {
    hide *;
    var inputs := Inputs(doc.manifest, doc.derived[i]);
    var before, after := Propagated(doc, states, i), Propagated(doc, states, |doc.derived|);
    forall ref | ref in inputs ensures ref in before && ref in after && after[ref] == before[ref] {
      InputsComeFirst(doc, i, ref);
      StateIsFinal(doc, states, ref, i, |doc.derived|);
    }
    if AllPrepared(inputs, before) { SamePrepared(inputs, before, after); }
    if AllPrepared(inputs, after) { SamePrepared(inputs, after, before); }
  }

  lemma JudgedAtItsTurn(doc: Document, states: States, i: nat)
    requires ValidDocument(doc) && states.Keys == doc.manifest.records.Keys && i < |doc.derived|
    requires doc.derived[i] in states && IsDerived(doc.manifest, doc.derived[i])
    ensures var n, after := doc.derived[i], Propagated(doc, states, |doc.derived|);
            after[n] == if states[n] != Missing && !AllPrepared(Inputs(doc.manifest, n), after) then Stale
              else states[n]
  {
    hide *;
    OnlyOnce(doc, i);
    NotBefore(doc, i);
    SettledAround(doc, states, i);
    InputsAreFinal(doc, states, i);
    OneTurn(doc, states, i);
  }

  /** A derived record's state only changes at its own turn. */
  lemma SettledAround(doc: Document, states: States, i: nat)
    requires i < |doc.derived| && doc.derived[i] in states
    requires forall k :: 0 <= k < |doc.derived| && k != i ==> doc.derived[k] != doc.derived[i]
    ensures Propagated(doc, states, i)[doc.derived[i]] == states[doc.derived[i]]
    ensures Propagated(doc, states, |doc.derived|)[doc.derived[i]] == Propagated(doc, states, i + 1)[doc.derived[i]]
  {
    hide *;
    NoTurns(doc, states);
    StateIsFinal(doc, states, doc.derived[i], 0, i);
    StateIsFinal(doc, states, doc.derived[i], i + 1, |doc.derived|);
  }

  lemma NotBefore(doc: Document, i: nat)
    requires ValidDocument(doc) && i < |doc.derived|
    ensures forall k :: 0 <= k < i ==> doc.derived[k] != doc.derived[i]
  {
    DocumentIsOrdered(doc);
    hide ValidDocument, IsDerived, Inputs;
  }

  lemma OneTurn(doc: Document, states: States, i: nat)
    requires i < |doc.derived| && doc.derived[i] in states && IsDerived(doc.manifest, doc.derived[i])
    ensures var n, before := doc.derived[i], Propagated(doc, states, i);
            Propagated(doc, states, i + 1)[n] ==
            if before[n] != Missing && !AllPrepared(Inputs(doc.manifest, n), before) then Stale else before[n]
  {
    hide IsDerived, Inputs, AllPrepared;
  }

  /**
   * A record is reported as missing exactly when it is not there, and as prepared exactly when the
   * snapshot of this manifest names it at its current revision and all it reads is prepared too.
   */
  lemma StateExactly(doc: Document, records: map<Name, Version>, snapshot: Option<Snapshot>, n: string)
    requires ValidDocument(doc) && n in doc.manifest.records
    ensures n in StatusOf(doc, records, snapshot).records
    ensures var states, name := StatusOf(doc, records, snapshot).records, Physical(doc.manifest.bundle, n);
            && (states[n] == Missing <==> name !in records)
            && (states[n] == Prepared <==>
                  && name in records && snapshot.Some? && snapshot.value.digest == doc.manifest
                  && n in snapshot.value.revisions && snapshot.value.revisions[n] == records[name].revision
                  && name in snapshot.value.logicalOf && snapshot.value.logicalOf[name] == n
                  && (doc.manifest.records[n].Derived? ==>
                        forall ref :: ref in Inputs(doc.manifest, n) ==> ref in states && states[ref] == Prepared))
  {
    var first := FirstStates(doc, records, snapshot);
    StatusUnfolds(doc, records, snapshot);
    FirstKeys(doc, records, snapshot);
    DocumentIsOrdered(doc);
    assert doc.manifest.records[n].Derived? <==> IsDerived(doc.manifest, n);
    assert first[n] == FirstState(doc, records, snapshot, n);
    hide ValidDocument, Inputs, IsDerived, Propagated, StatusOf, FirstStates;
    if IsDerived(doc.manifest, n) {
      var i :| 0 <= i < |doc.derived| && doc.derived[i] == n;
      JudgedAtItsTurn(doc, first, i);
    } else {
      StateIsFinal(doc, first, n, 0, |doc.derived|);
      NoTurns(doc, first);
    }
  }

  lemma NoTurns(doc: Document, states: States)
    ensures Propagated(doc, states, 0) == states
  {
  }

  /** The bundle is missing if any record is, else stale if any record is not prepared, else prepared. */
  lemma OverallExactly(doc: Document, records: map<Name, Version>, snapshot: Option<Snapshot>)
    requires ValidDocument(doc)
    ensures StatusOf(doc, records, snapshot).overall ==
            if exists n :: n in doc.manifest.records && Physical(doc.manifest.bundle, n) !in records then Missing
            else if exists n :: n in doc.manifest.records && StatusOf(doc, records, snapshot).records[n] != Prepared
              then Stale
            else Prepared
  {
    var states := StatusOf(doc, records, snapshot).records;
    FirstKeys(doc, records, snapshot);
    StatusUnfolds(doc, records, snapshot);
    forall n | n in doc.manifest.records
      ensures n in states && (states[n] == Missing <==> Physical(doc.manifest.bundle, n) !in records)
    {
      StateExactly(doc, records, snapshot, n);
    }
    hide ValidDocument, StatusOf, Propagated, FirstStates;
    if n :| n in doc.manifest.records && states[n] != Prepared && states[n] != Missing {
      assert n in states && states[n] == Stale;
    }
  }
}

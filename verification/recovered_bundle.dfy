/**
 * Bundles after recovery. Recovery makes every record the first revision of the new vault but keeps
 * the payloads of journals and snapshots, so recorded revisions no longer name the values they
 * named. This module says what "prepared" still means then.
 */
module RecoveredBundle {
  import opened Basics
  import opened SecretTemplate
  import opened Bundle
  import opened BundleStatus
  import Derivations

  /** The replacement vault: current values as first revisions, journals and snapshots as they were. */
  function Recovered(s: Store): Store {
    Store(map n | n in s.records :: Version(s.records[n].value, 1),
          map k | k in (set n | n in s.records :: (n, 1)) :: s.records[k.0].value,
          map b | b in s.journals :: Held(s.journals[b].payload, 1),
          map b | b in s.snapshots :: Held(s.snapshots[b].payload, 1))
  }

  function SnapshotOf(s: Store, b: string): Option<Snapshot> {
    if b in s.snapshots then Some(s.snapshots[b].payload) else None
  }

  lemma SameValues(s: Store, m: Manifest)
    ensures ValuesOf(m, Recovered(s).records) == ValuesOf(m, s.records)
    ensures forall n :: n in Recovered(s).records <==> n in s.records
  {
  }

  lemma FreshStays(s: Store, doc: Document)
    ensures Fresh(doc, Recovered(s).records) <==> Fresh(doc, s.records)
  {
    SameValues(s, doc.manifest);
    forall n | n in doc.manifest.records
      ensures FreshRecord(doc.manifest, Recovered(s).records, n) <==> FreshRecord(doc.manifest, s.records, n)
    {
    }
  }

  /**
   * After recovery a bundle is reported as prepared exactly when its snapshot names first revisions
   * throughout, and then the report is right exactly when the old vault's values were fresh.
   */
  lemma RecoveredReport(s: Store, doc: Document)
    requires ValidDocument(doc)
    ensures var snapshot := SnapshotOf(s, doc.manifest.bundle);
            && (StatusOf(doc, Recovered(s).records, snapshot).overall == Prepared <==>
                  forall n :: n in doc.manifest.records ==>
                    var name := Physical(doc.manifest.bundle, n);
                    && name in s.records && snapshot.Some? && snapshot.value.digest == doc.manifest
                    && n in snapshot.value.revisions && snapshot.value.revisions[n] == 1
                    && name in snapshot.value.logicalOf && snapshot.value.logicalOf[name] == n)
            && (Fresh(doc, Recovered(s).records) <==> Fresh(doc, s.records))
  {
    PreparedExactly(doc, Recovered(s).records, SnapshotOf(s, doc.manifest.bundle));
    FreshStays(s, doc);
    SameValues(s, doc.manifest);
  }

  /** What was prepared before is fresh after. */
  lemma PreparedBeforeIsFreshAfter(s: Store, doc: Document)
    requires Sound(s) && ValidDocument(doc)
    requires StatusOf(doc, s.records, SnapshotOf(s, doc.manifest.bundle)).overall == Prepared
    ensures Fresh(doc, Recovered(s).records)
  {
    assert Listed(s.records, s.past);
    hide ConsistentCut, TrueJournal;
    PreparedIsFresh(doc, s.records, SnapshotOf(s, doc.manifest.bundle), s.past);
    FreshStays(s, doc);
  }

  // ----- A stale bundle that recovery reports as prepared --------------------------------------

  const COPY: seq<Node> := [Reference("A")]

  function CopyManifest(): Manifest { Manifest("b", map["A" := Imported("secret"), "D" := Derived(Print(COPY))]) }

  lemma CopyParses()
    ensures Parse(Print(COPY)) == Ok(Template(COPY, ["A"]))
  {
    assert WellFormed(COPY);
    PrintedParses(COPY, 0);
    assert ReferencesOf(COPY) == ["A"] by { assert COPY[1..] == []; }
  }

  /** Nothing derived depends on anything derived. */
  lemma CopyHasNoCycle(deps: Derivations.Dependencies)
    requires deps == map["D" := ["A"]]
    ensures Derivations.Order(deps).Ok?
  {
    Derivations.OrderIsTopological(deps);
    forall p | |p| >= 2 ensures !Derivations.Cycle(deps, p) {
      assert !Derivations.DependsOn(deps, p[0], p[1]);
    }
  }

  lemma CopyIsValid() returns (doc: Document)
    ensures doc.manifest == CopyManifest() && ValidDocument(doc)
  {
    var m := CopyManifest();
    CopyParses();
    hide Parse, Print, Derivations.Order;
    var deps := DependenciesOf(m);
    assert deps == map["D" := ["A"]];
    CopyHasNoCycle(deps);
    doc := Document(m, Derivations.Order(deps).value);
    assert "A" in m.records && m.records != map[];
    assert forall n :: n in m.records ==> n == "A" || n == "D";
  }

  const A := Physical("b", "A")
  const D := Physical("b", "D")

  /** Prepared with "x"; then the source moved on to "y", and nobody prepared again. */
  function StaleStore(): Store {
    var m := CopyManifest();
    Store(map[A := Version("y", 2), D := Version("x", 1)],
          map[(A, 1) := "x", (A, 2) := "y", (D, 1) := "x"],
          map[],
          map["b" := Held(Snapshot("b", m, map[A := "A", D := "D"], m.records, map["A" := 1, "D" := 1], map[]), 1)])
  }

  lemma StaleSnapshotIsValid()
    ensures ValidSnapshot(StaleStore().snapshots["b"].payload)
  {
    var snapshot := StaleStore().snapshots["b"].payload;
    hide Print;
    assert snapshot.logicalOf[A] == "A" && snapshot.logicalOf[D] == "D";
    assert snapshot.logicalOf.Values == {"A", "D"} by {
      assert "A" in snapshot.logicalOf.Values && "D" in snapshot.logicalOf.Values;
    }
    assert snapshot.sources.Keys == {"A", "D"} && snapshot.revisions.Keys == {"A", "D"};
  }

  lemma StaleFollows(past: map<(Name, nat), string>, revs: map<string, nat>)
    requires past == map[(A, 1) := "x", (A, 2) := "y", (D, 1) := "x"] && "A" in revs && revs["A"] == 1
    ensures Follows(CopyManifest(), "D", 1, revs, past) && !IsDerived(CopyManifest(), "A")
  {
    CopyParses();
    hide Parse, Print, Filled;
    var m := CopyManifest();
    assert m.records["D"].Derived? && m.records["A"].Imported?;
    var values := ValuesAt("b", revs, past);
    assert (Physical("b", "A"), 1) in past && values["A"] == "x";
    CopyFills(values);
    assert Nodes(m, "D") == COPY && Inputs(m, "D") == ["A"];
  }

  lemma CutOfTwo(s: Snapshot, past: map<(Name, nat), string>)
    requires ValidSnapshot(s) && s.bundle == s.digest.bundle && s.revisions.Keys == s.digest.records.Keys == {"A", "D"}
    requires (Physical(s.bundle, "A"), s.revisions["A"]) in past && (Physical(s.bundle, "D"), s.revisions["D"]) in past
    requires Follows(s.digest, "D", s.revisions["D"], s.revisions, past) && !IsDerived(s.digest, "A")
    ensures ConsistentCut(s, past)
  {
    hide ValidSnapshot, Follows, IsDerived;
    assert forall n :: n in s.revisions ==> n == "A" || n == "D";
  }

  lemma StaleIsConsistent()
    ensures ConsistentCut(StaleStore().snapshots["b"].payload, StaleStore().past)
  {
    var s := StaleStore();
    var snapshot := s.snapshots["b"].payload;
    StaleSnapshotIsValid();
    StaleFollows(s.past, snapshot.revisions);
    hide ValidSnapshot, Follows, IsDerived, Print, ConsistentCut;
    assert snapshot.revisions.Keys == {"A", "D"} == snapshot.digest.records.Keys;
    CutOfTwo(snapshot, s.past);
  }

  lemma StaleIsSound()
    ensures Sound(StaleStore())
  {
    StaleIsConsistent();
    hide ConsistentCut, TrueJournal, Print;
    assert RecordsKept(StaleStore());
  }

  lemma CopyFills(values: map<string, string>)
    requires "A" in values
    ensures Filled(COPY, values) == values["A"]
  {
    assert COPY[..0] == [];
    assert Filled([], values) + values["A"] == values["A"];
  }

  /**
   * The report can be wrong: a sound vault whose derived record lags behind its source is reported
   * as prepared once it is recovered.
   */
  lemma RecoveryCanMislead() returns (s: Store, doc: Document)
    ensures Sound(s) && ValidDocument(doc)
    ensures StatusOf(doc, Recovered(s).records, SnapshotOf(s, doc.manifest.bundle)).overall == Prepared
    ensures !Fresh(doc, Recovered(s).records)
  {
    s := StaleStore();
    doc := CopyIsValid();
    StaleIsSound();
    hide ValidDocument, Sound, Fresh, StatusOf;
    RecoveredReport(s, doc);
    StaleIsNotFresh(s, doc);
    hide Print;
    assert forall n :: n in doc.manifest.records ==> n == "A" || n == "D";
  }

  lemma StaleIsNotFresh(s: Store, doc: Document)
    requires s == StaleStore() && doc.manifest == CopyManifest()
    ensures !Fresh(doc, s.records)
  {
    CopyParses();
    hide Parse, Print, Filled;
    var m := doc.manifest;
    assert m.records["D"].Derived? && IsDerived(m, "D") && Nodes(m, "D") == COPY;
    assert ValuesOf(m, s.records)["A"] == "y";
    CopyFills(ValuesOf(m, s.records));
    assert s.records[D].value == "x";
    assert !FreshRecord(m, s.records, "D");
  }
}

/**
 * Bundles: manifests, the encrypted prepare journal and snapshot, and the vault they live in.
 * Every record revision fixes its value forever, so revisions can stand for values in the journal
 * and in the snapshot; this module says when they do so truthfully.
 */
module Bundle {
  import opened Basics
  import opened Ordering
  import opened SecretTemplate
  import Derivations

  // ----- Manifests -----------------------------------------------------------------------------

  datatype Spec = Generated(policy: string) | Imported(sensitivity: string) | Derived(template: string)

  datatype Manifest = Manifest(bundle: string, records: map<string, Spec>)

  /** A validated manifest with the evaluation order of its derived records. */
  datatype Document = Document(manifest: Manifest, derived: seq<string>)

  function DependenciesOf(m: Manifest): Derivations.Dependencies {
    map n | n in m.records && m.records[n].Derived? && Parse(m.records[n].template).Ok?
      :: Parse(m.records[n].template).value.references
  }

  ghost predicate ValidDocument(doc: Document) {
    var m := doc.manifest;
    && m.bundle != "" && m.records != map[] && "" !in m.records
    && (forall n :: n in m.records && m.records[n].Derived? ==>
          && Parse(m.records[n].template).Ok?
          && forall ref :: ref in Parse(m.records[n].template).value.references ==> ref in m.records)
    && Derivations.Order(DependenciesOf(m)) == Ok(doc.derived)
  }

  predicate IsDerived(m: Manifest, n: string) {
    n in m.records && m.records[n].Derived? && Parse(m.records[n].template).Ok?
  }

  function Nodes(m: Manifest, n: string): seq<Node>
    requires IsDerived(m, n)
  {
    Parse(m.records[n].template).value.nodes
  }

  function Inputs(m: Manifest, n: string): seq<string>
    requires IsDerived(m, n)
  {
    Parse(m.records[n].template).value.references
  }

  /** The derived records, each after the derived records it reads. */
  lemma DocumentIsOrdered(doc: Document)
    requires ValidDocument(doc)
    ensures Distinct(doc.derived) && forall n :: n in doc.derived <==> IsDerived(doc.manifest, n)
    ensures forall n :: n in doc.manifest.records && doc.manifest.records[n].Derived? ==> n in doc.derived
    ensures forall i, ref :: 0 <= i < |doc.derived| && IsDerived(doc.manifest, doc.derived[i]) &&
                             ref in Inputs(doc.manifest, doc.derived[i]) ==>
              ref in doc.manifest.records && (IsDerived(doc.manifest, ref) ==> ref in doc.derived[..i])
  {
    Derivations.OrderIsTopological(DependenciesOf(doc.manifest));
  }

  // ----- Expansion only reads what a template references ---------------------------------------

  predicate AgreeOn(names: seq<string>, v: map<string, string>, w: map<string, string>) {
    forall n :: n in names ==> n in v && n in w && v[n] == w[n]
  }

  lemma Agreeing(names: seq<string>, v: map<string, string>, w: map<string, string>)
    requires forall n :: n in names ==> n in v && n in w && v[n] == w[n]
    ensures AgreeOn(names, v, w)
  {
  }

  lemma {:induction false} FilledAgrees(nodes: seq<Node>, v: map<string, string>, w: map<string, string>)
    requires AgreeOn(ReferencesOf(nodes), v, w)
    ensures Filled(nodes, v) == Filled(nodes, w)
  {
    if nodes != [] {
      var most, last := nodes[..|nodes| - 1], nodes[|nodes| - 1];
      assert nodes == most + [last];
      CollectOne(most, last);
      assert forall n :: n in ReferencesOf(most) ==> n in ReferencesOf(nodes);
      FilledAgrees(most, v, w);
      if last.Reference? { assert last.name in ReferencesOf(nodes); }
    }
  }

  // ----- The vault -----------------------------------------------------------------------------

  /** Record names. A bundle's own names are derived from an injective digest of its identifier. */
  datatype Name = Physical(bundle: string, logical: string) | Plain(text: string)

  datatype Version = Version(value: string, revision: nat)

  /** One line of the prepare journal; the digest of a manifest is ideal and stands for it. */
  datatype Entry = Entry(spec: Spec, revision: nat, inputs: map<string, nat>)

  datatype Journal = Journal(bundle: string, digest: Manifest, entries: map<string, Entry>)

  datatype Snapshot = Snapshot(bundle: string, digest: Manifest, logicalOf: map<Name, string>,
                               sources: map<string, Spec>, revisions: map<string, nat>,
                               previous: map<string, seq<nat>>)

  datatype Held<+T> = Held(payload: T, revision: nat)

  /** `past` is every value a record ever had, by revision. */
  datatype Store = Store(records: map<Name, Version>, past: map<(Name, nat), string>,
                         journals: map<string, Held<Journal>>, snapshots: map<string, Held<Snapshot>>)

  predicate ValidJournal(j: Journal) {
    && j.bundle != ""
    && forall n :: n in j.entries ==>
         && n != "" && j.entries[n].revision >= 1
         && forall i :: i in j.entries[n].inputs ==> i != "" && j.entries[n].inputs[i] >= 1
  }

  predicate ValidSnapshot(s: Snapshot) {
    && s.bundle != ""
    && (forall p :: p in s.logicalOf ==> s.logicalOf[p] != "")
    && (forall p, q :: p in s.logicalOf && q in s.logicalOf && s.logicalOf[p] == s.logicalOf[q] ==> p == q)
    && s.sources.Keys == s.logicalOf.Values && s.revisions.Keys == s.logicalOf.Values
    && (forall n :: n in s.revisions ==> s.revisions[n] >= 1)
    && forall n :: n in s.previous ==>
         n in s.revisions && Distinct(s.previous[n]) && forall r :: r in s.previous[n] ==> 1 <= r != s.revisions[n]
  }

  /** The values a bundle's records had at given revisions. */
  function ValuesAt(bundle: string, revs: map<string, nat>, past: map<(Name, nat), string>): map<string, string> {
    map n | n in revs && (Physical(bundle, n), revs[n]) in past :: past[(Physical(bundle, n), revs[n])]
  }

  /** Revision `rev` of `n` is its template expanded over its inputs at the revisions `revs`. */
  predicate Follows(m: Manifest, n: string, rev: nat, revs: map<string, nat>, past: map<(Name, nat), string>) {
    && IsDerived(m, n) && (Physical(m.bundle, n), rev) in past
    && (forall ref :: ref in Inputs(m, n) ==> ref in revs && (Physical(m.bundle, ref), revs[ref]) in past)
    && past[(Physical(m.bundle, n), rev)] == Filled(Nodes(m, n), ValuesAt(m.bundle, revs, past))
  }

  /** A journal that may be used as a cache. */
  predicate TrueJournal(j: Journal, past: map<(Name, nat), string>) {
    && ValidJournal(j) && j.bundle == j.digest.bundle
    && forall n :: n in j.entries && IsDerived(j.digest, n) ==>
         Follows(j.digest, n, j.entries[n].revision, j.entries[n].inputs, past)
  }

  /** A consistent cut: every derived record follows from the others at the recorded revisions. */
  predicate ConsistentCut(s: Snapshot, past: map<(Name, nat), string>) {
    && ValidSnapshot(s) && s.bundle == s.digest.bundle && s.revisions.Keys == s.digest.records.Keys
    && (forall n :: n in s.revisions ==> (Physical(s.bundle, n), s.revisions[n]) in past)
    && forall n :: n in s.revisions && IsDerived(s.digest, n) ==>
         Follows(s.digest, n, s.revisions[n], s.revisions, past)
  }

  predicate Grown(p: map<(Name, nat), string>, q: map<(Name, nat), string>) {
    forall k :: k in p ==> k in q && q[k] == p[k]
  }

  lemma FollowsStill(m: Manifest, n: string, rev: nat, revs: map<string, nat>,
                     p: map<(Name, nat), string>, q: map<(Name, nat), string>)
    requires Follows(m, n, rev, revs, p) && Grown(p, q)
    ensures Follows(m, n, rev, revs, q)
  {
    assert AgreeOn(Inputs(m, n), ValuesAt(m.bundle, revs, p), ValuesAt(m.bundle, revs, q));
    InputsAreReferences(m, n);
    FilledAgrees(Nodes(m, n), ValuesAt(m.bundle, revs, p), ValuesAt(m.bundle, revs, q));
  }

  lemma InputsAreReferences(m: Manifest, n: string)
    requires IsDerived(m, n)
    ensures Inputs(m, n) == ReferencesOf(Nodes(m, n))
  {
  }

  lemma JournalStaysTrue(j: Journal, p: map<(Name, nat), string>, q: map<(Name, nat), string>)
    requires TrueJournal(j, p) && Grown(p, q)
    ensures TrueJournal(j, q)
  {
    forall n | n in j.entries && IsDerived(j.digest, n)
      ensures Follows(j.digest, n, j.entries[n].revision, j.entries[n].inputs, q)
    {
      FollowsStill(j.digest, n, j.entries[n].revision, j.entries[n].inputs, p, q);
    }
  }

  lemma CutStaysConsistent(s: Snapshot, p: map<(Name, nat), string>, q: map<(Name, nat), string>)
    requires ConsistentCut(s, p) && Grown(p, q)
    ensures ConsistentCut(s, q)
  {
    hide Follows, ValidSnapshot;
    forall n | n in s.revisions && IsDerived(s.digest, n)
      ensures Follows(s.digest, n, s.revisions[n], s.revisions, q)
    {
      FollowsStill(s.digest, n, s.revisions[n], s.revisions, p, q);
    }
  }

  // ----- Runs ----------------------------------------------------------------------------------

  /** One accepted write. The server takes it only when the stated revision is the current one. */
  datatype Event =
    | Put(name: Name, value: string, expected: nat)
    | Checkpoint(journal: Journal, expected: nat)
    | Publish(snapshot: Snapshot, expected: nat)

  function RevisionOf<K, T>(m: map<K, Held<T>>, k: K): nat { if k in m then m[k].revision else 0 }

  function RecordRevision(records: map<Name, Version>, n: Name): nat {
    if n in records then records[n].revision else 0
  }

  /** Anybody may write any record; journals and snapshots are written by preparers, truthfully. */
  predicate Honest(s: Store, e: Event) {
    match e
    case Put(n, _, expected) => RecordRevision(s.records, n) == expected
    case Checkpoint(j, expected) => RevisionOf(s.journals, j.bundle) == expected && TrueJournal(j, s.past)
    case Publish(t, expected) => RevisionOf(s.snapshots, t.bundle) == expected && ConsistentCut(t, s.past)
  }

  function Next(s: Store, e: Event): Store {
    match e
    case Put(n, value, expected) =>
      s.(records := s.records[n := Version(value, expected + 1)], past := s.past[(n, expected + 1) := value])
    case Checkpoint(j, expected) => s.(journals := s.journals[j.bundle := Held(j, expected + 1)])
    case Publish(t, expected) => s.(snapshots := s.snapshots[t.bundle := Held(t, expected + 1)])
  }

  predicate RecordsKept(s: Store) {
    && (forall n :: n in s.records ==>
          s.records[n].revision >= 1 && (n, s.records[n].revision) in s.past &&
          s.past[(n, s.records[n].revision)] == s.records[n].value)
    && forall k :: k in s.past ==> k.0 in s.records && k.1 <= s.records[k.0].revision
  }

  /** The cache tells the truth, and so does everything published. */
  predicate Sound(s: Store) {
    && RecordsKept(s)
    && (forall b :: b in s.journals ==> s.journals[b].payload.bundle == b && TrueJournal(s.journals[b].payload, s.past))
    && forall b :: b in s.snapshots ==>
         s.snapshots[b].payload.bundle == b && ConsistentCut(s.snapshots[b].payload, s.past)
  }

  lemma PutKeepsRecords(s: Store, e: Event)
    requires RecordsKept(s) && e.Put? && RecordRevision(s.records, e.name) == e.expected
    ensures RecordsKept(Next(s, e)) && Grown(s.past, Next(s, e).past)
  {
  }

  lemma AllStayTrue(s: Store, q: map<(Name, nat), string>)
    requires Sound(s) && Grown(s.past, q)
    ensures forall b :: b in s.journals ==> TrueJournal(s.journals[b].payload, q)
    ensures forall b :: b in s.snapshots ==> ConsistentCut(s.snapshots[b].payload, q)
  {
    hide TrueJournal, ConsistentCut;
    forall b | b in s.journals ensures TrueJournal(s.journals[b].payload, q) {
      JournalStaysTrue(s.journals[b].payload, s.past, q);
    }
    forall b | b in s.snapshots ensures ConsistentCut(s.snapshots[b].payload, q) {
      CutStaysConsistent(s.snapshots[b].payload, s.past, q);
    }
  }

  lemma StepKeeps(s: Store, e: Event)
    requires Sound(s) && Honest(s, e)
    ensures Sound(Next(s, e)) && Grown(s.past, Next(s, e).past)
  {
    hide TrueJournal, ConsistentCut;
    if e.Put? {
      PutKeepsRecords(s, e);
      AllStayTrue(s, Next(s, e).past);
    }
    hide RecordsKept;
  }

  ghost predicate IsRun(run: seq<Store>, events: seq<Event>) {
    && |run| == |events| + 1
    && forall k {:trigger events[k]} :: 0 <= k < |events| ==>
         Honest(run[k], events[k]) && run[k + 1] == Next(run[k], events[k])
  }

  /** Nothing published and nothing cached ever becomes false, and no past value ever changes. */
  lemma {:induction false} RunsStaySound(run: seq<Store>, events: seq<Event>, i: nat, j: nat)
    requires IsRun(run, events) && Sound(run[0]) && i <= j < |run|
    ensures Sound(run[j]) && Grown(run[i].past, run[j].past)
    decreases j
  {
    hide Sound, Honest, Next;
    if j > 0 {
      RunsStaySound(run, events, if i < j then i else j - 1, j - 1);
      assert Honest(run[j - 1], events[j - 1]);
      StepKeeps(run[j - 1], events[j - 1]);
    }
  }

  /** A snapshot published at any moment of a run is a consistent cut at every later moment. */
  lemma PublishedStaysConsistent(run: seq<Store>, events: seq<Event>, i: nat, j: nat, b: string)
    requires IsRun(run, events) && Sound(run[0]) && i <= j < |run| && b in run[i].snapshots
    ensures ConsistentCut(run[i].snapshots[b].payload, run[j].past)
  {
    hide IsRun, ConsistentCut, TrueJournal;
    RunsStaySound(run, events, i, i);
    RunsStaySound(run, events, i, j);
    CutStaysConsistent(run[i].snapshots[b].payload, run[i].past, run[j].past);
  }
}

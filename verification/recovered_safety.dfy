/**
 * Preparing after recovery. A journal line or a recorded revision that survives recovery names
 * revisions of a vault that is gone; this module says exactly which of them can be trusted in the
 * new vault, whatever anybody writes there.
 */
module RecoveredSafety {
  import opened Basics
  import opened SecretTemplate
  import opened Bundle
  import opened BundleStatus
  import opened BundlePrepare
  import opened PrepareFacts
  import opened PrepareSnapshot
  import opened RecoveredBundle
  import Derivations

  // ----- What others may write -----------------------------------------------------------------

  /** A run of record writes from one store to another. */
  ghost predicate Writes(s: Store, run: seq<Store>, events: seq<Event>, t: Store) {
    && IsRun(run, events) && run[0] == s && run[|events|] == t
    && forall k {:trigger events[k]} :: 0 <= k < |events| ==> events[k].Put?
  }

  ghost predicate Later(s: Store, t: Store) {
    exists run, events :: Writes(s, run, events, t)
  }

  lemma Itself(s: Store)
    ensures Later(s, s)
  {
    assert Writes(s, [s], [], s);
  }

  lemma WriteLater(s: Store, t: Store, name: Name, value: string)
    requires Later(s, t)
    ensures Later(s, Next(t, Put(name, value, RecordRevision(t.records, name))))
  {
    var run, events :| Writes(s, run, events, t);
    var e := Put(name, value, RecordRevision(t.records, name));
    assert Honest(t, e);
    hide Next, Honest;
    var longer, all := run + [Next(t, e)], events + [e];
    forall k {:trigger all[k]} | 0 <= k < |all|
      ensures Honest(longer[k], all[k]) && longer[k + 1] == Next(longer[k], all[k]) && all[k].Put?
    {
      if k < |events| { assert all[k] == events[k]; }
    }
    assert Writes(s, longer, all, Next(t, e));
  }

  /** Record writes forget no value and leave journals and snapshots alone. */
  lemma LaterKeeps(s: Store, t: Store)
    requires Later(s, t) && RecordsKept(s)
    ensures RecordsKept(t) && Grown(s.past, t.past) && t.journals == s.journals && t.snapshots == s.snapshots
  {
    var run, events :| Writes(s, run, events, t);
    WritesKeep(s, run, events, |events|);
  }

  lemma {:induction false} WritesKeep(s: Store, run: seq<Store>, events: seq<Event>, k: nat)
    requires |run| == |events| + 1 && Writes(s, run, events, run[|events|]) && k <= |events| && RecordsKept(s)
    ensures RecordsKept(run[k]) && Grown(s.past, run[k].past)
    ensures run[k].journals == s.journals && run[k].snapshots == s.snapshots
  {
    if k > 0 {
      WritesKeep(s, run, events, k - 1);
      assert Honest(run[k - 1], events[k - 1]) && events[k - 1].Put?;
      PutKeepsRecords(run[k - 1], events[k - 1]);
      hide RecordsKept;
    }
  }

  /** A record can be brought to any later revision with any value. */
  lemma {:induction false} Raise(s: Store, t: Store, name: Name, r: nat, value: string) returns (u: Store)
    requires Later(s, t) && RecordRevision(t.records, name) < r
    ensures Later(s, u) && u.records == t.records[name := Version(value, r)]
    decreases r - RecordRevision(t.records, name)
  {
    hide Later;
    var at := RecordRevision(t.records, name);
    WriteLater(s, t, name, value);
    u := Next(t, Put(name, value, at));
    if at + 1 < r {
      u := Raise(s, u, name, r, value);
      assert t.records[name := Version(value, at + 1)][name := Version(value, r)] == t.records[name :=
        Version(value, r)];
    }
  }

  function Raised(records: map<Name, Version>, name: Name, r: nat, filler: string): Version {
    if name in records && records[name].revision == r then records[name] else Version(filler, r)
  }

  /** Brings every name to its revision, with a filler where something has to be written. */
  lemma {:induction false} RaiseAll(s: Store, t: Store, b: string, names: seq<string>, revs: map<string, nat>,
                                    filler: string)
    returns (u: Store)
    requires Later(s, t)
    requires forall n :: n in names ==>
               n in revs && revs[n] >= 1 && RecordRevision(t.records, Physical(b, n)) <= revs[n]
    ensures Later(s, u)
    ensures forall n :: n in names ==>
              Physical(b, n) in u.records
                && u.records[Physical(b, n)] == Raised(t.records, Physical(b, n), revs[n], filler)
    ensures forall name :: name !in (set n | n in names :: Physical(b, n)) ==>
              (name in u.records <==> name in t.records) && (name in u.records ==> u.records[name] == t.records[name])
  {
    hide Later;
    u := t;
    if names != [] {
      var most, last := names[..|names| - 1], names[|names| - 1];
      assert names == most + [last];
      u := RaiseAll(s, t, b, most, revs, filler);
      var before := u;
      if last !in most {
        assert Physical(b, last) !in (set n | n in most :: Physical(b, n));
        if RecordRevision(u.records, Physical(b, last)) < revs[last] {
          u := Raise(s, u, Physical(b, last), revs[last], filler);
        }
      }
    }
  }

  // ----- Which lines can be trusted ------------------------------------------------------------

  /** A derived record stands at the named revision, and its inputs at theirs. */
  predicate Matches(m: Manifest, records: map<Name, Version>, n: string, r: nat, revs: map<string, nat>) {
    && IsDerived(m, n) && Physical(m.bundle, n) in records && records[Physical(m.bundle, n)].revision == r
    && forall ref :: ref in Inputs(m, n) ==>
         ref in revs && Physical(m.bundle, ref) in records && records[Physical(m.bundle, ref)].revision == revs[ref]
  }

  /** The line names first revisions only, and the record was fresh when it was recovered. */
  predicate AtFirst(m: Manifest, records: map<Name, Version>, n: string, r: nat, revs: map<string, nat>) {
    && r == 1 && IsDerived(m, n) && (forall ref :: ref in Inputs(m, n) ==> ref in revs && revs[ref] == 1)
    && FreshRecord(m, records, n)
  }

  lemma {:induction false} FilledIsLonger(nodes: seq<Node>, values: map<string, string>, n: string)
    requires n in ReferencesOf(nodes) && n in values
    ensures |Filled(nodes, values)| >= |values[n]|
  {
    if nodes != [] {
      var most, last := nodes[..|nodes| - 1], nodes[|nodes| - 1];
      assert nodes == most + [last];
      CollectOne(most, last);
      if n in ReferencesOf(most) { FilledIsLonger(most, values, n); }
    }
  }

  /** First revisions never change their values, so what followed from them follows forever. */
  lemma TrustedForever(s: Store, t: Store, m: Manifest, n: string, r: nat, revs: map<string, nat>)
    requires Later(Recovered(s), t) && AtFirst(m, s.records, n, r, revs) && Matches(m, t.records, n, r, revs)
    ensures FreshRecord(m, t.records, n)
  {
    hide *;
    RecoveredKept(s);
    LaterKeeps(Recovered(s), t);
    AllAtFirst(m, s.records, t.records, n, r, revs);
    FirstValue(s, t, Physical(m.bundle, n));
    forall ref | ref in Inputs(m, n)
      ensures ref in ValuesOf(m, t.records) <==> ref in ValuesOf(m, s.records)
      ensures ref in ValuesOf(m, s.records) ==> ValuesOf(m, t.records)[ref] == ValuesOf(m, s.records)[ref]
    {
      FirstValue(s, t, Physical(m.bundle, ref));
      OneSource(m, t.records, s.records, ref);
    }
    FilledDepends(m, n, t.records, s.records);
    FreshAlike(m, s.records, t.records, n, r, revs);
  }

  lemma AllAtFirst(m: Manifest, a: map<Name, Version>, b: map<Name, Version>, n: string, r: nat, revs: map<string, nat>)
    requires AtFirst(m, a, n, r, revs) && Matches(m, b, n, r, revs)
    ensures IsDerived(m, n) && Physical(m.bundle, n) in a && Physical(m.bundle, n) in b
              && b[Physical(m.bundle, n)].revision == 1
    ensures forall ref :: ref in Inputs(m, n) ==>
              Physical(m.bundle, ref) in a && Physical(m.bundle, ref) in b && b[Physical(m.bundle, ref)].revision == 1
  {
    hide ValuesOf, Nodes, Inputs, IsDerived;
  }

  lemma FreshAlike(m: Manifest, a: map<Name, Version>, b: map<Name, Version>, n: string, r: nat, revs: map<string, nat>)
    requires AtFirst(m, a, n, r, revs) && Matches(m, b, n, r, revs) && IsDerived(m, n)
    requires Filled(Nodes(m, n), ValuesOf(m, b)) == Filled(Nodes(m, n), ValuesOf(m, a))
    requires Physical(m.bundle, n) in a && Physical(m.bundle, n) in b
               && b[Physical(m.bundle, n)].value == a[Physical(m.bundle, n)].value
    ensures FreshRecord(m, b, n)
  {
    hide ValuesOf, Nodes, Inputs, IsDerived;
  }

  lemma OneSource(m: Manifest, a: map<Name, Version>, b: map<Name, Version>, ref: string)
    requires Physical(m.bundle, ref) in a && Physical(m.bundle, ref) in b
    requires a[Physical(m.bundle, ref)].value == b[Physical(m.bundle, ref)].value
    ensures ref in ValuesOf(m, a) <==> ref in ValuesOf(m, b)
    ensures ref in ValuesOf(m, b) ==> ValuesOf(m, a)[ref] == ValuesOf(m, b)[ref]
  {
  }

  /** Values agree wherever a template looks, present or not. */
  lemma FilledDepends(m: Manifest, n: string, a: map<Name, Version>, b: map<Name, Version>)
    requires IsDerived(m, n)
    requires forall ref :: ref in Inputs(m, n) ==> (ref in ValuesOf(m, a) <==> ref in ValuesOf(m, b))
    requires forall ref :: ref in Inputs(m, n) && ref in ValuesOf(m, b) ==> ValuesOf(m, a)[ref] == ValuesOf(m, b)[ref]
    ensures Filled(Nodes(m, n), ValuesOf(m, a)) == Filled(Nodes(m, n), ValuesOf(m, b))
  {
    InputsAreReferences(m, n);
    hide ValuesOf;
    SameParts(Nodes(m, n), ValuesOf(m, a), ValuesOf(m, b));
  }

  lemma {:induction false} SameParts(nodes: seq<Node>, v: map<string, string>, w: map<string, string>)
    requires forall n :: n in ReferencesOf(nodes) ==> (n in v <==> n in w) && (n in v ==> v[n] == w[n])
    ensures Filled(nodes, v) == Filled(nodes, w)
  {
    if nodes != [] {
      var most, last := nodes[..|nodes| - 1], nodes[|nodes| - 1];
      assert nodes == most + [last];
      CollectOne(most, last);
      assert forall n :: n in ReferencesOf(most) ==> n in ReferencesOf(nodes);
      SameParts(most, v, w);
      if last.Reference? { assert last.name in ReferencesOf(nodes); }
    }
  }

  lemma RecoveredKept(s: Store)
    ensures RecordsKept(Recovered(s))
    ensures forall name :: name in s.records <==> name in Recovered(s).records
    ensures forall name :: name in s.records ==>
              Recovered(s).records[name] == Version(s.records[name].value, 1) && (name, 1) in Recovered(s).past &&
              Recovered(s).past[(name, 1)] == s.records[name].value
  {
    var t := Recovered(s);
    forall name | name in s.records ensures (name, 1) in t.past && t.past[(name, 1)] == s.records[name].value {
      assert (name, 1) in (set n | n in s.records :: (n, 1));
    }
  }

  lemma FirstValue(s: Store, t: Store, name: Name)
    requires RecordsKept(Recovered(s)) && RecordsKept(t) && Grown(Recovered(s).past, t.past)
    ensures name in s.records && name in t.records && t.records[name].revision == 1 ==>
              t.records[name].value == s.records[name].value
  {
    RecoveredKept(s);
    hide Recovered;
  }

  /**
   * Any other line can be made to match by others' writes although the record is not fresh.
   * `names`: what is to stand at its named revision, the inputs among them, the record not.
   */
  lemma MakesStale(s: Store, m: Manifest, n: string, r: nat, revs: map<string, nat>, names: seq<string>)
    returns (t: Store)
    requires IsDerived(m, n) && r >= 1 && n !in names && n !in Inputs(m, n) && n in m.records
    requires forall ref :: ref in Inputs(m, n) ==> ref in names && ref in m.records
    requires forall k :: k in names ==> k in revs && revs[k] >= 1
    requires !AtFirst(m, s.records, n, r, revs)
    ensures Later(Recovered(s), t) && Matches(m, t.records, n, r, revs) && !FreshRecord(m, t.records, n)
    ensures forall k :: k in names ==>
              Physical(m.bundle, k) in t.records && t.records[Physical(m.bundle, k)].revision == revs[k]
  {
    var name, start := Physical(m.bundle, n), Recovered(s);
    hide *;
    Itself(start);
    RecoveredLow(s, m.bundle, names, revs);
    var filler := if name in s.records then s.records[name].value + "x" else "";
    var u := RaiseAll(start, start, m.bundle, names, revs, filler);
    NotAmong(m.bundle, names, n);
    RecoveredKept(s);
    if name in s.records && r == 1 {
      t := u;
      UnwrittenIsStale(s, u, m, n, revs, filler);
      StandAt(m, start.records, u.records, n, revs, names, filler, u.records[name]);
    } else {
      var value := Filled(Nodes(m, n), ValuesOf(m, u.records)) + "x";
      RevisionBelow(s, u, name, r);
      t := Raise(start, u, name, r, value);
      WrittenIsStale(u.records, m, n, Version(value, r));
      StandAt(m, start.records, u.records, n, revs, names, filler, Version(value, r));
    }
  }

  lemma RecoveredLow(s: Store, b: string, names: seq<string>, revs: map<string, nat>)
    requires forall k :: k in names ==> k in revs && revs[k] >= 1
    ensures forall k :: k in names ==> RecordRevision(Recovered(s).records, Physical(b, k)) <= revs[k]
  {
    RecoveredKept(s);
    hide Recovered;
  }

  lemma NotAmong(b: string, names: seq<string>, n: string)
    requires n !in names
    ensures Physical(b, n) !in (set k | k in names :: Physical(b, k))
  {
  }

  lemma RevisionBelow(s: Store, u: Store, name: Name, r: nat)
    requires r >= 1 && (name in s.records ==> r != 1)
    requires name in u.records <==> name in Recovered(s).records
    requires name in u.records ==> u.records[name] == Recovered(s).records[name]
    ensures RecordRevision(u.records, name) < r
  {
    RecoveredKept(s);
    hide Recovered;
  }

  /** Names brought to their revisions stand there, whatever then becomes of the record itself. */
  lemma StandAt(m: Manifest, before: map<Name, Version>, u: map<Name, Version>, n: string, revs: map<string, nat>,
                names: seq<string>, filler: string, v: Version)
    requires IsDerived(m, n) && n !in names && forall ref :: ref in Inputs(m, n) ==> ref in names
    requires forall k :: k in names ==>
               && k in revs && Physical(m.bundle, k) in u
               && u[Physical(m.bundle, k)] == Raised(before, Physical(m.bundle, k), revs[k], filler)
    ensures var after := u[Physical(m.bundle, n) := v];
            && Matches(m, after, n, v.revision, revs)
            && (forall k :: k in names ==>
                 Physical(m.bundle, k) in after && after[Physical(m.bundle, k)].revision == revs[k])
            && (Physical(m.bundle, n) in u && u[Physical(m.bundle, n)] == v ==> after == u)
  {
    hide IsDerived, Inputs;
    assert forall k :: k in names ==> Physical(m.bundle, k) != Physical(m.bundle, n);
  }

  /** A record with a value its template does not give. */
  lemma WrittenIsStale(records: map<Name, Version>, m: Manifest, n: string, v: Version)
    requires IsDerived(m, n) && n !in Inputs(m, n) && v.value == Filled(Nodes(m, n), ValuesOf(m, records)) + "x"
    ensures !FreshRecord(m, records[Physical(m.bundle, n) := v], n)
  {
    var after := records[Physical(m.bundle, n) := v];
    assert forall ref :: ref in Inputs(m, n) ==> Physical(m.bundle, ref) != Physical(m.bundle, n);
    FilledDepends(m, n, after, records);
    hide IsDerived, Inputs, Nodes, Filled;
  }

  /** A record whose inputs were not fresh with it, or one of which was replaced by something longer. */
  lemma UnwrittenIsStale(s: Store, u: Store, m: Manifest, n: string, revs: map<string, nat>, filler: string)
    requires IsDerived(m, n) && Physical(m.bundle, n) in s.records && !AtFirst(m, s.records, n, 1, revs)
    requires filler == s.records[Physical(m.bundle, n)].value + "x"
    requires forall ref :: ref in Inputs(m, n) ==>
               && ref in revs && ref in m.records && Physical(m.bundle, ref) in u.records
               && u.records[Physical(m.bundle, ref)] == Raised(Recovered(s).records, Physical(m.bundle, ref), revs[ref],
                    filler)
    requires Physical(m.bundle, n) in u.records
               && u.records[Physical(m.bundle, n)] == Recovered(s).records[Physical(m.bundle, n)]
    ensures !FreshRecord(m, u.records, n)
  {
    RecoveredKept(s);
    hide Recovered, RecordsKept;
    if ref :| ref in Inputs(m, n) && !(Physical(m.bundle, ref) in s.records && revs[ref] == 1) {
      InputsAreReferences(m, n);
      assert u.records[Physical(m.bundle, ref)].value == filler && ValuesOf(m, u.records)[ref] == filler;
      FilledIsLonger(Nodes(m, n), ValuesOf(m, u.records), ref);
    } else {
      FilledDepends(m, n, u.records, s.records);
    }
  }

  // ----- The journal ---------------------------------------------------------------------------

  /** A line is safe when it can never match without being right. */
  ghost predicate LineSafe(s: Store, m: Manifest, n: string, r: nat, revs: map<string, nat>) {
    forall t :: Later(Recovered(s), t) && Matches(m, t.records, n, r, revs) ==> FreshRecord(m, t.records, n)
  }

  /** The inputs of a derived record are records of the manifest, and it is not one of them. */
  lemma InputsOfDerived(doc: Document, n: string)
    requires ValidDocument(doc) && IsDerived(doc.manifest, n)
    ensures n in doc.manifest.records && n !in Inputs(doc.manifest, n)
    ensures forall ref :: ref in Inputs(doc.manifest, n) ==> ref in doc.manifest.records
  {
    DocumentIsOrdered(doc);
    var i :| 0 <= i < |doc.derived| && doc.derived[i] == n;
    hide ValidDocument, Inputs, IsDerived;
    NotReadYet(doc, i, i);
  }

  /** The lines that can be trusted are those that name first revisions and were right at recovery. */
  lemma LineExactly(s: Store, doc: Document, n: string, r: nat, revs: map<string, nat>)
    requires ValidDocument(doc) && IsDerived(doc.manifest, n) && r >= 1
    requires forall ref :: ref in Inputs(doc.manifest, n) ==> ref in revs && revs[ref] >= 1
    ensures LineSafe(s, doc.manifest, n, r, revs) <==> AtFirst(doc.manifest, s.records, n, r, revs)
  {
    InputsOfDerived(doc, n);
    var m := doc.manifest;
    hide ValidDocument, IsDerived, Inputs, Later, Matches, FreshRecord, AtFirst, Recovered;
    if AtFirst(m, s.records, n, r, revs) {
      forall t | Later(Recovered(s), t) && Matches(m, t.records, n, r, revs) ensures FreshRecord(m, t.records, n) {
        TrustedForever(s, t, m, n, r, revs);
      }
    } else {
      var t := MakesStale(s, m, n, r, revs, Inputs(m, n));
    }
  }

  /** The journal line that would let the next preparation keep a record as it is. */
  predicate Skips(m: Manifest, t: Store, n: string) {
    && m.bundle in t.journals && t.journals[m.bundle].payload.digest == m && n in t.journals[m.bundle].payload.entries
    && IsDerived(m, n) && Physical(m.bundle, n) in t.records
    && var e := t.journals[m.bundle].payload.entries[n];
       e.revision == t.records[Physical(m.bundle, n)].revision && InputRevisions(m, n, t.records, e.inputs)
  }

  /** Whatever others write in the new vault, the journal makes nobody keep a record that is not fresh. */
  ghost predicate JournalSafe(s: Store, m: Manifest) {
    forall t, n :: Later(Recovered(s), t) && Skips(m, t, n) ==> FreshRecord(m, t.records, n)
  }

  /** A line of this manifest with exactly the inputs of its template. */
  ghost predicate Usable(s: Store, m: Manifest, n: string) {
    && m.bundle in s.journals && s.journals[m.bundle].payload.digest == m && n in s.journals[m.bundle].payload.entries
    && IsDerived(m, n) && forall ref :: ref in s.journals[m.bundle].payload.entries[n].inputs <==> ref in Inputs(m, n)
  }

  ghost predicate LineAtFirst(s: Store, m: Manifest, n: string)
    requires Usable(s, m, n)
  {
    var e := s.journals[m.bundle].payload.entries[n];
    AtFirst(m, s.records, n, e.revision, e.inputs)
  }

  lemma SkipMatches(s: Store, t: Store, m: Manifest, n: string)
    requires t.journals == Recovered(s).journals && forall k :: IsDerived(m, k) ==>
               forall ref :: ref in Inputs(m, k) ==> ref in m.records
    ensures Skips(m, t, n) <==>
              Usable(s, m, n)
                && var e := s.journals[m.bundle].payload.entries[n]; Matches(m, t.records, n, e.revision, e.inputs)
  {
    hide IsDerived, Inputs;
  }

  /**
   * A recovered journal is safe exactly when each of its usable lines names first revisions only
   * and its record was fresh in the old vault.
   */
  lemma JournalSafeExactly(s: Store, doc: Document)
    requires ValidDocument(doc) && Sound(s)
    ensures JournalSafe(s, doc.manifest) <==> forall n :: Usable(s, doc.manifest, n) ==> LineAtFirst(s, doc.manifest, n)
  {
    var m := doc.manifest;
    forall k | IsDerived(m, k)
      ensures forall ref :: ref in Inputs(m, k) ==> ref in m.records
    {
      InputsOfDerived(doc, k);
    }
    RecoveredKept(s);
    hide ValidDocument, IsDerived, Inputs, Later, Matches, FreshRecord, AtFirst, Recovered, Skips, RecordsKept;
    forall n | Usable(s, m, n)
      ensures var e := s.journals[m.bundle].payload.entries[n];
              LineSafe(s, m, n, e.revision, e.inputs) <==> LineAtFirst(s, m, n)
    {
      LinesArePositive(s, m, n);
      var e := s.journals[m.bundle].payload.entries[n];
      LineExactly(s, doc, n, e.revision, e.inputs);
    }
    hide Sound;
    forall t, n | Later(Recovered(s), t)
      ensures Skips(m, t, n) <==>
                Usable(s, m, n)
                  && var e := s.journals[m.bundle].payload.entries[n]; Matches(m, t.records, n, e.revision, e.inputs)
    {
      LaterKeeps(Recovered(s), t);
      SkipMatches(s, t, m, n);
    }
    hide Usable, LineAtFirst;
  }

  lemma LinesArePositive(s: Store, m: Manifest, n: string)
    requires Sound(s) && Usable(s, m, n)
    ensures var e := s.journals[m.bundle].payload.entries[n]; e.revision >= 1 && forall ref :: ref in e.inputs ==>
              e.inputs[ref] >= 1
  {
    hide Follows, IsDerived, Inputs;
    assert TrueJournal(s.journals[m.bundle].payload, s.past);
  }

  // ----- The snapshot --------------------------------------------------------------------------

  /** A snapshot that some records could make the status "prepared" with. */
  predicate Covers(m: Manifest, snapshot: Option<Snapshot>) {
    && snapshot.Some? && snapshot.value.digest == m
    && forall n :: n in m.records ==>
         n in snapshot.value.revisions && Physical(m.bundle, n) in snapshot.value.logicalOf
         && snapshot.value.logicalOf[Physical(m.bundle, n)] == n
  }

  /** Whatever others write in the new vault, "prepared" is only reported of fresh values. */
  ghost predicate ReportSafe(s: Store, doc: Document) {
    forall t :: Later(Recovered(s), t) && Reports(doc, t) ==> Fresh(doc, t.records)
  }

  predicate Reports(doc: Document, t: Store) {
    StatusOf(doc, t.records, SnapshotOf(t, doc.manifest.bundle)).overall == Prepared
  }

  predicate RecordAtFirst(s: Store, m: Manifest, revs: map<string, nat>, n: string) {
    n in revs && AtFirst(m, s.records, n, revs[n], revs)
  }

  /**
   * A recovered snapshot is safe exactly when it covers nothing, or names first revisions of every
   * derived record and its inputs and these were fresh in the old vault.
   */
  lemma ReportSafeExactly(s: Store, doc: Document)
    requires ValidDocument(doc) && Sound(s)
    ensures var snapshot := SnapshotOf(s, doc.manifest.bundle);
            ReportSafe(s, doc) <==>
              !Covers(doc.manifest, snapshot) ||
              forall n :: IsDerived(doc.manifest, n) ==> RecordAtFirst(s, doc.manifest, snapshot.value.revisions, n)
  {
    var snapshot := SnapshotOf(s, doc.manifest.bundle);
    assert Covers(doc.manifest, snapshot) ==> snapshot.Some?;
    hide ValidDocument, Sound, IsDerived, Covers, RecordAtFirst, Fresh, Reports, Later, Recovered;
    if !Covers(doc.manifest, snapshot) {
      forall t | Later(Recovered(s), t) ensures !Reports(doc, t) { UncoveredNeverReports(s, t, doc); }
    } else if forall n :: IsDerived(doc.manifest, n) ==> RecordAtFirst(s, doc.manifest, snapshot.value.revisions, n) {
      forall t | Later(Recovered(s), t) && Reports(doc, t)
        ensures Fresh(doc, t.records)
      {
        ReportStaysRight(s, t, doc);
      }
    } else {
      var n :| IsDerived(doc.manifest, n) && !RecordAtFirst(s, doc.manifest, snapshot.value.revisions, n);
      var t := ReportGoesWrong(s, doc, n);
    }
  }

  lemma SnapshotStays(s: Store, t: Store, doc: Document)
    requires Later(Recovered(s), t)
    ensures SnapshotOf(t, doc.manifest.bundle) == SnapshotOf(s, doc.manifest.bundle)
  {
    RecoveredKept(s);
    LaterKeeps(Recovered(s), t);
    hide Later, RecordsKept;
  }

  lemma UncoveredNeverReports(s: Store, t: Store, doc: Document)
    requires ValidDocument(doc) && Later(Recovered(s), t) && !Covers(doc.manifest, SnapshotOf(s, doc.manifest.bundle))
    ensures !Reports(doc, t)
  {
    SnapshotStays(s, t, doc);
    PreparedExactly(doc, t.records, SnapshotOf(t, doc.manifest.bundle));
    NotEmpty(doc);
    hide ValidDocument, StatusOf, Later, SnapshotOf;
    var snapshot := SnapshotOf(s, doc.manifest.bundle);
    var n :| n in doc.manifest.records &&
             (snapshot.Some? && snapshot.value.digest == doc.manifest ==>
                !(n in snapshot.value.revisions && Physical(doc.manifest.bundle, n) in snapshot.value.logicalOf &&
                  snapshot.value.logicalOf[Physical(doc.manifest.bundle, n)] == n));
    assert !Recorded(doc, t.records, snapshot, n);
  }

  lemma NotEmpty(doc: Document)
    requires ValidDocument(doc)
    ensures doc.manifest.records != map[] && exists n :: n in doc.manifest.records
  {
    assert doc.manifest.records.Keys != {};
  }

  lemma ReportStaysRight(s: Store, t: Store, doc: Document)
    requires ValidDocument(doc) && Later(Recovered(s), t) && Reports(doc, t)
    requires Covers(doc.manifest, SnapshotOf(s, doc.manifest.bundle))
    requires forall n :: IsDerived(doc.manifest, n) ==>
               RecordAtFirst(s, doc.manifest, SnapshotOf(s, doc.manifest.bundle).value.revisions, n)
    ensures Fresh(doc, t.records)
  {
    var m, snapshot := doc.manifest, SnapshotOf(s, doc.manifest.bundle);
    SnapshotStays(s, t, doc);
    PreparedExactly(doc, t.records, snapshot);
    hide StatusOf, Later, SnapshotOf, Recovered, AtFirst, Covers, ValidDocument;
    forall n | n in m.records ensures FreshRecord(m, t.records, n) {
      assert Recorded(doc, t.records, snapshot, n);
      if IsDerived(m, n) {
        InputsOfDerived(doc, n);
        assert RecordAtFirst(s, m, snapshot.value.revisions, n);
        RecordedMatches(doc, t.records, snapshot, n);
        TrustedForever(s, t, m, n, snapshot.value.revisions[n], snapshot.value.revisions);
      }
    }
  }

  lemma RecordedMatches(doc: Document, records: map<Name, Version>, snapshot: Option<Snapshot>, n: string)
    requires IsDerived(doc.manifest, n) && Recorded(doc, records, snapshot, n)
    requires forall k :: k in doc.manifest.records ==> Recorded(doc, records, snapshot, k)
    requires forall ref :: ref in Inputs(doc.manifest, n) ==> ref in doc.manifest.records
    ensures Matches(doc.manifest, records, n, snapshot.value.revisions[n], snapshot.value.revisions)
  {
    hide IsDerived, Inputs;
    forall ref | ref in Inputs(doc.manifest, n) ensures Recorded(doc, records, snapshot, ref) {}
  }

  lemma ReportGoesWrong(s: Store, doc: Document, n: string) returns (t: Store)
    requires ValidDocument(doc) && Sound(s) && IsDerived(doc.manifest, n)
    requires Covers(doc.manifest, SnapshotOf(s, doc.manifest.bundle))
    requires !RecordAtFirst(s, doc.manifest, SnapshotOf(s, doc.manifest.bundle).value.revisions, n)
    ensures Later(Recovered(s), t) && Reports(doc, t) && !Fresh(doc, t.records)
  {
    var m, snapshot := doc.manifest, SnapshotOf(s, doc.manifest.bundle);
    var revs := snapshot.value.revisions;
    InputsOfDerived(doc, n);
    RevisionsArePositive(s, m);
    var names := Derivations.Listing(m.records.Keys - {n});
    assert forall k :: k in names ==> k in m.records && k != n;
    assert forall k :: k in m.records ==> k in revs;
    hide Sound, Later, SnapshotOf, Recovered, FreshRecord, IsDerived, Inputs, AtFirst, ValidDocument, Matches;
    t := MakesStale(s, m, n, revs[n], revs, names);
    SnapshotStays(s, t, doc);
    MatchedStands(m, t.records, n, revs[n], revs);
    forall k | k in m.records ensures Recorded(doc, t.records, snapshot, k) {
      if k != n { assert k in names; }
    }
    hide Recorded, Covers;
    PreparedExactly(doc, t.records, snapshot);
  }

  lemma MatchedStands(m: Manifest, records: map<Name, Version>, n: string, r: nat, revs: map<string, nat>)
    requires Matches(m, records, n, r, revs)
    ensures Physical(m.bundle, n) in records && records[Physical(m.bundle, n)].revision == r
  {
  }

  lemma RevisionsArePositive(s: Store, m: Manifest)
    requires Sound(s) && SnapshotOf(s, m.bundle).Some?
    ensures forall n :: n in SnapshotOf(s, m.bundle).value.revisions ==> SnapshotOf(s, m.bundle).value.revisions[n] >= 1
  {
    hide Follows, IsDerived;
    assert ConsistentCut(s.snapshots[m.bundle].payload, s.past);
  }

  // ----- The whole vault -----------------------------------------------------------------------

  /** Templates read records of their own manifest. */
  ghost predicate Closed(m: Manifest) {
    forall n :: IsDerived(m, n) ==> forall ref :: ref in Inputs(m, n) ==> ref in m.records
  }

  /** In the new vault a derived value follows from exactly the lines that can be trusted. */
  lemma FollowsAtFirst(s: Store, m: Manifest, n: string, r: nat, revs: map<string, nat>)
    requires Closed(m) && IsDerived(m, n)
    ensures Follows(m, n, r, revs, Recovered(s).past) <==> AtFirst(m, s.records, n, r, revs)
  {
    PastOfRecovered(s);
    RecoveredKept(s);
    var past := Recovered(s).past;
    hide Recovered, RecordsKept, Nodes, Inputs, IsDerived, ValuesAt, ValuesOf, Filled;
    if forall ref :: ref in Inputs(m, n) ==> ref in revs && revs[ref] == 1 && Physical(m.bundle, ref) in s.records {
      SameFill(s, m, n, revs, past);
    }
  }

  lemma SameFill(s: Store, m: Manifest, n: string, revs: map<string, nat>, past: Past)
    requires Closed(m) && IsDerived(m, n)
    requires forall ref :: ref in Inputs(m, n) ==>
               && ref in revs && revs[ref] == 1 && Physical(m.bundle, ref) in s.records
               && (Physical(m.bundle, ref), 1) in past
                    && past[(Physical(m.bundle, ref), 1)] == s.records[Physical(m.bundle, ref)].value
    ensures Filled(Nodes(m, n), ValuesAt(m.bundle, revs, past)) == Filled(Nodes(m, n), ValuesOf(m, s.records))
  {
    forall ref | ref in Inputs(m, n) ensures ref in m.records {}
    hide *;
    var at, now := ValuesAt(m.bundle, revs, past), ValuesOf(m, s.records);
    forall ref | ref in Inputs(m, n) ensures ref in at && ref in now && at[ref] == now[ref] {
      SameInput(s, m, ref, revs, past);
    }
    Agreeing(Inputs(m, n), at, now);
    InputsAreReferences(m, n);
    FilledAgrees(Nodes(m, n), at, now);
  }

  lemma SameInput(s: Store, m: Manifest, ref: string, revs: map<string, nat>, past: Past)
    requires ref in m.records && ref in revs && revs[ref] == 1 && Physical(m.bundle, ref) in s.records
    requires (Physical(m.bundle, ref), 1) in past
               && past[(Physical(m.bundle, ref), 1)] == s.records[Physical(m.bundle, ref)].value
    ensures var at, now := ValuesAt(m.bundle, revs, past), ValuesOf(m, s.records);
            ref in at && ref in now && at[ref] == now[ref]
  {
  }

  lemma PastOfRecovered(s: Store)
    ensures forall k :: k in Recovered(s).past <==> k.1 == 1 && k.0 in s.records
  {
    forall k: (Name, nat) | k.1 == 1 && k.0 in s.records ensures k in Recovered(s).past {
      assert k == (k.0, 1);
    }
  }

  ghost predicate JournalAtFirst(s: Store, j: Journal) {
    forall n :: n in j.entries && IsDerived(j.digest, n) ==>
      AtFirst(j.digest, s.records, n, j.entries[n].revision, j.entries[n].inputs)
  }

  ghost predicate SnapshotAtFirst(s: Store, t: Snapshot) {
    forall n :: n in t.revisions ==>
      && Physical(t.bundle, n) in s.records && t.revisions[n] == 1
      && (IsDerived(t.digest, n) ==> AtFirst(t.digest, s.records, n, 1, t.revisions))
  }

  lemma JournalTrueAfter(s: Store, j: Journal, past: Past)
    requires TrueJournal(j, past) && Closed(j.digest)
    ensures TrueJournal(j, Recovered(s).past) <==> JournalAtFirst(s, j)
  {
    hide Follows, AtFirst, Closed, IsDerived, Recovered;
    forall n | n in j.entries && IsDerived(j.digest, n)
      ensures Follows(j.digest, n, j.entries[n].revision, j.entries[n].inputs, Recovered(s).past) <==>
              AtFirst(j.digest, s.records, n, j.entries[n].revision, j.entries[n].inputs)
    {
      FollowsAtFirst(s, j.digest, n, j.entries[n].revision, j.entries[n].inputs);
    }
  }

  lemma CutAfter(s: Store, t: Snapshot, past: Past)
    requires ConsistentCut(t, past) && Closed(t.digest)
    ensures ConsistentCut(t, Recovered(s).past) <==> SnapshotAtFirst(s, t)
  {
    PastOfRecovered(s);
    hide Follows, AtFirst, Closed, IsDerived, Recovered, ValidSnapshot;
    forall n | n in t.revisions && IsDerived(t.digest, n)
      ensures Follows(t.digest, n, t.revisions[n], t.revisions, Recovered(s).past) <==>
              AtFirst(t.digest, s.records, n, t.revisions[n], t.revisions)
    {
      FollowsAtFirst(s, t.digest, n, t.revisions[n], t.revisions);
    }
  }

  /**
   * A recovered vault is in the state preparation relies on, for every bundle in it, exactly when
   * all journals and snapshots named first revisions only and were right about the old values.
   */
  lemma SoundExactly(s: Store)
    requires Sound(s)
    requires forall b :: b in s.journals ==> Closed(s.journals[b].payload.digest)
    requires forall b :: b in s.snapshots ==> Closed(s.snapshots[b].payload.digest)
    ensures Sound(Recovered(s)) <==>
              && (forall b :: b in s.journals ==> JournalAtFirst(s, s.journals[b].payload))
              && (forall b :: b in s.snapshots ==> SnapshotAtFirst(s, s.snapshots[b].payload))
  {
    RecoveredKept(s);
    SamePayloads(s);
    hide RecordsKept, TrueJournal, ConsistentCut, Closed, JournalAtFirst, SnapshotAtFirst, Recovered;
    forall b | b in s.journals
      ensures TrueJournal(s.journals[b].payload, Recovered(s).past) <==> JournalAtFirst(s, s.journals[b].payload)
    {
      JournalTrueAfter(s, s.journals[b].payload, s.past);
    }
    forall b | b in s.snapshots
      ensures ConsistentCut(s.snapshots[b].payload, Recovered(s).past) <==> SnapshotAtFirst(s, s.snapshots[b].payload)
    {
      CutAfter(s, s.snapshots[b].payload, s.past);
    }
  }

  lemma SamePayloads(s: Store)
    ensures forall b :: b in Recovered(s).journals <==> b in s.journals
    ensures forall b :: b in Recovered(s).snapshots <==> b in s.snapshots
    ensures forall b :: b in s.journals ==> Recovered(s).journals[b].payload == s.journals[b].payload
    ensures forall b :: b in s.snapshots ==> Recovered(s).snapshots[b].payload == s.snapshots[b].payload
  {
  }

  // ----- A journal that makes preparation bless a stale value ----------------------------------

  /** D was derived from the first value of A; then A moved on, and nobody prepared again. */
  function LaggingStore(): Store {
    var m := CopyManifest();
    Store(map[A := Version("y", 2), D := Version("x", 1)],
          map[(A, 1) := "x", (A, 2) := "y", (D, 1) := "x"],
          map["b" := Held(Journal("b", m, map["D" := Entry(m.records["D"], 1, map["A" := 1])]), 1)],
          map[])
  }

  lemma LaggingRecords()
    ensures RecordsKept(LaggingStore())
  {
    hide Print, CopyManifest;
  }

  lemma LaggingJournal()
    ensures var s := LaggingStore();
            && s.snapshots == map[] && s.journals.Keys == {"b"} && s.journals["b"].payload.bundle == "b"
            && TrueJournal(s.journals["b"].payload, s.past)
  {
    var past := map[(A, 1) := "x", (A, 2) := "y", (D, 1) := "x"];
    StaleFollows(past, map["A" := 1]);
    hide Follows, IsDerived, Print, TrueJournal, StaleStore;
    var j := LaggingStore().journals["b"].payload;
    assert j.digest == CopyManifest() && LaggingStore().past == past && j.entries.Keys == {"D"};
    assert j.bundle == j.digest.bundle;
    hide LaggingStore, CopyManifest;
    OneLine(j, past);
  }

  lemma LaggingIsSound()
    ensures Sound(LaggingStore())
  {
    hide *;
    LaggingRecords();
    LaggingJournal();
    OneJournal(LaggingStore(), "b");
  }

  lemma OneLine(j: Journal, past: Past)
    requires j.bundle == j.digest.bundle != "" && j.entries.Keys == {"D"}
    requires j.entries["D"].revision == 1 && j.entries["D"].inputs == map["A" := 1]
    requires Follows(j.digest, "D", 1, map["A" := 1], past)
    ensures TrueJournal(j, past)
  {
    hide Follows, IsDerived;
    assert forall n :: n in j.entries ==> n == "D";
  }

  lemma OneJournal(s: Store, b: string)
    requires RecordsKept(s) && s.snapshots == map[] && s.journals.Keys == {b}
    requires s.journals[b].payload.bundle == b && TrueJournal(s.journals[b].payload, s.past)
    ensures Sound(s)
  {
    hide RecordsKept, TrueJournal;
    assert forall k :: k in s.journals ==> k == b;
  }

  /**
   * It happens: the old vault is sound and nothing is reported as prepared, but in the new one the
   * journal makes the next preparation keep a stale value, and with the snapshot it then publishes
   * the bundle counts as prepared.
   */
  lemma RecoveredJournalMisleads() returns (s: Store, doc: Document, published: Snapshot)
    ensures Sound(s) && ValidDocument(doc) && !Reports(doc, Recovered(s))
    ensures Skips(doc.manifest, Recovered(s), "D") && !FreshRecord(doc.manifest, Recovered(s).records, "D")
    ensures Describes(published, doc.manifest, Recovered(s).records)
    ensures StatusOf(doc, Recovered(s).records, Some(published)).overall == Prepared
    ensures !JournalSafe(s, doc.manifest)
  {
    s, published := LaggingStore(), StaleStore().snapshots["b"].payload;
    doc := CopyIsValid();
    LaggingIsSound();
    CopyParses();
    LaggingLine(s, doc.manifest);
    StaleSnapshotIsValid();
    PublishedDescribes(s, doc.manifest, published);
    hide ValidDocument, Sound, StatusOf, Skips, FreshRecord, Describes, Print, Parse;
    RecordedMeans(doc, Recovered(s).records, published);
    PreparedExactly(doc, Recovered(s).records, Some(published));
    PreparedExactly(doc, Recovered(s).records, None);
    assert "A" in doc.manifest.records && !Recorded(doc, Recovered(s).records, None, "A");
    Itself(Recovered(s));
  }

  lemma LaggingLine(s: Store, m: Manifest)
    requires s == LaggingStore() && m == CopyManifest()
    ensures Skips(m, Recovered(s), "D") && !FreshRecord(m, Recovered(s).records, "D")
    ensures SnapshotOf(Recovered(s), "b") == None
  {
    CopyParses();
    hide Parse, Print, Filled;
    var t := Recovered(s);
    assert m.records["D"].Derived? && IsDerived(m, "D") && Nodes(m, "D") == COPY && Inputs(m, "D") == ["A"];
    assert t.records[A] == Version("y", 1) && t.records[D] == Version("x", 1);
    assert ValuesOf(m, t.records)["A"] == "y";
    CopyFills(ValuesOf(m, t.records));
  }

  lemma PublishedDescribes(s: Store, m: Manifest, published: Snapshot)
    requires s == LaggingStore() && m == CopyManifest() && published == StaleStore().snapshots["b"].payload
    requires ValidSnapshot(published)
    ensures Describes(published, m, Recovered(s).records)
  {
    hide ValidSnapshot, Print;
    var t := Recovered(s);
    assert t.records[A].revision == 1 && t.records[D].revision == 1;
    assert published.revisions.Keys == m.records.Keys by {
      assert published.revisions.Keys == {"A", "D"} && m.records.Keys == {"A", "D"};
    }
  }
}

/** The snapshot a preparer publishes: what it describes, remembers, and makes the status say. */
module PrepareSnapshot {
  import opened Basics
  import opened SecretTemplate
  import opened Bundle
  import opened BundleStatus
  import opened BundlePrepare
  import opened Ordering
  import opened PrepareInputs
  import Derivations

  // ----- What was recorded before --------------------------------------------------------------------

  /** A revision the snapshot before still names, other than the one recorded now. */
  predicate Evidence(prev: Option<Snapshot>, n: string, current: nat, r: nat) {
    && 1 <= r != current && prev.Some?
    && ((n in prev.value.previous && r in prev.value.previous[n]) ||
        (n in prev.value.revisions && prev.value.revisions[n] == r))
  }

  /** Every revision the snapshot before names for a record. */
  function EvidenceList(prev: Option<Snapshot>, n: string): (list: seq<nat>)
    ensures forall current, r :: Evidence(prev, n, current, r) ==> r in list
  {
    if prev.None? then []
    else
      (if n in prev.value.previous then prev.value.previous[n] else []) +
      (if n in prev.value.revisions then [prev.value.revisions[n]] else [])
  }

  method HistoryOf(prev: Option<Snapshot>, n: string, current: nat) returns (kept: seq<nat>)
    ensures Distinct(kept) && forall r: nat :: r in kept <==> Evidence(prev, n, current, r)
  {
    if prev.None? { return []; }
    var history := if n in prev.value.previous then prev.value.previous[n] else [];
    var last := if n in prev.value.revisions then prev.value.revisions[n] else 0;
    if last > 0 && last != current { history := history + [last]; }
    kept := UniqueSortedRevisions(history, current);
  }

  predicate RememberedOne(previous: map<string, seq<nat>>, prev: Option<Snapshot>, n: string, current: nat) {
    if n in previous
    then Distinct(previous[n]) && (forall r :: r in previous[n] ==> Evidence(prev, n, current, r)) &&
         forall r :: r in EvidenceList(prev, n) && Evidence(prev, n, current, r) ==> r in previous[n]
    else forall r :: r in EvidenceList(prev, n) ==> !Evidence(prev, n, current, r)
  }

  predicate Remembered(prev: Option<Snapshot>, revisions: map<string, nat>, previous: map<string, seq<nat>>) {
    && (forall n :: n in revisions ==> RememberedOne(previous, prev, n, revisions[n]))
    && forall n :: n in previous ==> n in revisions
  }

  lemma RememberOne(prev: Option<Snapshot>, revisions: map<string, nat>, previous: map<string, seq<nat>>,
                    n: string, current: nat, kept: seq<nat>)
    requires Remembered(prev, revisions, previous) && n !in revisions
    requires Distinct(kept) && forall r: nat :: r in kept <==> Evidence(prev, n, current, r)
    ensures Remembered(prev, revisions[n := current], if kept != [] then previous[n := kept] else previous)
  {
    var after := if kept != [] then previous[n := kept] else previous;
    hide Evidence;
    if kept == [] { assert forall r: nat :: r !in kept; }
    forall k | k in revisions ensures RememberedOne(after, prev, k, revisions[k]) {
      assert RememberedOne(previous, prev, k, revisions[k]);
    }
  }

  lemma AllRemembered(prev: Option<Snapshot>, s: Snapshot)
    requires Remembered(prev, s.revisions, s.previous)
    ensures forall n :: n in s.previous ==>
              n in s.revisions && Distinct(s.previous[n]) && forall r :: r in s.previous[n] ==> 1 <= r != s.revisions[n]
    ensures forall n, r: nat :: n in s.revisions ==>
              (n in s.previous && r in s.previous[n] <==> Evidence(prev, n, s.revisions[n], r))
  {
    forall n | n in s.previous
      ensures n in s.revisions && Distinct(s.previous[n]) && forall r :: r in s.previous[n] ==> 1 <= r != s.revisions[n]
    {
      assert RememberedOne(s.previous, prev, n, s.revisions[n]);
    }
    forall n, r: nat | n in s.revisions
      ensures n in s.previous && r in s.previous[n] <==> Evidence(prev, n, s.revisions[n], r)
    {
      assert RememberedOne(s.previous, prev, n, s.revisions[n]);
    }
  }

  /**
   * The revisions a snapshot lists as earlier ones are exactly those its predecessor named for the
   * record, as current or as earlier ones, except the one that is current now: none is forgotten.
   */
  ghost predicate Remembers(prev: Option<Snapshot>, s: Snapshot) {
    forall n, r: nat :: n in s.revisions ==>
      (Names(s.previous, n, r) <==>
         && r >= 1 && r != s.revisions[n] && prev.Some?
         && (Names(prev.value.previous, n, r) || (n in prev.value.revisions && prev.value.revisions[n] == r)))
  }

  predicate Names(previous: map<string, seq<nat>>, n: string, r: nat) { n in previous && r in previous[n] }

  lemma EvidenceIsRemembered(prev: Option<Snapshot>, s: Snapshot)
    requires forall n, r: nat :: n in s.revisions ==>
               (n in s.previous && r in s.previous[n] <==> Evidence(prev, n, s.revisions[n], r))
    ensures Remembers(prev, s)
  {
    forall n, r: nat | n in s.revisions
      ensures Names(s.previous, n, r) <==> Evidence(prev, n, s.revisions[n], r)
    {
    }
  }

  // ----- What is recorded now ------------------------------------------------------------------------

  /** A valid snapshot of exactly the known revisions of a manifest's records. */
  predicate Describes(s: Snapshot, m: Manifest, known: map<Name, Version>) {
    && ValidSnapshot(s) && s.bundle == m.bundle && s.digest == m && s.revisions.Keys == m.records.Keys
    && (forall n :: n in s.revisions ==>
          && Physical(m.bundle, n) in known && s.revisions[n] == known[Physical(m.bundle, n)].revision
          && Physical(m.bundle, n) in s.logicalOf && s.logicalOf[Physical(m.bundle, n)] == n)
    && s.sources == m.records
  }

  predicate Mapped(m: Manifest, known: map<Name, Version>, names: seq<string>,
                   logicalOf: map<Name, string>, sources: map<string, Spec>, revisions: map<string, nat>) {
    && (forall n :: n in names ==> n in revisions && n in sources && Physical(m.bundle, n) in logicalOf)
    && (forall n :: n in revisions ==>
         n in names && Physical(m.bundle, n) in known && revisions[n] == known[Physical(m.bundle, n)].revision)
    && (forall n :: n in sources ==> n in names && n in m.records && sources[n] == m.records[n])
    && forall p :: p in logicalOf ==> logicalOf[p] in names && p == Physical(m.bundle, logicalOf[p])
  }

  lemma NothingMapped(m: Manifest, known: map<Name, Version>, prev: Option<Snapshot>)
    ensures Mapped(m, known, [], map[], map[], map[]) && Remembered(prev, map[], map[])
  {
  }

  lemma MapOne(m: Manifest, known: map<Name, Version>, names: seq<string>, n: string,
               logicalOf: map<Name, string>, sources: map<string, Spec>, revisions: map<string, nat>)
    requires Mapped(m, known, names, logicalOf, sources, revisions) && n !in names
    requires Physical(m.bundle, n) in known && n in m.records
    ensures Mapped(m, known, names + [n], logicalOf[Physical(m.bundle, n) := n], sources[n := m.records[n]],
                   revisions[n := known[Physical(m.bundle, n)].revision])
    ensures n !in revisions
  {
  }

  lemma LogicalValues(m: Manifest, logicalOf: map<Name, string>)
    requires forall p :: p in logicalOf ==> p == Physical(m.bundle, logicalOf[p])
    ensures forall n :: n in logicalOf.Values <==> Physical(m.bundle, n) in logicalOf
  {
    forall n | Physical(m.bundle, n) in logicalOf ensures n in logicalOf.Values {
      assert logicalOf[Physical(m.bundle, n)] == n;
    }
  }

  lemma MappedKeys(m: Manifest, known: map<Name, Version>, names: seq<string>, s: Snapshot)
    requires Mapped(m, known, names, s.logicalOf, s.sources, s.revisions) && forall n :: n in names <==> n in m.records
    ensures s.sources == m.records && s.revisions.Keys == m.records.Keys
    ensures s.sources.Keys == s.logicalOf.Values && s.revisions.Keys == s.logicalOf.Values
  {
    LogicalValues(m, s.logicalOf);
    assert s.sources == m.records;
    assert s.sources.Keys == s.logicalOf.Values && s.revisions.Keys == s.logicalOf.Values;
  }

  lemma MappedLines(m: Manifest, known: map<Name, Version>, names: seq<string>, s: Snapshot)
    requires Mapped(m, known, names, s.logicalOf, s.sources, s.revisions)
    requires "" !in m.records && forall n :: n in names <==> n in m.records
    requires forall n :: n in names ==> Physical(m.bundle, n) in known && known[Physical(m.bundle, n)].revision >= 1
    ensures forall p :: p in s.logicalOf ==> s.logicalOf[p] != ""
    ensures forall p, q :: p in s.logicalOf && q in s.logicalOf && s.logicalOf[p] == s.logicalOf[q] ==> p == q
    ensures forall n :: n in s.revisions ==>
              && s.revisions[n] >= 1 && Physical(m.bundle, n) in known
                   && s.revisions[n] == known[Physical(m.bundle, n)].revision
              && Physical(m.bundle, n) in s.logicalOf && s.logicalOf[Physical(m.bundle, n)] == n
  {
    forall n | n in s.revisions
      ensures n in names && Physical(m.bundle, n) in s.logicalOf && s.logicalOf[Physical(m.bundle, n)] == n
    {
      assert n in names;
    }
  }

  lemma LinesDescribe(m: Manifest, known: map<Name, Version>, s: Snapshot)
    requires s.bundle == m.bundle != "" && s.digest == m && s.sources == m.records && s.revisions.Keys == m.records.Keys
    requires s.sources.Keys == s.logicalOf.Values && s.revisions.Keys == s.logicalOf.Values
    requires forall p :: p in s.logicalOf ==> s.logicalOf[p] != ""
    requires forall p, q :: p in s.logicalOf && q in s.logicalOf && s.logicalOf[p] == s.logicalOf[q] ==> p == q
    requires forall n :: n in s.revisions ==>
               && s.revisions[n] >= 1 && Physical(m.bundle, n) in known
                    && s.revisions[n] == known[Physical(m.bundle, n)].revision
               && Physical(m.bundle, n) in s.logicalOf && s.logicalOf[Physical(m.bundle, n)] == n
    requires forall n :: n in s.previous ==>
               n in s.revisions && Distinct(s.previous[n]) && forall r :: r in s.previous[n] ==>
                 1 <= r != s.revisions[n]
    ensures Describes(s, m, known)
  {
  }

  lemma AllMapped(doc: Document, known: map<Name, Version>, names: seq<string>, prev: Option<Snapshot>, s: Snapshot)
    requires ValidDocument(doc) && (forall n :: n in names <==> n in doc.manifest.records)
    requires forall n :: n in names ==>
               Physical(doc.manifest.bundle, n) in known && known[Physical(doc.manifest.bundle, n)].revision >= 1
    requires Mapped(doc.manifest, known, names, s.logicalOf, s.sources, s.revisions)
               && Remembered(prev, s.revisions, s.previous)
    requires s.bundle == doc.manifest.bundle && s.digest == doc.manifest
    ensures Describes(s, doc.manifest, known)
    ensures forall n, r: nat :: n in names ==>
              (n in s.previous && r in s.previous[n] <==> Evidence(prev, n, s.revisions[n], r))
  {
    assert "" !in doc.manifest.records && doc.manifest.bundle != "";
    hide *;
    MappedKeys(doc.manifest, known, names, s);
    MappedLines(doc.manifest, known, names, s);
    AllRemembered(prev, s);
    LinesDescribe(doc.manifest, known, s);
  }

  // ----- What is published is consistent and was real ------------------------------------------------

  lemma AllThere(doc: Document, known: map<Name, Version>, past: Past)
    requires Fresh(doc, known) && Listed(known, past)
    ensures forall n :: n in doc.manifest.records ==>
              Physical(doc.manifest.bundle, n) in known && known[Physical(doc.manifest.bundle, n)].revision >= 1
  {
    hide IsDerived, Inputs, Nodes;
    forall n | n in doc.manifest.records
      ensures Physical(doc.manifest.bundle, n) in known && known[Physical(doc.manifest.bundle, n)].revision >= 1
    {
      assert FreshRecord(doc.manifest, known, n);
    }
  }

  lemma DescribedValue(doc: Document, known: map<Name, Version>, past: Past, s: Snapshot, n: string)
    requires Listed(known, past) && Describes(s, doc.manifest, known) && n in doc.manifest.records
    ensures n in s.revisions && (Physical(doc.manifest.bundle, n), s.revisions[n]) in past
    ensures var at, now := ValuesAt(doc.manifest.bundle, s.revisions, past), ValuesOf(doc.manifest, known);
            n in at && n in now && at[n] == now[n]
  {
    hide ValidSnapshot;
    assert n in s.revisions;
  }

  lemma DescribedInput(doc: Document, known: map<Name, Version>, past: Past, s: Snapshot, n: string)
    requires Listed(known, past) && Fresh(doc, known) && Describes(s, doc.manifest, known) && IsDerived(doc.manifest, n)
    requires forall ref :: ref in Inputs(doc.manifest, n) ==> ref in doc.manifest.records
    ensures Follows(doc.manifest, n, s.revisions[n], s.revisions, past)
  {
    var m := doc.manifest;
    assert FreshRecord(m, known, n) && n in s.revisions;
    var at, now := ValuesAt(m.bundle, s.revisions, past), ValuesOf(m, known);
    forall ref | ref in Inputs(m, n) ensures ref in at && ref in now && at[ref] == now[ref] {
      DescribedValue(doc, known, past, s, ref);
    }
    hide ValidSnapshot, Fresh, Describes;
    Agreeing(Inputs(m, n), at, now);
    InputsAreReferences(m, n);
    FilledAgrees(Nodes(m, n), ValuesAt(m.bundle, s.revisions, past), ValuesOf(m, known));
  }

  /** What is published is a consistent cut. */
  lemma DescribedIsConsistent(doc: Document, known: map<Name, Version>, past: Past, s: Snapshot)
    requires ValidDocument(doc) && Listed(known, past) && Fresh(doc, known) && Describes(s, doc.manifest, known)
    ensures ConsistentCut(s, past) && forall expected :: Permitted(doc, past, Publish(s, expected))
  {
    forall n | n in s.revisions && IsDerived(s.digest, n)
      ensures Follows(s.digest, n, s.revisions[n], s.revisions, past)
    {
      DescribedInput(doc, known, past, s, n);
    }
    hide ValidDocument, Fresh, IsDerived, Follows;
    forall n | n in s.revisions ensures (Physical(s.bundle, n), s.revisions[n]) in past {
      DescribedValue(doc, known, past, s, n);
    }
    hide ValidSnapshot, Listed;
  }

  predicate SameRevisions(m: Manifest, known: map<Name, Version>, records: map<Name, Version>) {
    forall n :: n in m.records ==>
      RecordRevision(records, Physical(m.bundle, n)) == RecordRevision(known, Physical(m.bundle, n))
  }

  lemma SameAsItself(m: Manifest, known: map<Name, Version>)
    ensures SameRevisions(m, known, known)
  {
  }

  lemma AllSame(m: Manifest, names: seq<string>, known: map<Name, Version>, records: map<Name, Version>)
    requires forall n :: n in names <==> n in m.records
    requires forall k :: 0 <= k < |names| ==>
               RecordRevision(records, Physical(m.bundle, names[k])) == RecordRevision(known,
                 Physical(m.bundle, names[k]))
    ensures SameRevisions(m, known, records)
  {
    hide RecordRevision;
    forall n | n in m.records
      ensures RecordRevision(records, Physical(m.bundle, n)) == RecordRevision(known, Physical(m.bundle, n))
    {
      var k :| 0 <= k < |names| && names[k] == n;
    }
  }

  lemma DescribedWasReal(doc: Document, known: map<Name, Version>, s: Snapshot, run: seq<Store>, k: int)
    requires Describes(s, doc.manifest, known) && 0 <= k < |run| && SameRevisions(doc.manifest, known, run[k].records)
    ensures WasReal(s, run, |run| - 1)
  {
    hide ValidSnapshot;
    assert AllCurrent(s, run[k].records);
  }

  // ----- What the status says of it ------------------------------------------------------------------

  function Payload(objects: Objects): Option<Snapshot> {
    if objects.snapshot.Some? then Some(objects.snapshot.value.payload) else None
  }

  /** The stored snapshot records every current record of the bundle. */
  ghost predicate AllRecorded(doc: Document, s: Store) {
    forall n :: n in doc.manifest.records ==> Recorded(doc, s.records, Payload(ObjectsOf(s, doc.manifest.bundle)), n)
  }

  lemma RecordedUnfolds(doc: Document, s: Store)
    ensures AllRecorded(doc, s) <==>
              forall n :: n in doc.manifest.records ==>
                Recorded(doc, s.records, Payload(ObjectsOf(s, doc.manifest.bundle)), n)
  {
  }

  lemma RecordedMeans(doc: Document, known: map<Name, Version>, s: Snapshot)
    requires Describes(s, doc.manifest, known)
    ensures forall n :: n in doc.manifest.records ==> Recorded(doc, known, Some(s), n)
  {
    hide ValidSnapshot;
    forall n | n in doc.manifest.records ensures Recorded(doc, known, Some(s), n) {
      assert n in s.revisions;
    }
  }

  lemma RecordedExactly(doc: Document, s: Store)
    requires ValidDocument(doc)
    ensures StatusOf(doc, s.records, Payload(ObjectsOf(s, doc.manifest.bundle))).overall == Prepared <==>
              AllRecorded(doc, s)
  {
    hide *;
    var snapshot := Payload(ObjectsOf(s, doc.manifest.bundle));
    PreparedExactly(doc, s.records, snapshot);
    RecordedUnfolds(doc, s);
  }

  lemma DescribedIsRecorded(doc: Document, s: Store)
    requires exists t :: Describes(t, doc.manifest, s.records) && Payload(ObjectsOf(s, doc.manifest.bundle)) == Some(t)
    requires ValidDocument(doc)
    ensures AllRecorded(doc, s)
    ensures StatusOf(doc, s.records, Payload(ObjectsOf(s, doc.manifest.bundle))).overall == Prepared
  {
    hide *;
    var t :| Describes(t, doc.manifest, s.records) && Payload(ObjectsOf(s, doc.manifest.bundle)) == Some(t);
    RecordedMeans(doc, s.records, t);
    RecordedUnfolds(doc, s);
    RecordedExactly(doc, s);
  }

  lemma DescribedBundle(s: Snapshot, m: Manifest, known: map<Name, Version>)
    requires Describes(s, m, known)
    ensures s.bundle == m.bundle
  {
  }

  lemma PublishFits(s: Store, t: Snapshot, b: string, objects: Objects)
    requires t.bundle == b && ObjectsOf(s, b).snapshot == objects.snapshot
    ensures var expected := if objects.snapshot.Some? then objects.snapshot.value.revision else 0;
            && Fits(s, Publish(t, expected))
            && Next(s, Publish(t, expected)).records == s.records
            && Payload(ObjectsOf(Next(s, Publish(t, expected)), b)) == Some(t)
  {
  }

  lemma SameSnapshot(s: Store, t: Store, b: string)
    ensures s.snapshots == t.snapshots ==> ObjectsOf(s, b).snapshot == ObjectsOf(t, b).snapshot
  {
  }
}

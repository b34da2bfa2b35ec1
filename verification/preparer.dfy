/** The prepare operation itself. */
module BundlePreparer {
  import opened Basics
  import opened SecretTemplate
  import opened Bundle
  import opened BundleStatus
  import opened BundlePrepare
  import opened Ordering
  import opened PrepareInputs
  import opened PrepareSnapshot
  import opened PrepareFacts
  import Derivations

  datatype Failure =
    | Unavailable | MissingInputs | GenerationFailed(name: string) | TooLong(name: string)
    | Conflict(name: string) | CheckpointFailed(name: string) | Moved(name: string)
    | NotPublished | ChangedMeanwhile

  /** What a failure may be about: the record it names is of the kind that can fail so. */
  predicate Blames(m: Manifest, f: Failure) {
    match f
    case GenerationFailed(n) => n in m.records && m.records[n].Generated?
    case TooLong(n) => n in m.records && m.records[n].Derived?
    case Conflict(n) => n in m.records
    case CheckpointFailed(n) => n == "" || n in m.records
    case Moved(n) => n in m.records
    case _ => true
  }

  class Preparer {
    const vault: SharedVault
    const doc: Document

    constructor (vault: SharedVault, doc: Document)
      requires vault.doc == doc
      ensures this.vault == vault && this.doc == doc
    {
      this.vault, this.doc := vault, doc;
    }

    ghost predicate Ready()
      reads vault
    {
      vault.Valid() && vault.doc == doc && ValidDocument(doc)
    }

    ghost predicate Holds(known: map<Name, Version>, journal: Journal)
      reads vault
    {
      Ready() && Stands(doc.manifest, known, journal, vault.store.past)
    }

    /** The only thing that stops an undisturbed evaluation. */
    ghost predicate OnlyTooLong(stop: Option<Failure>)
      reads vault
    {
      stop.Some? ==> stop.value.TooLong? && TooBig(doc.manifest, stop.value.name, vault.store.records)
    }

    /** Left alone, the local copies are what is stored. */
    ghost predicate Synced(known: map<Name, Version>, saved: nat)
      reads vault
    {
      vault.quiet ==> known == vault.store.records && RevisionOf(vault.store.journals, doc.manifest.bundle) == saved
    }

    /** The known revisions were all current at some moment since then. */
    ghost predicate StoodSince(known: map<Name, Version>, from: int)
      reads vault
    {
      exists k :: 0 <= k && from <= k < |vault.run| && SameRevisions(doc.manifest, known, vault.run[k].records)
    }

    /** A password for a policy, when the random source delivers one. */
    method Generate(policy: string) returns (r: Option<string>)
      ensures vault.quiet ==> r.Some?
    {
      var failed: bool, value: string := *, *;
      r := if failed && !vault.quiet then None else Some(value);
    }

    function Own(n: string): Name { Physical(doc.manifest.bundle, n) }

    /** Lists the records, then the objects; others may write in between. */
    method Load() returns (r: Option<(map<Name, Version>, Objects)>)
      requires Ready()
      modifies vault
      ensures vault.Extends()
      ensures r.Some? ==>
                Listed(r.value.0, vault.store.past) && TrueObjects(r.value.1, doc.manifest.bundle, vault.store.past)
      ensures r.Some? ==>
                exists k :: 0 <= k && |old(vault.run)| - 1 <= k < |vault.run| && vault.run[k].records == r.value.0
      ensures vault.quiet ==>
                && vault.store == old(vault.store)
                && r == Some((vault.store.records, ObjectsOf(vault.store, doc.manifest.bundle)))
    {
      hide Listed, TrueObjects, Grown, SharedVault.Valid;
      ghost var first := vault.store.past;
      var records := vault.ListRecords();
      if records.None? { return None; }
      ghost var at := |vault.run| - 1;
      ghost var middle := vault.store.past;
      var objects := vault.ListObjects(doc.manifest.bundle);
      GrownTwice(first, middle, vault.store.past);
      if objects.None? { return None; }
      ListedStill(records.value, middle, vault.store.past);
      assert vault.run[at].records == records.value;
      return Some((records.value, objects.value));
    }

    /** Saves the journal; what it and the known records stand for stays true meanwhile. */
    method StoreJournal(known: map<Name, Version>, journal: Journal, revision: nat) returns (ok: bool)
      requires Holds(known, journal) && Synced(known, revision)
      modifies vault
      ensures vault.Extends() && Holds(known, journal)
      ensures ok ==> Synced(known, revision + 1) && vault.Accepted(Checkpoint(journal, revision), |old(vault.events)|)
      ensures vault.quiet ==> ok && vault.store.snapshots == old(vault.store.snapshots)
    {
      ghost var before := vault.store.past;
      hide *;
      JournalIsPermitted(doc, known, journal, vault.store.past, revision);
      if vault.quiet { CheckpointFits(vault.store, journal, doc.manifest.bundle, revision); }
      ok := vault.Write(Checkpoint(journal, revision));
      StandsStill(doc.manifest, known, journal, before, vault.store.past);
    }

    /** Stores one source record unless it is there. */
    method PutSource(n: string, known: map<Name, Version>, journal: Journal, ghost revision: nat, imported: map<string,
                     string>)
      returns (after: map<Name, Version>, stop: Option<Failure>)
      requires Holds(known, journal) && n in doc.manifest.records && !doc.manifest.records[n].Derived?
      requires Synced(known, revision) && (IsMissing(doc.manifest, known, n) ==> n in imported)
      modifies vault
      ensures vault.Extends()
      ensures stop.None? ==>
                && Holds(after, journal) && Synced(after, revision)
                     && SourceKept(doc.manifest, known, after, imported, n)
                && Own(n) in after && SameSources(known, after, Own(n))
      ensures stop.Some? ==>
                || (stop == Some(Conflict(n)) && Own(n) !in known)
                || (stop == Some(GenerationFailed(n)) && doc.manifest.records[n].Generated?)
      ensures vault.quiet ==> stop.None? && vault.store.snapshots == old(vault.store.snapshots)
    {
      hide SharedVault.Valid, Stands, Grown, ValidDocument, Permitted, Fits, Next, RevisionOf, RecordRevision;
      after, stop := known, None;
      var spec := doc.manifest.records[n];
      SourceName(doc, n);
      Reflexive(vault.store.past);
      if Own(n) in known { return; }
      var value: string := if spec.Imported? then imported[n] else "";
      if spec.Generated? {
        var generated := Generate(spec.policy);
        if generated.None? { stop := Some(GenerationFailed(n)); return; }
        value := generated.value;
      }
      ghost var before := vault.store.past;
      NotThere(known, Own(n));
      if vault.quiet { PutFits(vault.store, Own(n), value, 0); }
      var put := vault.Write(Put(Own(n), value, 0));
      if !put { stop := Some(Conflict(n)); return; }
      StandsStill(doc.manifest, known, journal, before, vault.store.past);
      StandsWith(doc.manifest, known, journal, vault.store.past, Own(n), Version(value, 1));
      after := known[Own(n) := Version(value, 1)];
    }

    /** Stores one source record unless it is there, and checkpoints it. */
    method StoreSource(n: string, known: map<Name, Version>, journal: Journal, revision: nat, imported: map<string,
                       string>)
      returns (after: map<Name, Version>, lines: Journal, saved: nat, stop: Option<Failure>)
      requires Holds(known, journal) && n in doc.manifest.records && !doc.manifest.records[n].Derived?
      requires Synced(known, revision) && (IsMissing(doc.manifest, known, n) ==> n in imported)
      modifies vault
      ensures vault.Extends()
      ensures stop.None? ==>
                && Holds(after, lines) && Synced(after, saved)
                && SourceKept(doc.manifest, known, after, imported, n) && SameSources(known, after, Own(n))
                     && Own(n) in after
                && lines == journal.(entries :=
                     journal.entries[n := Entry(doc.manifest.records[n], after[Own(n)].revision, map[])])
                && vault.Accepted(Checkpoint(lines, revision), |old(vault.events)|)
      ensures stop.Some? ==> Blames(doc.manifest, stop.value)
      ensures vault.quiet ==> stop.None? && vault.store.snapshots == old(vault.store.snapshots)
    {
      hide SharedVault.Valid, Stands, Grown, ValidDocument, RevisionOf, SourceKept, SameSources, IsMissing;
      lines, saved := journal, revision;
      after, stop := PutSource(n, known, journal, revision, imported);
      if stop.Some? { return; }
      var spec := doc.manifest.records[n];
      SourceName(doc, n);
      KnownRevision(doc.manifest, after, journal, vault.store.past, Own(n));
      Extended(doc.manifest, after, after, journal, n, Entry(spec, after[Own(n)].revision, map[]), vault.store.past);
      lines := journal.(entries := journal.entries[n := Entry(spec, after[Own(n)].revision, map[])]);
      ghost var middle := vault.store.past;
      var kept := StoreJournal(after, lines, revision);
      GrownTwice(old(vault.store.past), middle, vault.store.past);
      if !kept { stop := Some(CheckpointFailed(n)); }
      saved := revision + 1;
    }

    method StoreSources(names: seq<string>, known: map<Name, Version>, journal: Journal, revision: nat,
                        imported: map<string, string>)
      returns (after: map<Name, Version>, lines: Journal, saved: nat, stop: Option<Failure>)
      requires Holds(known, journal) && Synced(known, revision)
      requires Distinct(names) && forall n :: n in names <==> n in doc.manifest.records
      requires forall n :: IsMissing(doc.manifest, known, n) ==> n in imported
      modifies vault
      ensures vault.Extends()
      ensures stop.None? ==>
                && Holds(after, lines) && Synced(after, saved)
                && SourcesIn(doc.manifest, after) && SourcesKept(doc.manifest, known, after, imported)
      ensures stop.Some? ==> Blames(doc.manifest, stop.value)
      ensures vault.quiet ==> stop.None? && vault.store.snapshots == old(vault.store.snapshots)
    {
      hide SharedVault.Valid, Stands, Grown, ValidDocument, IsDerived, RevisionOf, IsMissing, SourceKept, SameSources;
      hide SoFar, SourcesIn, SourcesKept, Distinct;
      after, lines, saved, stop := known, journal, revision, None;
      Reflexive(vault.store.past);
      NoneSoFar(doc.manifest, known, imported, names);
      for i := 0 to |names|
        invariant vault.Extends() && Holds(after, lines) && Synced(after, saved)
        invariant stop.None? && (vault.quiet ==> vault.store.snapshots == old(vault.store.snapshots))
        invariant SoFar(doc.manifest, known, after, imported, names, i)
      {
        ghost var before, middle, had := old(vault.store.past), vault.store.past, after;
        assert names[i] in names;
        StillMissing(doc.manifest, known, had, imported, names, i);
        if doc.manifest.records[names[i]].Derived? { continue; }
        after, lines, saved, stop := StoreSource(names[i], after, lines, saved, imported);
        GrownTwice(before, middle, vault.store.past);
        if stop.Some? { return; }
        OneMoreSource(doc.manifest, known, had, after, imported, names, i);
      }
      AllKept(doc, known, after, imported, names);
    }

    /** The current revisions of a template's inputs. */
    method InputsOf(i: nat, known: map<Name, Version>, journal: Journal) returns (inputs: map<string, nat>)
      requires Holds(known, journal) && i < |doc.derived| && Evaluated(doc, known, i) && SourcesIn(doc.manifest, known)
      requires IsDerived(doc.manifest, doc.derived[i])
      ensures InputRevisions(doc.manifest, doc.derived[i], known, inputs)
      ensures forall r :: r in inputs ==> r != "" && inputs[r] >= 1
    {
      hide SharedVault.Valid, Stands, Evaluated, SourcesIn, ValidDocument, IsDerived, Inputs;
      inputs := map[];
      var references := Inputs(doc.manifest, doc.derived[i]);
      for k := 0 to |references|
        invariant forall r :: r in inputs ==> r != "" && inputs[r] >= 1 && r in references
        invariant forall r :: r in references[..k] ==>
                    r in doc.manifest.records && Own(r) in known && r in inputs && inputs[r] == known[Own(r)].revision
      {
        assert references[k] in references && references[..k + 1] == references[..k] + [references[k]];
        InputsPresent(doc, known, i, references[k]);
        KnownRevision(doc.manifest, known, journal, vault.store.past, Own(references[k]));
        inputs := inputs[references[k] := known[Own(references[k])].revision];
      }
      assert references[..|references|] == references;
    }

    /** Whether the journal shows the stored record to be its template over these very inputs. */
    method IsCurrent(i: nat, known: map<Name, Version>, journal: Journal, inputs: map<string, nat>)
      returns (current: bool)
      requires Holds(known, journal) && i < |doc.derived| && InputRevisions(doc.manifest, doc.derived[i], known, inputs)
      ensures current ==> FreshRecord(doc.manifest, known, doc.derived[i])
      ensures current <==>
                var n := doc.derived[i];
                && Physical(doc.manifest.bundle, n) in known && n in journal.entries
                && journal.entries[n].revision == known[Physical(doc.manifest.bundle, n)].revision
                && journal.entries[n].inputs == inputs
    {
      hide *;
      current := false;
      var n := doc.derived[i];
      if Physical(doc.manifest.bundle, n) in known && n in journal.entries {
        var entry := journal.entries[n];
        if entry.revision == known[Physical(doc.manifest.bundle, n)].revision {
          StandsNow(known, journal);
          EntryInputs(doc, known, journal, vault.store.past, n);
          current := EqualRevisions(entry.inputs, inputs);
          if current {
            CachedIsFresh(doc.manifest, n, known, journal, inputs, vault.store.past);
          }
        }
      }
    }

    lemma StandsNow(known: map<Name, Version>, journal: Journal)
      requires Holds(known, journal)
      ensures Ready() && vault.Valid() && vault.doc == doc && ValidDocument(doc)
      ensures Stands(doc.manifest, known, journal, vault.store.past)
    {
    }

    /** Expands a derived record that is not known to be current, and stores it when it differs. */
    method Expanded(i: nat, known: map<Name, Version>, journal: Journal, inputs: map<string, nat>, ghost revision: nat)
      returns (after: map<Name, Version>, stop: Option<Failure>)
      requires Holds(known, journal) && Synced(known, revision) && i < |doc.derived| && Evaluated(doc, known, i)
                 && SourcesIn(doc.manifest, known)
      requires InputRevisions(doc.manifest, doc.derived[i], known, inputs)
      requires forall r :: r in inputs ==> r != "" && inputs[r] >= 1
      modifies vault
      ensures vault.Extends()
      ensures stop.None? ==>
                && Own(doc.derived[i]) in after && Evaluated(doc, after, i + 1) && SourcesIn(doc.manifest, after)
                && Holds(after, journal.(entries := journal.entries[doc.derived[i] :=
                     Entry(doc.manifest.records[doc.derived[i]], after[Own(doc.derived[i])].revision, inputs)]))
      ensures stop.None? ==> Synced(after, revision) && SameButFor(known, after, Own(doc.derived[i]))
      ensures stop.Some? ==>
                stop == Some(Conflict(doc.derived[i]))
                  || (stop == Some(TooLong(doc.derived[i])) && TooBig(doc.manifest, doc.derived[i], known))
      ensures stop.None? && FreshRecord(doc.manifest, known, doc.derived[i]) ==> after == known
      ensures vault.quiet ==> vault.store.snapshots == old(vault.store.snapshots) && OnlyTooLong(stop)
    {
      hide Fits, Next, RevisionOf, RecordRevision, SameButFor, TooBig;
      hide SharedVault.Valid, Stands, Grown, Evaluated, SourcesIn, ValidDocument, Permitted, Inputs, InputRevisions,
           FreshRecord, Filled, ValuesOf, Parse;
      after, stop := known, None;
      var m, n := doc.manifest, doc.derived[i];
      Reflexive(vault.store.past);
      NotReadYet(doc, i, i);
      var parsed := ParseTemplate(m.records[n].template);
      var value := Expand(parsed.value.nodes, ValuesOf(m, known));
      if value.None? {
        stop := Some(TooLong(n));
        IsTooBig(doc, i, known);
        return;
      }
      FreshHasValue(m, known, n);
      if Own(n) in known && known[Own(n)].value == value.value {
        ExpandedNow(doc, known, journal, i, inputs, vault.store.past);
        OneKept(doc, known, journal, i, inputs, vault.store.past);
        SameAsIs(known, Own(n));
        return;
      }
      NotThere(known, Own(n));
      SameButOne(known, Own(n), value.value);
      var expected := if Own(n) in known then known[Own(n)].revision else 0;
      WriteIsPermitted(doc, known, journal, i, inputs, vault.store.past);
      ghost var before := vault.store.past;
      if vault.quiet { PutFits(vault.store, Own(n), value.value, expected); }
      var put := vault.Write(Put(Own(n), value.value, expected));
      if !put {
        stop := Some(Conflict(n));
        return;
      }
      StandsStill(m, known, journal, before, vault.store.past);
      after := known[Own(n) := Version(value.value, expected + 1)];
      OneEvaluated(doc, known, journal, i, Version(value.value, expected + 1), inputs, vault.store.past);
    }

    /** Evaluates one derived record, unless the journal shows it to be current, and checkpoints it. */
    method EvaluateOne(i: nat, known: map<Name, Version>, journal: Journal, revision: nat)
      returns (after: map<Name, Version>, lines: Journal, saved: nat, stop: Option<Failure>)
      requires Holds(known, journal) && i < |doc.derived| && Evaluated(doc, known, i) && SourcesIn(doc.manifest, known)
      requires Synced(known, revision)
      modifies vault
      ensures vault.Extends()
      ensures stop.None? ==> Holds(after, lines) && Evaluated(doc, after, i + 1) && SourcesIn(doc.manifest, after)
      ensures stop.None? ==>
                && Synced(after, saved) && SameButFor(known, after, Own(doc.derived[i]))
                && doc.derived[i] in lines.entries && vault.Accepted(Checkpoint(lines, revision), |old(vault.events)|)
      ensures stop.Some? ==>
                stop == Some(Conflict(doc.derived[i])) || stop == Some(CheckpointFailed(doc.derived[i]))
                  || (stop == Some(TooLong(doc.derived[i])) && TooBig(doc.manifest, doc.derived[i], known))
      ensures stop.None? && FreshRecord(doc.manifest, known, doc.derived[i]) ==> after == known
      ensures vault.quiet ==> vault.store.snapshots == old(vault.store.snapshots) && OnlyTooLong(stop)
    {
      hide RevisionOf, SameButFor, TooBig;
      hide SharedVault.Valid, Stands, Grown, Evaluated, SourcesIn, ValidDocument, IsDerived, Inputs, InputRevisions,
           FreshRecord;
      after, lines, saved, stop := known, journal, revision, None;
      var n := doc.derived[i];
      Reflexive(vault.store.past);
      NotReadYet(doc, i, i);
      var inputs := InputsOf(i, known, journal);
      var current := IsCurrent(i, known, journal, inputs);
      if current {
        OneKept(doc, known, journal, i, inputs, vault.store.past);
        FreshIsThere(doc.manifest, known, n);
        SameAsIs(known, Own(n));
      } else {
        after, stop := Expanded(i, known, journal, inputs, revision);
        if stop.Some? { return; }
      }
      lines :=
        journal.(entries := journal.entries[n := Entry(doc.manifest.records[n], after[Own(n)].revision, inputs)]);
      ghost var middle := vault.store.past;
      var kept := StoreJournal(after, lines, revision);
      GrownTwice(old(vault.store.past), middle, vault.store.past);
      if !kept { stop := Some(CheckpointFailed(n)); }
      saved := revision + 1;
    }

    method EvaluateAll(known: map<Name, Version>, journal: Journal, revision: nat)
      returns (after: map<Name, Version>, stop: Option<Failure>)
      requires Holds(known, journal) && SourcesIn(doc.manifest, known) && Synced(known, revision)
      modifies vault
      ensures vault.Extends()
      ensures stop.None? ==> Ready() && Listed(after, vault.store.past) && Fresh(doc, after)
      ensures stop.None? ==>
                SourcesUnmoved(doc.manifest, known, after) && (vault.quiet ==> after == vault.store.records)
      ensures stop.Some? ==> Blames(doc.manifest, stop.value)
      ensures vault.quiet ==> vault.store.snapshots == old(vault.store.snapshots) && OnlyTooLong(stop)
    {
      hide RevisionOf, SameButFor, TooBig, SourcesUnmoved;
      UnmovedAtFirst(doc.manifest, known);
      hide SharedVault.Valid, Stands, Grown, SourcesIn, ValidDocument, FreshRecord, Fresh;
      var lines, saved := journal, revision;
      after, stop := known, None;
      Reflexive(vault.store.past);
      for i := 0 to |doc.derived|
        invariant vault.Extends() && Holds(after, lines) && Synced(after, saved)
        invariant Evaluated(doc, after, i) && SourcesIn(doc.manifest, after)
                    && SourcesUnmoved(doc.manifest, known, after)
        invariant stop.None? && (vault.quiet ==> vault.store.snapshots == old(vault.store.snapshots))
      {
        ghost var before, middle, had := old(vault.store.past), vault.store.past, after;
        after, lines, saved, stop := EvaluateOne(i, after, lines, saved);
        GrownTwice(before, middle, vault.store.past);
        NotReadYet(doc, i, i);
        if stop.Some? { return; }
        StillUnmoved(doc.manifest, known, had, after, doc.derived[i]);
      }
      AllFresh(doc, after);
      NowListed(doc.manifest, after, lines, vault.store.past);
    }

    /** The first record that is no longer at its known revision. */
    method FindMoved(names: seq<string>, known: map<Name, Version>, records: map<Name, Version>)
      returns (moved: Option<string>)
      requires forall n :: n in names <==> n in doc.manifest.records
      ensures moved.None? <==> SameRevisions(doc.manifest, known, records)
      ensures moved.Some? ==>
                exists i ::
                  && 0 <= i < |names| && moved.value == names[i]
                  && RecordRevision(records, Own(names[i])) != RecordRevision(known, Own(names[i]))
                  && forall k :: 0 <= k < i ==>
                       RecordRevision(records, Own(names[k])) == RecordRevision(known, Own(names[k]))
    {
      hide RecordRevision;
      for i := 0 to |names|
        invariant forall k :: 0 <= k < i ==>
                    RecordRevision(records, Own(names[k])) == RecordRevision(known, Own(names[k]))
      {
        if RecordRevision(records, Own(names[i])) != RecordRevision(known, Own(names[i])) {
          assert names[i] in names;
          return Some(names[i]);
        }
      }
      AllSame(doc.manifest, names, known, records);
      return None;
    }

    /** The records once more: a source that changed meanwhile stops the publication. */
    method CheckUnmoved(names: seq<string>, known: map<Name, Version>) returns (stop: Option<Failure>)
      requires Ready() && forall n :: n in names <==> n in doc.manifest.records
      modifies vault
      ensures vault.Extends()
      ensures stop.None? ==> StoodSince(known, |old(vault.run)| - 1)
      ensures stop.Some? ==> Blames(doc.manifest, stop.value) && (stop.value == Unavailable || stop.value.Moved?)
      ensures vault.quiet ==> vault.store == old(vault.store) && (known == vault.store.records ==> stop.None?)
    {
      hide SharedVault.Valid, Grown, ValidDocument, Listed, TrueObjects, SameRevisions;
      var latest := Load();
      if latest.None? { return Some(Unavailable); }
      var moved := FindMoved(names, known, latest.value.0);
      SameAsItself(doc.manifest, known);
      stop := if moved.Some? then Some(Moved(moved.value)) else None;
    }

    /** Describes the known records, keeping the revision evidence of the snapshot before. */
    method BuildSnapshot(names: seq<string>, known: map<Name, Version>, prev: Option<Snapshot>) returns (s: Snapshot)
      requires ValidDocument(doc) && Distinct(names) && forall n :: n in names <==> n in doc.manifest.records
      requires forall n :: n in names ==>
                 Physical(doc.manifest.bundle, n) in known && known[Physical(doc.manifest.bundle, n)].revision >= 1
      ensures Describes(s, doc.manifest, known) && Remembers(prev, s)
    {
      hide *;
      var logicalOf: map<Name, string>, sources: map<string, Spec>, revisions: map<string, nat> := map[], map[], map[];
      var previous: map<string, seq<nat>> := map[];
      NothingMapped(doc.manifest, known, prev);
      for i := 0 to |names|
        invariant Mapped(doc.manifest, known, names[..i], logicalOf, sources, revisions)
        invariant Remembered(prev, revisions, previous)
      {
        var n := names[i];
        assert names[..i + 1] == names[..i] + [n];
        Derivations.NewAt(names, i);
        var current := known[Physical(doc.manifest.bundle, n)].revision;
        var kept := HistoryOf(prev, n, current);
        MapOne(doc.manifest, known, names[..i], n, logicalOf, sources, revisions);
        RememberOne(prev, revisions, previous, n, current, kept);
        logicalOf, sources, revisions :=
          logicalOf[Physical(doc.manifest.bundle, n) := n], sources[n := doc.manifest.records[n]],
            revisions[n := current];
        if kept != [] { previous := previous[n := kept]; }
      }
      assert names[..|names|] == names;
      s := Snapshot(doc.manifest.bundle, doc.manifest, logicalOf, sources, revisions, previous);
      AllMapped(doc, known, names, prev, s);
      DescribesThese(s, doc.manifest, known);
      EvidenceIsRemembered(prev, s);
    }

    lemma DescribesThese(s: Snapshot, m: Manifest, known: map<Name, Version>)
      requires Describes(s, m, known)
      ensures forall n :: n in s.revisions <==> n in m.records
    {
      hide ValidSnapshot;
      assert s.revisions.Keys == m.records.Keys;
    }

    /** Publishes what is known, provided the snapshot read at the start is still the last one. */
    method PublishSnapshot(names: seq<string>, known: map<Name, Version>, objects: Objects)
      returns (stop: Option<Failure>)
      requires Ready() && Listed(known, vault.store.past) && Fresh(doc, known) && StoodSince(known, 0)
      requires Distinct(names) && forall n :: n in names <==> n in doc.manifest.records
      modifies vault
      ensures vault.Extends()
      ensures stop.None? ==>
                exists s ::
                && Describes(s, doc.manifest, known) && Remembers(Payload(objects), s)
                && vault.Accepted(Publish(s, if objects.snapshot.Some? then objects.snapshot.value.revision else 0),
                     |old(vault.events)|)
      ensures stop.None? || stop == Some(NotPublished)
      ensures vault.quiet && ObjectsOf(old(vault.store), doc.manifest.bundle).snapshot == objects.snapshot ==>
                && stop.None? && vault.store.records == old(vault.store.records)
                && exists s ::
                     Describes(s, doc.manifest, known)
                     && Payload(ObjectsOf(vault.store, doc.manifest.bundle)) == Some(s)
    {
      hide SharedVault.Valid, Grown, ValidDocument, Fresh, Listed, Describes, Evidence, Permitted, Fits, Next,
           ObjectsOf, WasReal, SameRevisions, Remembers;
      AllThere(doc, known, vault.store.past);
      var prev := if objects.snapshot.Some? then Some(objects.snapshot.value.payload) else None;
      var expected := if objects.snapshot.Some? then objects.snapshot.value.revision else 0;
      var snapshot := BuildSnapshot(names, known, prev);
      DescribedIsConsistent(doc, known, vault.store.past, snapshot);
      RunEnds();
      ghost var k :| 0 <= k < |vault.run| && SameRevisions(doc.manifest, known, vault.run[k].records);
      DescribedWasReal(doc, known, snapshot, vault.run, k);
      if vault.quiet && ObjectsOf(vault.store, doc.manifest.bundle).snapshot == objects.snapshot {
        DescribedBundle(snapshot, doc.manifest, known);
        PublishFits(vault.store, snapshot, doc.manifest.bundle, objects);
      }
      var put := vault.Write(Publish(snapshot, expected));
      stop := if put then None else Some(NotPublished);
    }

    lemma RunEnds()
      requires Ready()
      ensures |vault.run| == |vault.events| + 1
    {
    }

    /** The status of what was listed; "prepared" is only reported of values that were fresh then. */
    method StatusNow(records: map<Name, Version>, objects: Objects, ghost from: int) returns (status: Status)
      requires Ready() && Listed(records, vault.store.past)
                 && TrueObjects(objects, doc.manifest.bundle, vault.store.past)
      requires exists k :: 0 <= k && from <= k < |vault.run| && vault.run[k].records == records
      ensures status == StatusOf(doc, records, Payload(objects))
      ensures status.overall == Prepared ==> vault.FreshSince(from) && Fresh(doc, records)
    {
      hide SharedVault.Valid, ValidDocument, Listed, ConsistentCut, TrueJournal, Fresh, StatusOf;
      var snapshot := if objects.snapshot.Some? then Some(objects.snapshot.value.payload) else None;
      status := CalculateStatus(doc, records, snapshot);
      if status.overall == Prepared {
        PreparedIsFresh(doc, records, snapshot, vault.store.past);
      }
    }

    /** The stored journal, or a new one, which replaces one of another manifest at once. */
    method StartJournal(known: map<Name, Version>, objects: Objects)
      returns (journal: Journal, revision: nat, kept: bool)
      requires Ready() && Listed(known, vault.store.past) && TrueObjects(objects, doc.manifest.bundle, vault.store.past)
      requires vault.quiet ==> known == vault.store.records && objects == ObjectsOf(vault.store, doc.manifest.bundle)
      modifies vault
      ensures vault.Extends()
      ensures kept ==> Holds(known, journal) && Synced(known, revision)
      ensures kept && objects.journal.Some? && objects.journal.value.payload.digest == doc.manifest ==>
                journal == objects.journal.value.payload && revision == objects.journal.value.revision
      ensures objects.journal.None? ==> kept && journal == NewJournal(doc) && revision == 0
      ensures kept && objects.journal.Some? && objects.journal.value.payload.digest != doc.manifest ==>
                && journal == NewJournal(doc) && revision == objects.journal.value.revision + 1
                && vault.Accepted(Checkpoint(journal, objects.journal.value.revision), |old(vault.events)|)
      ensures vault.quiet ==>
                kept && vault.store.snapshots == old(vault.store.snapshots)
                && vault.store.records == old(vault.store.records)
    {
      hide SharedVault.Valid, Grown, ValidDocument, Listed, TrueJournal, ConsistentCut, RevisionOf;
      Reflexive(vault.store.past);
      journal, revision, kept := NewJournal(doc), 0, true;
      if objects.journal.Some? { journal, revision := objects.journal.value.payload, objects.journal.value.revision; }
      SavedRevision(vault.store, doc.manifest.bundle, objects);
      NewJournalStands(doc, known, vault.store.past);
      if journal.digest != doc.manifest {
        journal := NewJournal(doc);
        kept := StoreJournal(known, journal, revision);
        revision := revision + 1;
      }
    }

    /** Stores what is missing, evaluates what is derived, and publishes the cut it reached. */
    method Advance(known: map<Name, Version>, objects: Objects, imports: Option<seq<(string, string)>>)
      returns (stop: Option<Failure>, ghost imported: map<string, string>)
      requires Ready() && Listed(known, vault.store.past) && TrueObjects(objects, doc.manifest.bundle, vault.store.past)
      requires vault.quiet ==> known == vault.store.records && objects == ObjectsOf(vault.store, doc.manifest.bundle)
      modifies vault
      ensures vault.Extends()
      ensures stop.None? ==> Supplied(doc.manifest, known, imports) && GivenBy(doc.manifest, known, imports, imported)
      ensures stop.Some? ==> Blames(doc.manifest, stop.value)
      ensures vault.quiet ==>
                && (stop == Some(MissingInputs) <==> !Supplied(doc.manifest, known, imports))
                && (Supplied(doc.manifest, known, imports) ==> Finished(known, imported, stop))
    {
      hide SharedVault.Valid, Grown, ValidDocument, Listed, TrueJournal, ConsistentCut, Fresh, SourcesIn;
      hide Stands, IsMissing, Supplied, ExactImports, GivenBy, TrueObjects, TooBig, SourcesKept, Describes, Payload,
           ObjectsOf, RevisionOf;
      imported := map[];
      var names := Derivations.SortedNames(doc.manifest.records.Keys);
      ghost var first, s0 := vault.store.past, vault.store;
      var journal, revision, kept := StartJournal(known, objects);
      if !kept { return Some(CheckpointFailed("")), imported; }
      SameSnapshot(s0, vault.store, doc.manifest.bundle);
      ghost var second := vault.store.past;
      var missing := MissingImports(doc.manifest, known, names);
      MissingOnes(doc.manifest, known, names, missing);
      SuppliedExactly(doc.manifest, known, imports, missing);
      var read := ReadImports(imports, missing);
      if read.None? { return Some(MissingInputs), imported; }
      imported := read.value;
      ReadGives(doc.manifest, known, imports, missing, imported);
      stop := Complete(names, known, journal, revision, read.value, objects);
      GrownTwice(first, second, vault.store.past);
    }

    /** How an undisturbed operation ends once the imports are read. */
    ghost predicate Finished(known: map<Name, Version>, imported: map<string, string>, stop: Option<Failure>)
      reads vault
    {
      && OnlyTooLong(stop)
      && (stop.None? ==>
            && SourcesKept(doc.manifest, known, vault.store.records, imported)
            && exists s ::
                 Describes(s, doc.manifest, vault.store.records)
                 && Payload(ObjectsOf(vault.store, doc.manifest.bundle)) == Some(s))
    }

    method Complete(names: seq<string>, known: map<Name, Version>, journal: Journal, revision: nat,
                    imported: map<string, string>, objects: Objects)
      returns (stop: Option<Failure>)
      requires Holds(known, journal) && Distinct(names) && forall n :: n in names <==> n in doc.manifest.records
      requires forall n :: IsMissing(doc.manifest, known, n) ==> n in imported
      requires Synced(known, revision)
      requires vault.quiet ==> ObjectsOf(vault.store, doc.manifest.bundle).snapshot == objects.snapshot
      modifies vault
      ensures vault.Extends()
      ensures stop.Some? ==> Blames(doc.manifest, stop.value)
      ensures vault.quiet ==> Finished(known, imported, stop)
    {
      hide SharedVault.Valid, Grown, ValidDocument, Listed, Stands, Fresh, SourcesIn, Distinct;
      hide IsMissing, RevisionOf, SourcesKept, SourcesUnmoved, ObjectsOf, Describes, TooBig, SameRevisions, Payload;
      ghost var p0, s0 := vault.store.past, vault.store;
      var stored, lines, saved;
      stored, lines, saved, stop := StoreSources(names, known, journal, revision, imported);
      if stop.Some? { return; }
      ghost var p1 := vault.store.past;
      var all;
      all, stop := EvaluateAll(stored, lines, saved);
      ghost var p2 := vault.store.past;
      GrownTwice(p0, p1, p2);
      if stop.Some? { return; }
      KeptAndUnmoved(doc.manifest, known, stored, all, imported);
      stop := CheckUnmoved(names, all);
      ghost var p3 := vault.store.past;
      GrownTwice(p0, p2, p3);
      if stop.Some? { return; }
      ListedStill(all, p2, p3);
      SameSnapshot(s0, vault.store, doc.manifest.bundle);
      stop := PublishSnapshot(names, all, objects);
      GrownTwice(p0, p3, vault.store.past);
    }

    /**
     * The whole operation. Whatever happens, its own writes are permitted ones; and when it reports
     * success, every derived record was its template over the then current inputs at some moment
     * of the call. Left alone, it fails only when the missing imports are not supplied exactly or an
     * expansion is too long; otherwise it leaves a bundle whose derived records are fresh, whose
     * records are all recorded, and whose sources are the old or the supplied ones; and it changes
     * nothing in a bundle that is already prepared.
     */
    method Prepare(imports: Option<seq<(string, string)>>) returns (r: Result<Status, Failure>)
      requires Ready()
      modifies vault
      ensures vault.Extends()
      ensures r.Ok? ==> r.value.overall == Prepared && vault.FreshSince(|old(vault.run)| - 1)
      ensures r.Ok? ==>
                exists k ::
                  0 <= k && |old(vault.run)| - 1 <= k < |vault.run| && ReadsThroughout(doc, vault.run[k].records)
      ensures r.Err? ==> Blames(doc.manifest, r.error)
      ensures vault.quiet ==>
                (r == Err(MissingInputs) <==> !Supplied(doc.manifest, old(vault.store.records), imports))
      ensures vault.quiet && r.Err? && r.error != MissingInputs ==>
                r.error.TooLong? && TooBig(doc.manifest, r.error.name, vault.store.records)
      ensures vault.quiet && r.Ok? ==>
                && Fresh(doc, vault.store.records) && ReadsThroughout(doc, vault.store.records)
                && AllRecorded(doc, vault.store)
                && exists imported :: && GivenBy(doc.manifest, old(vault.store.records), imports, imported)
                                      && SourcesKept(doc.manifest, old(vault.store.records), vault.store.records,
                                           imported)
      ensures vault.quiet && AllRecorded(doc, old(vault.store)) ==> r.Ok? && vault.store == old(vault.store)
    {
      hide SharedVault.Valid, Grown, ValidDocument, Listed, Fresh, TrueObjects, IsRun;
      hide Supplied, SourcesKept, TooBig, ObjectsOf, Describes, Payload, StatusOf, GivenBy, AllRecorded,
           ReadsThroughout;
      ghost var p0, s0 := vault.store.past, vault.store;
      var loaded := Load();
      if loaded.None? { return Err(Unavailable); }
      var status := StatusNow(loaded.value.0, loaded.value.1, |old(vault.run)| - 1);
      if vault.quiet { RecordedExactly(doc, vault.store); }
      if status.overall == Prepared {
        if vault.quiet { PreparedIsSupplied(doc, vault.store, imports); }
        FreshIsRead(|old(vault.run)| - 1);
        return Ok(status);
      }
      ghost var p1 := vault.store.past;
      ghost var imported;
      var stop;
      stop, imported := Advance(loaded.value.0, loaded.value.1, imports);
      ghost var p2 := vault.store.past;
      GrownTwice(p0, p1, p2);
      if stop.Some? { return Err(stop.value); }
      ghost var from := |vault.run| - 1;
      if vault.quiet { DescribedIsRecorded(doc, vault.store); }
      var again := Load();
      GrownTwice(p0, p2, vault.store.past);
      if again.None? { return Err(Unavailable); }
      status := StatusNow(again.value.0, again.value.1, from);
      if status.overall != Prepared { return Err(ChangedMeanwhile); }
      assert vault.FreshSince(|old(vault.run)| - 1);
      FreshIsRead(|old(vault.run)| - 1);
      return Ok(status);
    }

    lemma FreshIsRead(from: int)
      requires Ready() && vault.FreshSince(from)
      ensures exists k :: 0 <= k && from <= k < |vault.run| && ReadsThroughout(doc, vault.run[k].records)
      ensures Fresh(doc, vault.store.records) ==> ReadsThroughout(doc, vault.store.records)
    {
      hide SharedVault.Valid, Fresh, ReadsThroughout, ValidDocument;
      var k :| 0 <= k && from <= k < |vault.run| && Fresh(doc, vault.run[k].records);
      FreshExactly(doc, vault.run[k].records);
      FreshExactly(doc, vault.store.records);
    }
  }
}

/** What holds between the steps of the prepare operation. */
module PrepareFacts {
  import opened Basics
  import opened SecretTemplate
  import opened Bundle
  import opened BundleStatus
  import opened BundlePrepare
  import opened Ordering
  import opened PrepareInputs
  import opened PrepareSnapshot
  import Derivations

  // ----- What the local copy of the vault stands for -------------------------------------------------

  /** The records as far as known are real revisions, and the journal may be trusted. */
  predicate Stands(m: Manifest, known: map<Name, Version>, journal: Journal, past: Past) {
    Listed(known, past) && TrueJournal(journal, past) && journal.digest == m
  }

  lemma StandsStill(m: Manifest, known: map<Name, Version>, journal: Journal, p: Past, q: Past)
    requires Stands(m, known, journal, p) && Grown(p, q)
    ensures Stands(m, known, journal, q)
  {
    hide TrueJournal;
    JournalStaysTrue(journal, p, q);
  }

  predicate SourcesIn(m: Manifest, known: map<Name, Version>) {
    forall n :: n in m.records && !IsDerived(m, n) ==> Physical(m.bundle, n) in known
  }

  /** The first `i` derived records are their templates over the known records. */
  predicate Evaluated(doc: Document, known: map<Name, Version>, i: nat)
    requires i <= |doc.derived|
  {
    forall k :: 0 <= k < i ==> FreshRecord(doc.manifest, known, doc.derived[k])
  }

  /** The revisions of exactly a template's inputs. */
  predicate InputRevisions(m: Manifest, n: string, known: map<Name, Version>, inputs: map<string, nat>) {
    && IsDerived(m, n)
    && (forall ref :: ref in Inputs(m, n) ==>
          ref in m.records && Physical(m.bundle, ref) in known && ref in inputs
            && inputs[ref] == known[Physical(m.bundle, ref)].revision)
    && forall ref :: ref in inputs ==> ref in Inputs(m, n)
  }

  lemma InputsPresent(doc: Document, known: map<Name, Version>, i: nat, ref: string)
    requires ValidDocument(doc) && i < |doc.derived| && Evaluated(doc, known, i) && SourcesIn(doc.manifest, known)
    requires IsDerived(doc.manifest, doc.derived[i]) && ref in Inputs(doc.manifest, doc.derived[i])
    ensures ref in doc.manifest.records && Physical(doc.manifest.bundle, ref) in known && ref != ""
  {
    DocumentIsOrdered(doc);
    assert ref in doc.manifest.records;
    assert "" !in doc.manifest.records;
    hide ValidDocument, Inputs, IsDerived;
    if IsDerived(doc.manifest, ref) {
      var k :| 0 <= k < i && doc.derived[k] == ref;
      assert FreshRecord(doc.manifest, known, doc.derived[k]);
    }
  }

  lemma OneValue(m: Manifest, n: string, known: map<Name, Version>, inputs: map<string, nat>, past: Past, ref: string)
    requires Listed(known, past) && InputRevisions(m, n, known, inputs) && ref in Inputs(m, n)
    ensures ref in inputs && (Physical(m.bundle, ref), inputs[ref]) in past && Physical(m.bundle, ref) in known
    ensures var at := ValuesAt(m.bundle, inputs, past);
            ref in at && ref in ValuesOf(m, known) && at[ref] == ValuesOf(m, known)[ref]
  {
    hide IsDerived, Inputs;
  }

  lemma ValuesMatch(m: Manifest, n: string, known: map<Name, Version>, inputs: map<string, nat>, past: Past)
    requires Listed(known, past) && InputRevisions(m, n, known, inputs)
    ensures IsDerived(m, n)
              && Filled(Nodes(m, n), ValuesAt(m.bundle, inputs, past)) == Filled(Nodes(m, n), ValuesOf(m, known))
    ensures forall ref :: ref in Inputs(m, n) ==>
              ref in inputs && (Physical(m.bundle, ref), inputs[ref]) in past && Physical(m.bundle, ref) in known
  {
    assert IsDerived(m, n);
    hide *;
    var at, now := ValuesAt(m.bundle, inputs, past), ValuesOf(m, known);
    forall ref | ref in Inputs(m, n)
      ensures ref in inputs && (Physical(m.bundle, ref), inputs[ref]) in past && Physical(m.bundle, ref) in known
      ensures ref in at && ref in now && at[ref] == now[ref]
    {
      OneValue(m, n, known, inputs, past, ref);
    }
    InputsAreReferences(m, n);
    Agreeing(Inputs(m, n), at, now);
    FilledAgrees(Nodes(m, n), at, now);
  }

  /** The shortcut is right: an unchanged record with unchanged inputs need not be expanded again. */
  lemma CachedIsFresh(m: Manifest, n: string, known: map<Name, Version>, journal: Journal, inputs: map<string, nat>,
                      past: Past)
    requires Stands(m, known, journal, past) && InputRevisions(m, n, known, inputs)
    requires n in journal.entries && Physical(m.bundle, n) in known
    requires journal.entries[n].revision == known[Physical(m.bundle, n)].revision && journal.entries[n].inputs == inputs
    ensures FreshRecord(m, known, n)
  {
    assert Follows(m, n, journal.entries[n].revision, inputs, past);
    ValuesMatch(m, n, known, inputs, past);
    assert past[(Physical(m.bundle, n), known[Physical(m.bundle, n)].revision)] == known[Physical(m.bundle, n)].value;
    hide IsDerived, Inputs, Nodes;
  }

  lemma ExpandedIsFresh(m: Manifest, n: string, known: map<Name, Version>, inputs: map<string, nat>, past: Past)
    requires Listed(known, past) && InputRevisions(m, n, known, inputs) && Physical(m.bundle, n) in known
    requires known[Physical(m.bundle, n)].value == Filled(Nodes(m, n), ValuesOf(m, known))
    ensures FreshRecord(m, known, n)
    ensures Follows(m, n, known[Physical(m.bundle, n)].revision, inputs, past)
  {
    ValuesMatch(m, n, known, inputs, past);
    hide Inputs, Nodes;
  }

  lemma ExpansionIsPermitted(m: Manifest, n: string, known: map<Name, Version>, inputs: map<string, nat>, past: Past)
    requires Listed(known, past) && InputRevisions(m, n, known, inputs)
    ensures Expansion(m, n, past, Filled(Nodes(m, n), ValuesOf(m, known)))
  {
    ValuesMatch(m, n, known, inputs, past);
    assert ExpandsTo(m, n, inputs, past, Filled(Nodes(m, n), ValuesOf(m, known)));
  }

  /** Storing a record changes nothing for the templates that do not read it. */
  lemma OthersStayFresh(m: Manifest, n: string, known: map<Name, Version>, changed: string, v: Version)
    requires FreshRecord(m, known, n) && n != changed && (IsDerived(m, n) ==> changed !in Inputs(m, n))
    requires IsDerived(m, n) ==> forall ref :: ref in Inputs(m, n) ==> ref in m.records
    ensures FreshRecord(m, known[Physical(m.bundle, changed) := v], n)
  {
    var after := known[Physical(m.bundle, changed) := v];
    if IsDerived(m, n) {
      assert AgreeOn(Inputs(m, n), ValuesOf(m, known), ValuesOf(m, after));
      InputsAreReferences(m, n);
      FilledAgrees(Nodes(m, n), ValuesOf(m, known), ValuesOf(m, after));
    }
  }

  lemma SameInputs(m: Manifest, n: string, known: map<Name, Version>, changed: string, v: Version, inputs: map<string,
                   nat>)
    requires InputRevisions(m, n, known, inputs) && changed !in Inputs(m, n)
    ensures InputRevisions(m, n, known[Physical(m.bundle, changed) := v], inputs)
    ensures Filled(Nodes(m, n), ValuesOf(m, known[Physical(m.bundle, changed) := v])) == Filled(Nodes(m, n),
              ValuesOf(m, known))
  {
    var after := known[Physical(m.bundle, changed) := v];
    assert AgreeOn(Inputs(m, n), ValuesOf(m, after), ValuesOf(m, known));
    InputsAreReferences(m, n);
    FilledAgrees(Nodes(m, n), ValuesOf(m, after), ValuesOf(m, known));
  }

  /** No record derived up to the `i`th reads the `i`th. */
  lemma NotReadYet(doc: Document, k: nat, i: nat)
    requires ValidDocument(doc) && k <= i < |doc.derived|
    ensures IsDerived(doc.manifest, doc.derived[k]) && doc.derived[k] in doc.manifest.records && doc.derived[k] != ""
    ensures doc.derived[i] !in Inputs(doc.manifest, doc.derived[k])
    ensures forall ref :: ref in Inputs(doc.manifest, doc.derived[k]) ==> ref in doc.manifest.records
    ensures k < i ==> doc.derived[k] != doc.derived[i]
  {
    DocumentIsOrdered(doc);
    assert doc.derived[k] in doc.derived;
    InputsComeFirstOf(doc, k, i);
  }

  lemma OneStaysFresh(doc: Document, known: map<Name, Version>, k: nat, i: nat, v: Version)
    requires ValidDocument(doc) && k < i < |doc.derived| && FreshRecord(doc.manifest, known, doc.derived[k])
    ensures FreshRecord(doc.manifest, known[Physical(doc.manifest.bundle, doc.derived[i]) := v], doc.derived[k])
  {
    hide *;
    NotReadYet(doc, k, i);
    OthersStayFresh(doc.manifest, doc.derived[k], known, doc.derived[i], v);
  }

  lemma EvaluatedNext(doc: Document, known: map<Name, Version>, i: nat, v: Version)
    requires ValidDocument(doc) && i < |doc.derived| && Evaluated(doc, known, i)
    requires FreshRecord(doc.manifest, known[Physical(doc.manifest.bundle, doc.derived[i]) := v], doc.derived[i])
    ensures Evaluated(doc, known[Physical(doc.manifest.bundle, doc.derived[i]) := v], i + 1)
  {
    hide ValidDocument, FreshRecord;
    forall k | 0 <= k < i
      ensures FreshRecord(doc.manifest, known[Physical(doc.manifest.bundle, doc.derived[i]) := v], doc.derived[k])
    {
      OneStaysFresh(doc, known, k, i, v);
    }
  }

  lemma AllFresh(doc: Document, known: map<Name, Version>)
    requires ValidDocument(doc) && SourcesIn(doc.manifest, known) && Evaluated(doc, known, |doc.derived|)
    ensures Fresh(doc, known)
  {
    DocumentIsOrdered(doc);
    hide ValidDocument;
    forall n | n in doc.manifest.records ensures FreshRecord(doc.manifest, known, n) {
      if IsDerived(doc.manifest, n) {
        var k :| 0 <= k < |doc.derived| && doc.derived[k] == n;
        assert FreshRecord(doc.manifest, known, doc.derived[k]);
      }
    }
  }

  /** A journal extended with one more true line. */
  lemma JournalWith(j: Journal, n: string, e: Entry, past: Past)
    requires TrueJournal(j, past) && n != "" && e.revision >= 1
    requires forall i :: i in e.inputs ==> i != "" && e.inputs[i] >= 1
    requires IsDerived(j.digest, n) ==> Follows(j.digest, n, e.revision, e.inputs, past)
    ensures TrueJournal(j.(entries := j.entries[n := e]), past)
  {
    hide Follows, IsDerived;
  }

  lemma ListedStill(records: map<Name, Version>, p: Past, q: Past)
    requires Listed(records, p) && Grown(p, q)
    ensures Listed(records, q)
  {
  }

  /** What the journal and the records are once one more derived record is known. */
  lemma OneEvaluated(doc: Document, known: map<Name, Version>, journal: Journal, i: nat, v: Version,
                     inputs: map<string, nat>, past: Past)
    requires ValidDocument(doc) && i < |doc.derived| && Evaluated(doc, known, i)
               && Stands(doc.manifest, known, journal, past)
    requires SourcesIn(doc.manifest, known) && InputRevisions(doc.manifest, doc.derived[i], known, inputs)
    requires (forall r :: r in inputs ==> r != "" && inputs[r] >= 1)
    requires var name := Physical(doc.manifest.bundle, doc.derived[i]);
             v.revision >= 1 && (name, v.revision) in past && past[(name, v.revision)] == v.value
    requires v.value == Filled(Nodes(doc.manifest, doc.derived[i]), ValuesOf(doc.manifest, known))
    ensures var n := doc.derived[i];
            var after := known[Physical(doc.manifest.bundle, n) := v];
            && Evaluated(doc, after, i + 1) && SourcesIn(doc.manifest, after)
            && Stands(doc.manifest, after,
                 journal.(entries := journal.entries[n := Entry(doc.manifest.records[n], v.revision, inputs)]), past)
  {
    var m, n := doc.manifest, doc.derived[i];
    var after := known[Physical(m.bundle, n) := v];
    hide *;
    NotReadYet(doc, i, i);
    ListedWith(m, known, journal, past, Physical(m.bundle, n), v);
    SameInputs(m, n, known, n, v, inputs);
    ExpandedIsFresh(m, n, after, inputs, past);
    EvaluatedNext(doc, known, i, v);
    StillIn(m, known, n, v);
    Extended(m, known, after, journal, n, Entry(m.records[n], v.revision, inputs), past);
  }

  lemma ListedWith(m: Manifest, known: map<Name, Version>, journal: Journal, past: Past, name: Name, v: Version)
    requires Stands(m, known, journal, past)
    requires v.revision >= 1 && (name, v.revision) in past && past[(name, v.revision)] == v.value
    ensures Listed(known[name := v], past)
  {
    hide TrueJournal;
  }

  lemma StillIn(m: Manifest, known: map<Name, Version>, n: string, v: Version)
    requires SourcesIn(m, known)
    ensures SourcesIn(m, known[Physical(m.bundle, n) := v])
  {
  }

  lemma Extended(m: Manifest, known: map<Name, Version>, after: map<Name, Version>, journal: Journal, n: string,
                 e: Entry, past: Past)
    requires Stands(m, known, journal, past) && Listed(after, past) && n != "" && e.revision >= 1
    requires forall i :: i in e.inputs ==> i != "" && e.inputs[i] >= 1
    requires IsDerived(m, n) ==> Follows(m, n, e.revision, e.inputs, past)
    ensures Stands(m, after, journal.(entries := journal.entries[n := e]), past)
  {
    hide TrueJournal, Follows, IsDerived, Listed;
    JournalWith(journal, n, e, past);
  }

  /** An unchanged derived record may be checkpointed as it is. */
  lemma OneKept(doc: Document, known: map<Name, Version>, journal: Journal, i: nat, inputs: map<string, nat>,
                past: Past)
    requires ValidDocument(doc) && i < |doc.derived| && Evaluated(doc, known, i)
               && Stands(doc.manifest, known, journal, past)
    requires SourcesIn(doc.manifest, known) && InputRevisions(doc.manifest, doc.derived[i], known, inputs)
    requires (forall r :: r in inputs ==> r != "" && inputs[r] >= 1)
    requires FreshRecord(doc.manifest, known, doc.derived[i])
    ensures var n := doc.derived[i];
            var rev := known[Physical(doc.manifest.bundle, n)].revision;
            && Evaluated(doc, known, i + 1)
            && Stands(doc.manifest, known,
                 journal.(entries := journal.entries[n := Entry(doc.manifest.records[n], rev, inputs)]), past)
  {
    var name := Physical(doc.manifest.bundle, doc.derived[i]);
    assert known[name := known[name]] == known;
    assert known[name].value == Filled(Nodes(doc.manifest, doc.derived[i]), ValuesOf(doc.manifest, known)) by {
      assert IsDerived(doc.manifest, doc.derived[i]);
    }
    assert known[name].revision >= 1 && (name, known[name].revision) in past
      && past[(name, known[name].revision)] == known[name].value;
    hide *;
    OneEvaluated(doc, known, journal, i, known[name], inputs, past);
  }

  function NewJournal(doc: Document): Journal { Journal(doc.manifest.bundle, doc.manifest, map[]) }

  lemma NewJournalStands(doc: Document, known: map<Name, Version>, past: Past)
    requires ValidDocument(doc) && Listed(known, past)
    ensures Stands(doc.manifest, known, NewJournal(doc), past)
  {
  }

  lemma KnownRevision(m: Manifest, known: map<Name, Version>, journal: Journal, past: Past, name: Name)
    requires Stands(m, known, journal, past) && name in known
    ensures known[name].revision >= 1 && (name, known[name].revision) in past
              && past[(name, known[name].revision)] == known[name].value
    ensures Listed(known, past)
  {
  }

  lemma NowListed(m: Manifest, known: map<Name, Version>, journal: Journal, past: Past)
    requires Stands(m, known, journal, past)
    ensures Listed(known, past)
  {
  }

  lemma StandsWith(m: Manifest, known: map<Name, Version>, journal: Journal, past: Past, name: Name, v: Version)
    requires Stands(m, known, journal, past)
    requires v.revision >= 1 && (name, v.revision) in past && past[(name, v.revision)] == v.value
    ensures Stands(m, known[name := v], journal, past)
  {
    hide TrueJournal;
  }

  lemma EntryInputs(doc: Document, known: map<Name, Version>, journal: Journal, past: Past, n: string)
    requires n in journal.entries
    ensures Stands(doc.manifest, known, journal, past) ==> forall r :: r in journal.entries[n].inputs ==>
              journal.entries[n].inputs[r] >= 1
  {
  }

  lemma FreshIsThere(m: Manifest, known: map<Name, Version>, n: string)
    requires FreshRecord(m, known, n)
    ensures Physical(m.bundle, n) in known
  {
  }

  lemma FreshHasValue(m: Manifest, known: map<Name, Version>, n: string)
    requires IsDerived(m, n)
    ensures FreshRecord(m, known, n) ==>
              && Physical(m.bundle, n) in known
              && known[Physical(m.bundle, n)].value == Filled(Nodes(m, n), ValuesOf(m, known))
  {
  }

  lemma ExpandedNow(doc: Document, known: map<Name, Version>, journal: Journal, i: nat, inputs: map<string, nat>,
                    past: Past)
    requires Stands(doc.manifest, known, journal, past) && i < |doc.derived|
    requires InputRevisions(doc.manifest, doc.derived[i], known, inputs) && IsDerived(doc.manifest, doc.derived[i])
    requires Physical(doc.manifest.bundle, doc.derived[i]) in known
    requires known[Physical(doc.manifest.bundle, doc.derived[i])].value ==
             Filled(Nodes(doc.manifest, doc.derived[i]), ValuesOf(doc.manifest, known))
    ensures FreshRecord(doc.manifest, known, doc.derived[i])
  {
    KnownRevision(doc.manifest, known, journal, past, Physical(doc.manifest.bundle, doc.derived[i]));
    hide *;
    ExpandedIsFresh(doc.manifest, doc.derived[i], known, inputs, past);
  }

  lemma JournalIsPermitted(doc: Document, known: map<Name, Version>, journal: Journal, past: Past, revision: nat)
    requires Stands(doc.manifest, known, journal, past)
    ensures Permitted(doc, past, Checkpoint(journal, revision)) && journal.bundle == doc.manifest.bundle
  {
    hide Follows, IsDerived;
  }

  lemma WriteIsPermitted(doc: Document, known: map<Name, Version>, journal: Journal, i: nat, inputs: map<string, nat>,
                         past: Past)
    requires ValidDocument(doc) && Stands(doc.manifest, known, journal, past) && i < |doc.derived|
    requires InputRevisions(doc.manifest, doc.derived[i], known, inputs) && IsDerived(doc.manifest, doc.derived[i])
    ensures var name := Physical(doc.manifest.bundle, doc.derived[i]);
            var value := Filled(Nodes(doc.manifest, doc.derived[i]), ValuesOf(doc.manifest, known));
            && (name !in known ==> Permitted(doc, past, Put(name, value, 0)))
            && (name in known && known[name].value != value ==>
                 Permitted(doc, past, Put(name, value, known[name].revision)))
  {
    NotReadYet(doc, i, i);
    assert Listed(known, past);
    hide ValidDocument, IsDerived, Inputs, Nodes;
    ExpansionIsPermitted(doc.manifest, doc.derived[i], known, inputs, past);
  }

  lemma DerivedOrNot(doc: Document, n: string)
    requires ValidDocument(doc) && n in doc.manifest.records
    ensures IsDerived(doc.manifest, n) <==> doc.manifest.records[n].Derived?
  {
  }

  lemma SourceName(doc: Document, n: string)
    requires ValidDocument(doc) && n in doc.manifest.records && !doc.manifest.records[n].Derived?
    ensures n != "" && !IsDerived(doc.manifest, n)
    ensures forall past, value :: Permitted(doc, past, Put(Physical(doc.manifest.bundle, n), value, 0))
  {
  }

  // ----- What becomes of the sources -----------------------------------------------------------------

  /** Sources that are there stay as they are; an import that is not is stored as it was supplied. */
  predicate SourceKept(m: Manifest, known: map<Name, Version>, after: map<Name, Version>, imported: map<string, string>,
                       n: string) {
    var name := Physical(m.bundle, n);
    && name in after && (name in known ==> after[name] == known[name])
    && (IsMissing(m, known, n) ==> n in imported && after[name] == Version(imported[n], 1))
  }

  ghost predicate SourcesKept(m: Manifest, known: map<Name, Version>, after: map<Name, Version>, imported: map<string,
                              string>) {
    forall n :: n in m.records && !IsDerived(m, n) ==> SourceKept(m, known, after, imported, n)
  }

  predicate SameSources(known: map<Name, Version>, after: map<Name, Version>, name: Name) {
    after.Keys == known.Keys + {name} && forall k :: k in known ==> after[k] == known[k]
  }

  /** What the loop over the first `i` names has done to the records. */
  ghost predicate SoFar(m: Manifest, known: map<Name, Version>, after: map<Name, Version>,
                        imported: map<string, string>, names: seq<string>, i: int) {
    && 0 <= i <= |names| && (forall k :: k in known ==> k in after && after[k] == known[k])
    && (forall k :: k in after && k !in known ==> exists j :: 0 <= j < i && k == Physical(m.bundle, names[j]))
    && forall k :: 0 <= k < i && names[k] in m.records && !m.records[names[k]].Derived? ==>
         SourceKept(m, known, after, imported, names[k])
  }

  lemma NoneSoFar(m: Manifest, known: map<Name, Version>, imported: map<string, string>, names: seq<string>)
    ensures SoFar(m, known, known, imported, names, 0)
  {
  }

  lemma StillMissing(m: Manifest, known: map<Name, Version>, after: map<Name, Version>,
                     imported: map<string, string>, names: seq<string>, i: nat)
    requires SoFar(m, known, after, imported, names, i) && i < |names| && names[i] in m.records
    ensures IsMissing(m, after, names[i]) ==> IsMissing(m, known, names[i])
    ensures m.records[names[i]].Derived? ==> SoFar(m, known, after, imported, names, i + 1)
  {
    hide SourceKept;
    forall k | k in after && k !in known ensures exists j :: 0 <= j < i + 1 && k == Physical(m.bundle, names[j]) {
      var j :| 0 <= j < i && k == Physical(m.bundle, names[j]);
    }
  }

  lemma KeptSince(m: Manifest, known: map<Name, Version>, had: map<Name, Version>, after: map<Name, Version>,
                  imported: map<string, string>, n: string)
    requires forall k :: k in known ==> k in had && had[k] == known[k]
    requires Physical(m.bundle, n) in had ==> Physical(m.bundle, n) in known
    requires SourceKept(m, had, after, imported, n)
    ensures SourceKept(m, known, after, imported, n)
  {
  }

  lemma KeptLater(m: Manifest, known: map<Name, Version>, had: map<Name, Version>, after: map<Name, Version>,
                  imported: map<string, string>, n: string)
    requires SourceKept(m, known, had, imported, n) && forall k :: k in had ==> k in after && after[k] == had[k]
    ensures SourceKept(m, known, after, imported, n)
  {
  }

  /** Names are distinct, so what an earlier source is stored as does not change later. */
  lemma OneMoreSource(m: Manifest, known: map<Name, Version>, had: map<Name, Version>, after: map<Name, Version>,
                imported: map<string, string>, names: seq<string>, i: nat)
    requires Distinct(names) && SoFar(m, known, had, imported, names, i) && i < |names|
    requires SourceKept(m, had, after, imported, names[i]) && SameSources(had, after, Physical(m.bundle, names[i]))
    ensures SoFar(m, known, after, imported, names, i + 1)
  {
    hide SourceKept;
    var name := Physical(m.bundle, names[i]);
    KeptSince(m, known, had, after, imported, names[i]);
    forall k | 0 <= k < i && names[k] in m.records && !m.records[names[k]].Derived?
      ensures SourceKept(m, known, after, imported, names[k])
    {
      KeptLater(m, known, had, after, imported, names[k]);
    }
    forall k | k in after && k !in known ensures exists j :: 0 <= j < i + 1 && k == Physical(m.bundle, names[j]) {
      if k in had { var j :| 0 <= j < i && k == Physical(m.bundle, names[j]); } else { assert k == name; }
    }
  }

  lemma AllKept(doc: Document, known: map<Name, Version>, after: map<Name, Version>, imported: map<string, string>,
                names: seq<string>)
    requires ValidDocument(doc) && SoFar(doc.manifest, known, after, imported, names, |names|)
    requires forall n :: n in names <==> n in doc.manifest.records
    ensures SourcesIn(doc.manifest, after) && SourcesKept(doc.manifest, known, after, imported)
  {
    hide ValidDocument, IsDerived;
    forall n | n in doc.manifest.records && !IsDerived(doc.manifest, n)
      ensures SourceKept(doc.manifest, known, after, imported, n) && Physical(doc.manifest.bundle, n) in after
    {
      DerivedOrNot(doc, n);
      var k :| 0 <= k < |names| && names[k] == n;
      assert SourceKept(doc.manifest, known, after, imported, names[k]);
    }
  }

  predicate SameButFor(known: map<Name, Version>, after: map<Name, Version>, name: Name) {
    after.Keys == known.Keys + {name} && forall k :: k in known && k != name ==> after[k] == known[k]
  }

  lemma SameAsIs(known: map<Name, Version>, name: Name)
    requires name in known
    ensures SameButFor(known, known, name)
  {
    assert known.Keys == known.Keys + {name};
  }

  lemma SameButOne(known: map<Name, Version>, name: Name, value: string)
    ensures forall revision :: SameButFor(known, known[name := Version(value, revision)], name)
  {
  }

  predicate SourcesUnmoved(m: Manifest, known: map<Name, Version>, after: map<Name, Version>) {
    forall n :: n in m.records && !IsDerived(m, n) && Physical(m.bundle, n) in known ==>
      Physical(m.bundle, n) in after && after[Physical(m.bundle, n)] == known[Physical(m.bundle, n)]
  }

  lemma UnmovedAtFirst(m: Manifest, known: map<Name, Version>)
    ensures SourcesUnmoved(m, known, known)
  {
  }

  lemma StillUnmoved(m: Manifest, known: map<Name, Version>, had: map<Name, Version>, after: map<Name, Version>,
                     n: string)
    requires SourcesUnmoved(m, known, had) && IsDerived(m, n) && SameButFor(had, after, Physical(m.bundle, n))
    ensures SourcesUnmoved(m, known, after)
  {
  }

  lemma KeptAndUnmoved(m: Manifest, known: map<Name, Version>, stored: map<Name, Version>, all: map<Name, Version>,
                       imported: map<string, string>)
    requires SourcesKept(m, known, stored, imported) && SourcesUnmoved(m, stored, all)
    ensures SourcesKept(m, known, all, imported)
  {
    hide IsDerived;
    forall n | n in m.records && !IsDerived(m, n) ensures SourceKept(m, known, all, imported, n) {
      assert SourceKept(m, known, stored, imported, n);
    }
  }

  /** A prepared bundle misses no import, so any input is good and nothing needs to be stored. */
  lemma PreparedIsSupplied(doc: Document, s: Store, imports: Option<seq<(string, string)>>)
    requires AllRecorded(doc, s)
    ensures Supplied(doc.manifest, s.records, imports)
    ensures GivenBy(doc.manifest, s.records, imports, map[]) && SourcesKept(doc.manifest, s.records, s.records, map[])
  {
    hide IsDerived;
    forall n | n in doc.manifest.records ensures Physical(doc.manifest.bundle, n) in s.records {
      assert Recorded(doc, s.records, Payload(ObjectsOf(s, doc.manifest.bundle)), n);
    }
    hide Recorded;
  }

  // ----- What goes through undisturbed ---------------------------------------------------------------

  /** A template whose expansion is longer than a value may be. */
  predicate TooBig(m: Manifest, n: string, records: map<Name, Version>) {
    IsDerived(m, n) && |Filled(Nodes(m, n), ValuesOf(m, records))| > MAX_DERIVED
  }

  lemma IsTooBig(doc: Document, i: nat, known: map<Name, Version>)
    requires i < |doc.derived| && IsDerived(doc.manifest, doc.derived[i])
    ensures |Filled(Nodes(doc.manifest, doc.derived[i]), ValuesOf(doc.manifest, known))| > MAX_DERIVED ==>
              TooBig(doc.manifest, doc.derived[i], known)
  {
  }

  lemma NotThere(known: map<Name, Version>, name: Name)
    ensures RecordRevision(known, name) == if name in known then known[name].revision else 0
  {
  }

  lemma SavedRevision(s: Store, b: string, objects: Objects)
    ensures objects == ObjectsOf(s, b) ==>
              RevisionOf(s.journals, b) == if objects.journal.Some? then objects.journal.value.revision else 0
  {
  }

  lemma CheckpointFits(s: Store, j: Journal, b: string, revision: nat)
    requires j.bundle == b && RevisionOf(s.journals, b) == revision
    ensures Fits(s, Checkpoint(j, revision))
    ensures var t := Next(s, Checkpoint(j, revision));
            t.records == s.records && t.snapshots == s.snapshots && RevisionOf(t.journals, b) == revision + 1
  {
  }

  lemma PutFits(s: Store, name: Name, value: string, expected: nat)
    requires RecordRevision(s.records, name) == expected
    ensures Fits(s, Put(name, value, expected))
    ensures var t := Next(s, Put(name, value, expected));
            t.records == s.records[name := Version(value, expected + 1)] && t.snapshots == s.snapshots
              && t.journals == s.journals
  {
  }
}

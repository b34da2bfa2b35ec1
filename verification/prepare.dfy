/**
 * Preparing a bundle: missing inputs are stored, derived records are evaluated in order with the
 * journal as a cache, and a snapshot is published last. Any call may fail before or after it took
 * effect, which also covers a crash at that point, and others may write between any two calls.
 */
module BundlePrepare {
  import opened Basics
  import opened SecretTemplate
  import opened Bundle
  import opened BundleStatus
  import Derivations
  import Ordering

  type Past = map<(Name, nat), string>

  // ----- What a preparer may write -------------------------------------------------------------

  predicate ExpandsTo(m: Manifest, n: string, revs: map<string, nat>, past: Past, value: string) {
    && IsDerived(m, n)
    && (forall ref :: ref in Inputs(m, n) ==> ref in revs && (Physical(m.bundle, ref), revs[ref]) in past)
    && value == Filled(Nodes(m, n), ValuesAt(m.bundle, revs, past))
  }

  /** An expansion of the template over values its inputs really had. */
  ghost predicate Expansion(m: Manifest, n: string, past: Past, value: string) {
    exists revs: map<string, nat> :: ExpandsTo(m, n, revs, past, value)
  }

  /**
   * A preparer only creates missing sources, writes derived records when their expansion differs
   * from what is there, and only ever records the truth.
   */
  ghost predicate Permitted(doc: Document, past: Past, e: Event) {
    var m := doc.manifest;
    match e
    case Put(name, value, expected) =>
      && name.Physical? && name.bundle == m.bundle && name.logical in m.records
      && (if IsDerived(m, name.logical)
          then Expansion(m, name.logical, past, value) &&
               (expected > 0 ==> (name, expected) in past && past[(name, expected)] != value)
          else expected == 0)
    case Checkpoint(j, _) => j.digest == m && TrueJournal(j, past)
    case Publish(s, _) => s.digest == m && ConsistentCut(s, past)
  }

  /**
   * A preparer's write leaves every existing value alone, except that a derived record may move to
   * a different value, one its template gave for values its inputs really had.
   */
  lemma PermittedSpares(doc: Document, s: Store, e: Event, name: Name)
    requires RecordsKept(s) && Honest(s, e) && Permitted(doc, s.past, e) && name in s.records
    ensures Next(s, e).records[name] == s.records[name] ||
            (&& name.Physical? && name.bundle == doc.manifest.bundle && IsDerived(doc.manifest, name.logical)
             && Next(s, e).records[name].value != s.records[name].value
             && Expansion(doc.manifest, name.logical, s.past, Next(s, e).records[name].value))
  {
    hide TrueJournal, ConsistentCut, Expansion, IsDerived;
  }

  lemma PermittedStill(doc: Document, p: Past, q: Past, e: Event)
    requires Permitted(doc, p, e) && Grown(p, q)
    ensures Permitted(doc, q, e)
  {
    hide TrueJournal, ConsistentCut, ExpandsTo;
    match e
    case Put(name, value, _) =>
      if IsDerived(doc.manifest, name.logical) {
        var revs :| ExpandsTo(doc.manifest, name.logical, revs, p, value);
        ExpandsStill(doc.manifest, name.logical, revs, p, q, value);
      }
    case Checkpoint(j, _) => JournalStaysTrue(j, p, q);
    case Publish(s, _) => CutStaysConsistent(s, p, q);
  }

  lemma ExpandsStill(m: Manifest, n: string, revs: map<string, nat>, p: Past, q: Past, value: string)
    requires ExpandsTo(m, n, revs, p, value) && Grown(p, q)
    ensures ExpandsTo(m, n, revs, q, value)
  {
    assert AgreeOn(Inputs(m, n), ValuesAt(m.bundle, revs, p), ValuesAt(m.bundle, revs, q));
    InputsAreReferences(m, n);
    FilledAgrees(Nodes(m, n), ValuesAt(m.bundle, revs, p), ValuesAt(m.bundle, revs, q));
  }

  // ----- The vault as one preparer meets it ----------------------------------------------------

  datatype Objects = Objects(journal: Option<Held<Journal>>, snapshot: Option<Held<Snapshot>>)

  function ObjectsOf(s: Store, b: string): Objects {
    Objects(if b in s.journals then Some(s.journals[b]) else None,
            if b in s.snapshots then Some(s.snapshots[b]) else None)
  }

  /** Every revision the snapshot names was the current one. */
  predicate AllCurrent(s: Snapshot, records: map<Name, Version>) {
    forall n :: n in s.revisions ==> RecordRevision(records, Physical(s.bundle, n)) == s.revisions[n]
  }

  /** All of them were current together at some moment up to `k`. */
  ghost predicate WasReal(s: Snapshot, run: seq<Store>, k: int) {
    exists j :: 0 <= j <= k && j < |run| && AllCurrent(s, run[j].records)
  }

  class SharedVault {
    ghost const doc: Document
    const quiet: bool               // nobody else writes and no call fails
    var store: Store
    ghost var run: seq<Store>       // every state of the store, in order
    ghost var events: seq<Event>    // the accepted write between each two of them
    ghost var own: seq<bool>        // whether it was this preparer's

    constructor (ghost doc: Document, store: Store, quiet: bool)
      requires ValidDocument(doc) && Sound(store)
      ensures Valid() && this.doc == doc && this.store == store && run == [store] && this.quiet == quiet
    {
      this.doc, this.store, this.quiet, run, events, own := doc, store, quiet, [store], [], [];
    }

    ghost predicate Valid()
      reads this
    {
      && ValidDocument(doc)
      && |own| == |events| && IsRun(run, events) && Sound(run[0])
      && run[|events|] == store && Sound(store)
      && (forall k {:trigger own[k]} :: 0 <= k < |own| && own[k] ==> Permitted(doc, run[k].past, events[k]))
      && forall k {:trigger own[k]} :: 0 <= k < |own| && own[k] && events[k].Publish? ==>
           WasReal(events[k].snapshot, run, k)
    }

    /** More happened; nothing that happened is forgotten, and no past value changed. */
    twostate predicate Extends()
      reads this
    {
      && Valid() && old(run) <= run && old(events) <= events && old(own) <= own
      && Grown(old(store.past), store.past)
    }

    /** At some moment since `from`, every derived record was its template over the current inputs. */
    ghost predicate FreshSince(from: int)
      reads this
    {
      exists k :: 0 <= k && from <= k < |run| && Fresh(doc, run[k].records)
    }

    /** What a preparer may write now: the truth, and of snapshots only what was once current. */
    ghost predicate MayWrite(e: Event)
      reads this
    {
      Permitted(doc, store.past, e) && (e.Publish? ==> WasReal(e.snapshot, run, |events|))
    }

    /** This preparer's own write was taken since then. */
    ghost predicate Accepted(e: Event, from: int)
      reads this
    {
      exists k :: 0 <= k && from <= k < |events| && k < |own| && events[k] == e && own[k]
    }

    method Take(e: Event, ghost mine: bool)
      requires Valid() && Honest(store, e) && (mine ==> MayWrite(e))
      modifies this
      ensures Extends() && store == Next(old(store), e) && (mine ==> Accepted(e, |old(events)|))
    {
      hide Sound, Honest, Next, Permitted, ValidDocument, Grown, AllCurrent;
      StepKeeps(store, e);
      ghost var longer, all, flags := run + [Next(store, e)], events + [e], own + [mine];
      assert longer[..|run|] == run && all[..|events|] == events;
      forall k {:trigger all[k]} | 0 <= k < |all|
        ensures Honest(longer[k], all[k]) && longer[k + 1] == Next(longer[k], all[k])
      {
        if k < |events| { assert all[k] == events[k]; }
      }
      forall k {:trigger flags[k]} | 0 <= k < |flags| && flags[k] ensures Permitted(doc, longer[k].past, all[k]) {
        if k < |own| { assert flags[k] == own[k]; }
      }
      forall k {:trigger flags[k]} | 0 <= k < |flags| && flags[k] && all[k].Publish?
        ensures WasReal(all[k].snapshot, longer, k)
      {
        if k < |own| { assert flags[k] == own[k] && all[k] == events[k]; }
        var j :| 0 <= j <= k && j < |run| && AllCurrent(all[k].snapshot, run[j].records);
        assert longer[j] == run[j];
      }
      ghost var at := |events|;
      run, events, own, store := longer, all, flags, Next(store, e);
      assert events[at] == e && own[at] == mine;
    }

    /** Any number of writes by anybody else. */
    method Interfere()
      requires Valid()
      modifies this
      ensures Extends() && (quiet ==> store == old(store))
    {
      if quiet { return; }
      hide Sound, Honest, Next, Permitted, ValidDocument, TrueJournal, ConsistentCut;
      var n: int := *;
      while n > 0
        invariant Extends()
      {
        var e: Event := *;
        if Honest(store, e) {
          ghost var before := store.past;
          Take(e, false);
          GrownTwice(old(store.past), before, store.past);
        }
        n := n - 1;
      }
    }

    method ListRecords() returns (r: Option<map<Name, Version>>)
      requires Valid()
      modifies this
      ensures Extends() && (quiet ==> r.Some? && store == old(store))
      ensures r.Some? ==> Listed(r.value, store.past)
      ensures r.Some? ==> r.value == store.records && |run| > 0 && run[|run| - 1] == store
    {
      Interfere();
      var lost: bool := *;
      AllListed(store);
      r := if lost && !quiet then None else Some(store.records);
    }

    method ListObjects(b: string) returns (r: Option<Objects>)
      requires Valid()
      modifies this
      ensures Extends() && (quiet ==> r.Some? && store == old(store))
      ensures r.Some? ==> r.value == ObjectsOf(store, b)
      ensures r.Some? ==> TrueObjects(r.value, b, store.past)
    {
      Interfere();
      var lost: bool := *;
      ObjectsAreTrue(store, b);
      r := if lost && !quiet then None else Some(ObjectsOf(store, b));
    }

    /** The optimistic write: a failure does not say whether it took effect. */
    method Write(e: Event) returns (ok: bool)
      requires Valid() && MayWrite(e)
      modifies this
      ensures Extends() && (ok ==> Accepted(e, |old(events)|))
      ensures ok && e.Put? ==> (e.name, e.expected + 1) in store.past && store.past[(e.name, e.expected + 1)] == e.value
      ensures quiet && Fits(old(store), e) ==> ok && store == Next(old(store), e)
    {
      hide Permitted, Sound, IsRun, ValidDocument, TrueJournal, ConsistentCut, Honest, Grown, SharedVault.Valid, Next,
           Fits, AllCurrent;
      ghost var first := store.past;
      Interfere();
      StillMay(doc, first, store.past, e, old(run), |old(events)|, run, |events|);
      var lostBefore: bool := *;
      if !Fits(store, e) || (lostBefore && !quiet) { return false; }
      PermittedIsHonest(doc, store, e);
      PutIsPast(store, e);
      ghost var before, at := store.past, |events|;
      Take(e, true);
      GrownTwice(first, before, store.past);
      var lostAfter: bool := *;
      ok := !lostAfter || quiet;
    }
  }

  lemma StillMay(doc: Document, p: Past, q: Past, e: Event, run: seq<Store>, k: int, longer: seq<Store>, l: int)
    requires Permitted(doc, p, e) && Grown(p, q) && (e.Publish? ==> WasReal(e.snapshot, run, k))
    requires run <= longer && k <= l
    ensures Permitted(doc, q, e) && (e.Publish? ==> WasReal(e.snapshot, longer, l))
  {
    hide Permitted, AllCurrent, Grown;
    PermittedStill(doc, p, q, e);
    if e.Publish? {
      var j :| 0 <= j <= k && j < |run| && AllCurrent(e.snapshot, run[j].records);
      assert longer[j] == run[j];
    }
  }

  /** The server's only question: is the stated revision the current one? */
  predicate Fits(s: Store, e: Event) {
    match e
    case Put(n, _, expected) => RecordRevision(s.records, n) == expected
    case Checkpoint(j, expected) => RevisionOf(s.journals, j.bundle) == expected
    case Publish(t, expected) => RevisionOf(s.snapshots, t.bundle) == expected
  }

  lemma PermittedIsHonest(doc: Document, s: Store, e: Event)
    requires Permitted(doc, s.past, e) && Fits(s, e)
    ensures Honest(s, e)
  {
    hide TrueJournal, ConsistentCut;
  }

  lemma PutIsPast(s: Store, e: Event)
    ensures e.Put? ==>
              (e.name, e.expected + 1) in Next(s, e).past && Next(s, e).past[(e.name, e.expected + 1)] == e.value
  {
  }

  lemma GrownTwice(p: Past, q: Past, r: Past)
    requires Grown(p, q) && Grown(q, r)
    ensures Grown(p, r)
  {
  }

  lemma Reflexive(p: Past)
    ensures Grown(p, p)
  {
  }

  lemma AllListed(s: Store)
    requires Sound(s)
    ensures Listed(s.records, s.past)
  {
  }

  predicate TrueObjects(o: Objects, b: string, past: Past) {
    && (o.journal.Some? ==> o.journal.value.payload.bundle == b && TrueJournal(o.journal.value.payload, past))
    && (o.snapshot.Some? ==> o.snapshot.value.payload.bundle == b && ConsistentCut(o.snapshot.value.payload, past))
  }

  lemma ObjectsAreTrue(s: Store, b: string)
    requires Sound(s)
    ensures TrueObjects(ObjectsOf(s, b), b, s.past)
  {
  }
}

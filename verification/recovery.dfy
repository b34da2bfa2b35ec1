/** Restoring a recovery snapshot into a replacement vault, resumed as often as it takes. */
module Recovery {
  import opened Basics

  datatype Record = Record(name: string, value: string, metadata: string, revision: nat)

  datatype Object = Object(kind: string, key: string, modifiedAt: string, payload: string, revision: nat)

  datatype Snapshot = Snapshot(records: seq<Record>, objects: seq<Object>)

  /** What reading a recovery artifact insists on. */
  predicate ValidSnapshot(s: Snapshot) {
    && (forall i, j :: 0 <= i < j < |s.records| ==> s.records[i].name != s.records[j].name)
    && forall i, j :: 0 <= i < j < |s.objects| ==>
         s.objects[i].kind != s.objects[j].kind || s.objects[i].key != s.objects[j].key
  }

  type Identity = (string, string)

  function IdentityOf(o: Object): Identity { (o.kind, o.key) }

  /** Every record of the snapshot, as the first revision of the new vault. */
  function ExpectedRecords(source: seq<Record>): map<string, Record> {
    if source == [] then map[]
    else ExpectedRecords(source[..|source| - 1])[source[|source| - 1].name := source[|source| - 1].(revision := 1)]
  }

  function ExpectedObjects(source: seq<Object>): map<Identity, Object> {
    if source == [] then map[]
    else ExpectedObjects(source[..|source| - 1])[IdentityOf(source[|source| - 1]) :=
      source[|source| - 1].(revision := 1)]
  }

  lemma {:induction false} ExpectedHasAll(source: seq<Record>)
    requires forall i, j :: 0 <= i < j < |source| ==> source[i].name != source[j].name
    ensures forall i :: 0 <= i < |source| ==>
              source[i].name in ExpectedRecords(source)
                && ExpectedRecords(source)[source[i].name] == source[i].(revision := 1)
    ensures forall n :: n in ExpectedRecords(source) ==> exists i :: 0 <= i < |source| && source[i].name == n
  {
    if source != [] {
      var most := source[..|source| - 1];
      ExpectedHasAll(most);
      forall n | n in ExpectedRecords(source) ensures exists i :: 0 <= i < |source| && source[i].name == n {
        if n in ExpectedRecords(most) {
          var i :| 0 <= i < |most| && most[i].name == n;
          assert source[i].name == n;
        } else {
          assert source[|source| - 1].name == n;
        }
      }
    }
  }

  lemma {:induction false} ExpectedHasAllObjects(source: seq<Object>)
    requires forall i, j :: 0 <= i < j < |source| ==> IdentityOf(source[i]) != IdentityOf(source[j])
    ensures forall i :: 0 <= i < |source| ==>
              IdentityOf(source[i]) in ExpectedObjects(source)
                && ExpectedObjects(source)[IdentityOf(source[i])] == source[i].(revision := 1)
    ensures forall n :: n in ExpectedObjects(source) ==> exists i :: 0 <= i < |source| && IdentityOf(source[i]) == n
  {
    if source != [] {
      var most := source[..|source| - 1];
      ExpectedHasAllObjects(most);
      forall n | n in ExpectedObjects(source) ensures exists i :: 0 <= i < |source| && IdentityOf(source[i]) == n {
        if n in ExpectedObjects(most) {
          var i :| 0 <= i < |most| && IdentityOf(most[i]) == n;
          assert IdentityOf(source[i]) == n;
        } else {
          assert IdentityOf(source[|source| - 1]) == n;
        }
      }
    }
  }

  /** The `i`th record is expected under its name, and only there. */
  lemma ExpectedAt(source: seq<Record>, i: nat)
    requires (forall i, j :: 0 <= i < j < |source| ==> source[i].name != source[j].name) && i < |source|
    ensures source[i].name in ExpectedRecords(source)
              && ExpectedRecords(source)[source[i].name] == source[i].(revision := 1)
    ensures forall j :: 0 <= j < i ==> source[j].name != source[i].name
  {
    ExpectedHasAll(source);
  }

  lemma ExpectedObjectAt(source: seq<Object>, i: nat)
    requires (forall i, j :: 0 <= i < j < |source| ==> IdentityOf(source[i]) != IdentityOf(source[j])) && i < |source|
    ensures IdentityOf(source[i]) in ExpectedObjects(source)
              && ExpectedObjects(source)[IdentityOf(source[i])] == source[i].(revision := 1)
    ensures forall j :: 0 <= j < i ==> IdentityOf(source[j]) != IdentityOf(source[i])
  {
    ExpectedHasAllObjects(source);
  }

  /** After `i` uploads the vault holds what it held and the first `i` records, and nothing else. */
  predicate Uploaded<K(==), V(==)>(was: map<K, V>, now: map<K, V>, expected: map<K, V>, keys: seq<K>, i: nat) {
    && i <= |keys| && PartOf(was, now) && PartOf(now, expected)
    && (forall k :: k in now ==> k in was || k in keys[..i])
    && forall j :: 0 <= j < i ==> keys[j] in now
  }

  lemma NothingUploaded<K, V>(was: map<K, V>, expected: map<K, V>, keys: seq<K>)
    requires PartOf(was, expected)
    ensures Uploaded(was, was, expected, keys, 0)
  {
  }

  lemma UploadedOne<K, V>(was: map<K, V>, now: map<K, V>, expected: map<K, V>, keys: seq<K>, i: nat, after: map<K, V>)
    requires Uploaded(was, now, expected, keys, i) && i < |keys| && keys[i] in expected
    requires after == now || (keys[i] !in now && after == now[keys[i] := expected[keys[i]]])
    ensures PartOf(was, after) && PartOf(after, expected)
    ensures keys[i] in after ==> Uploaded(was, after, expected, keys, i + 1)
  {
    assert keys[..i + 1] == keys[..i] + [keys[i]];
  }

  lemma UploadedAll<K, V>(was: map<K, V>, now: map<K, V>, expected: map<K, V>, keys: seq<K>)
    requires Uploaded(was, now, expected, keys, |keys|) && forall k :: k in expected ==> k in keys
    ensures now == expected
  {
  }

  lemma UploadedOnTop<K, V>(was: map<K, V>, now: map<K, V>, expected: map<K, V>, keys: seq<K>)
    requires exists i :: Uploaded(was, now, expected, keys, i)
    ensures PartOf(was, now) && PartOf(now, expected) && PartOf(was, expected)
  {
  }

  lemma NotThereYet<K, V>(was: map<K, V>, now: map<K, V>, expected: map<K, V>, keys: seq<K>, i: nat)
    requires Uploaded(was, now, expected, keys, i) && i < |keys| && keys[i] !in was
    requires forall j :: 0 <= j < i ==> keys[j] != keys[i]
    ensures keys[i] !in now
  {
  }

  lemma AlreadyThere<K, V>(was: map<K, V>, now: map<K, V>, expected: map<K, V>, keys: seq<K>, i: nat)
    requires Uploaded(was, now, expected, keys, i) && i < |keys| && keys[i] in was && keys[i] in expected
    ensures keys[i] in now
  {
  }

  /** What a restored table satisfies. */
  predicate Restored<K(==), V(==)>(was: map<K, V>, now: map<K, V>, expected: map<K, V>, ok: bool, reliable: bool) {
    && (PartOf(was, expected) ==> PartOf(now, expected) && PartOf(was, now))
    && (!PartOf(was, expected) ==> !ok && now == was)
    && (ok ==> now == expected)
    && (was == expected ==> now == expected)
    && (reliable && PartOf(was, expected) ==> ok)
  }

  lemma Unchanged<K, V>(was: map<K, V>, expected: map<K, V>)
    ensures Restored(was, was, expected, false, false)
  {
  }

  lemma GivenUp<K, V>(was: map<K, V>, now: map<K, V>, expected: map<K, V>)
    requires PartOf(was, now) && PartOf(now, expected)
    ensures Restored(was, now, expected, false, false)
  {
  }

  /** A look that finds nothing unexpected and as much as is expected finds everything. */
  lemma AsMany<K, V>(now: map<K, V>, expected: map<K, V>)
    requires PartOf(now, expected) && |now.Keys| == |expected|
    ensures now == expected
  {
    assert expected.Keys == now.Keys + (expected.Keys - now.Keys);
  }

  function NamesOf(source: seq<Record>): (r: seq<string>)
    ensures |r| == |source| && forall i :: 0 <= i < |source| ==> r[i] == source[i].name
  {
    seq(|source|, i requires 0 <= i < |source| => source[i].name)
  }

  function IdentitiesOf(source: seq<Object>): (r: seq<Identity>)
    ensures |r| == |source| && forall i :: 0 <= i < |source| ==> r[i] == IdentityOf(source[i])
  {
    seq(|source|, i requires 0 <= i < |source| => IdentityOf(source[i]))
  }

  lemma AllNamed(source: seq<Record>)
    requires forall i, j :: 0 <= i < j < |source| ==> source[i].name != source[j].name
    ensures forall n :: n in ExpectedRecords(source) ==> n in NamesOf(source)
  {
    ExpectedHasAll(source);
    forall n | n in ExpectedRecords(source) ensures n in NamesOf(source) {
      var i :| 0 <= i < |source| && source[i].name == n;
      assert NamesOf(source)[i] == n;
    }
  }

  lemma AllIdentified(source: seq<Object>)
    requires forall i, j :: 0 <= i < j < |source| ==> IdentityOf(source[i]) != IdentityOf(source[j])
    ensures forall n :: n in ExpectedObjects(source) ==> n in IdentitiesOf(source)
  {
    ExpectedHasAllObjects(source);
    forall n | n in ExpectedObjects(source) ensures n in IdentitiesOf(source) {
      var i :| 0 <= i < |source| && IdentityOf(source[i]) == n;
      assert IdentitiesOf(source)[i] == n;
    }
  }

  /** Nothing in the vault but what belongs there, as it belongs there. */
  predicate PartOf<K, V(==)>(part: map<K, V>, whole: map<K, V>) {
    forall k :: k in part ==> k in whole && part[k] == whole[k]
  }

  /** The replacement vault; `reliable` when no call fails, `alone` when nobody else writes to it. */
  class Replacement {
    const reliable: bool
    const alone: bool
    var records: map<string, Record>
    var objects: map<Identity, Object>

    /** Whatever other clients of the vault do between two calls. */
    method Elsewhere()
      modifies this
      ensures alone ==> records == old(records) && objects == old(objects)
    {
      if alone { return; }
      records, objects := *, *;
    }

    /** A failure may come before or after the effect. */
    method PutRecord(r: Record) returns (ok: bool)
      modifies this
      ensures ok ==> r.name in records && records[r.name] == r
      ensures alone ==>
                && objects == old(objects)
                && (records == old(records) || (r.name !in old(records) && records == old(records)[r.name := r]))
                && (ok ==> r.name !in old(records) && records == old(records)[r.name := r])
                && (reliable && r.name !in old(records) ==> ok)
    {
      Elsewhere();
      var before: bool, after: bool := *, *;
      if r.name in records || (before && !reliable) { return false; }
      records := records[r.name := r];
      ok := reliable || !after;
    }

    method PutObject(o: Object) returns (ok: bool)
      modifies this
      ensures ok ==> IdentityOf(o) in objects && objects[IdentityOf(o)] == o
      ensures alone ==>
                && records == old(records)
                && (objects == old(objects)
                    || (IdentityOf(o) !in old(objects) && objects == old(objects)[IdentityOf(o) := o]))
                && (ok ==> IdentityOf(o) !in old(objects) && objects == old(objects)[IdentityOf(o) := o])
                && (reliable && IdentityOf(o) !in old(objects) ==> ok)
    {
      Elsewhere();
      var before: bool, after: bool := *, *;
      if IdentityOf(o) in objects || (before && !reliable) { return false; }
      objects := objects[IdentityOf(o) := o];
      ok := reliable || !after;
    }

    /** The records already there, provided all of them are expected. */
    method ValidateTarget(expected: map<string, Record>) returns (present: Option<set<string>>)
      modifies this
      ensures alone ==> records == old(records) && objects == old(objects)
      ensures present.Some? ==> PartOf(records, expected) && present.value == records.Keys
      ensures reliable ==> (present.Some? <==> PartOf(records, expected))
    {
      Elsewhere();
      var failed: bool := *;
      if failed && !reliable { return None; }
      var left, seen := records.Keys, {};
      while left != {}
        invariant left <= records.Keys && seen == records.Keys - left
        invariant forall n :: n in seen ==> n in expected && records[n] == expected[n]
        decreases |left|
      {
        var n :| n in left;
        left := left - {n};
        if n !in expected { return None; }
        if records[n] != expected[n] { return None; }
        seen := seen + {n};
      }
      return Some(seen);
    }

    /**
     * Uploads what is missing. Success means that the vault held exactly what is expected at the last
     * look, whoever else writes. If nobody else does, the vault never holds anything unexpected unless
     * it did before, in which case nothing is uploaded.
     */
    method RestoreRecords(source: seq<Record>) returns (ok: bool)
      requires forall i, j :: 0 <= i < j < |source| ==> source[i].name != source[j].name
      modifies this
      ensures ok ==> records == ExpectedRecords(source)
      ensures alone ==>
                objects == old(objects) && Restored(old(records), records, ExpectedRecords(source), ok, reliable)
    {
      var expected := ExpectedRecords(source);
      hide ExpectedRecords, PartOf, Uploaded;
      var present := ValidateTarget(expected);
      if present.None? {
        Unchanged(records, expected);
        return false;
      }
      ghost var keys := NamesOf(source);
      NothingUploaded(records, expected, keys);
      for i := 0 to |source|
        invariant alone ==> objects == old(objects) && Uploaded(old(records), records, expected, keys, i)
      {
        ExpectedAt(source, i);
        if source[i].name in present.value {
          if alone {
            AlreadyThere(old(records), records, expected, keys, i);
            UploadedOne(old(records), records, expected, keys, i, records);
          }
          continue;
        }
        if alone { NotThereYet(old(records), records, expected, keys, i); }
        ghost var before := records;
        var put := PutRecord(source[i].(revision := 1));
        if alone { UploadedOne(old(records), before, expected, keys, i, records); }
        if !put {
          if alone { GivenUp(old(records), records, expected); }
          return false;
        }
      }
      AllNamed(source);
      if alone {
        UploadedAll(old(records), records, expected, keys);
        UploadedOnTop(old(records), records, expected, keys);
      }
      var again := ValidateTarget(expected);
      if again.None? || |again.value| != |expected| {
        if alone { GivenUp(old(records), records, expected); }
        return false;
      }
      AsMany(records, expected);
      return true;
    }

    /** The objects, likewise; the last look compares everything once more. */
    method RestoreObjects(source: seq<Object>) returns (ok: bool)
      requires forall i, j :: 0 <= i < j < |source| ==> IdentityOf(source[i]) != IdentityOf(source[j])
      modifies this
      ensures ok ==> objects == ExpectedObjects(source)
      ensures alone ==>
                records == old(records) && Restored(old(objects), objects, ExpectedObjects(source), ok, reliable)
    {
      var expected := ExpectedObjects(source);
      hide ExpectedObjects, PartOf, Uploaded;
      Elsewhere();
      var failed: bool := *;
      if !PartOf(objects, expected) { return false; }
      ghost var keys := IdentitiesOf(source);
      NothingUploaded(objects, expected, keys);
      UploadedOnTop(objects, objects, expected, keys);
      if failed && !reliable {
        if alone { GivenUp(old(objects), objects, expected); }
        return false;
      }
      var present := objects.Keys;
      for i := 0 to |source|
        invariant alone ==> records == old(records) && Uploaded(old(objects), objects, expected, keys, i)
      {
        ExpectedObjectAt(source, i);
        if IdentityOf(source[i]) in present {
          if alone {
            AlreadyThere(old(objects), objects, expected, keys, i);
            UploadedOne(old(objects), objects, expected, keys, i, objects);
          }
          continue;
        }
        if alone { NotThereYet(old(objects), objects, expected, keys, i); }
        ghost var before := objects;
        var put := PutObject(source[i].(revision := 1));
        if alone { UploadedOne(old(objects), before, expected, keys, i, objects); }
        if !put {
          if alone { GivenUp(old(objects), objects, expected); }
          return false;
        }
      }
      AllIdentified(source);
      if alone {
        UploadedAll(old(objects), objects, expected, keys);
        UploadedOnTop(old(objects), objects, expected, keys);
      }
      Elsewhere();
      failed := *;
      if (failed && !reliable) || |objects| != |expected| || !PartOf(objects, expected) {
        if alone { GivenUp(old(objects), objects, expected); }
        return false;
      }
      AsMany(objects, expected);
      return true;
    }

    /** Records first, then objects. */
    method RestoreSnapshot(s: Snapshot) returns (ok: bool)
      requires ValidSnapshot(s)
      modifies this
      ensures ok ==> objects == ExpectedObjects(s.objects)
      ensures var er, eo := ExpectedRecords(s.records), ExpectedObjects(s.objects);
              alone ==>
                && (PartOf(old(records), er) && PartOf(old(objects), eo) ==>
                      PartOf(records, er) && PartOf(objects, eo) && PartOf(old(records), records)
                        && PartOf(old(objects), objects))
                && (ok ==> records == er)
                && (old(records) == er && old(objects) == eo ==> records == er && objects == eo)
                && (reliable && PartOf(old(records), er) && PartOf(old(objects), eo) ==> ok)
    {
      hide ExpectedRecords, ExpectedObjects;
      forall i, j | 0 <= i < j < |s.objects| ensures IdentityOf(s.objects[i]) != IdentityOf(s.objects[j]) {}
      ok := RestoreRecords(s.records);
      if !ok { return; }
      ok := RestoreObjects(s.objects);
    }

    /**
     * Any number of runs of one snapshot by the only writer, each ended by a crash or an error at any
     * point: the vault only ever holds part of what is expected, and a run that succeeds completes it.
     */
    method ResumeUntil(s: Snapshot, runs: nat) returns (complete: bool)
      requires ValidSnapshot(s)
      modifies this
      ensures alone && PartOf(old(records), ExpectedRecords(s.records))
              && PartOf(old(objects), ExpectedObjects(s.objects)) ==>
                && PartOf(records, ExpectedRecords(s.records)) && PartOf(objects, ExpectedObjects(s.objects))
                && (complete ==> records == ExpectedRecords(s.records) && objects == ExpectedObjects(s.objects))
                && (reliable && runs > 0 ==> complete)
    {
      hide ExpectedRecords, ExpectedObjects, PartOf;
      complete := false;
      ghost var er, eo := ExpectedRecords(s.records), ExpectedObjects(s.objects);
      ghost var own := alone && PartOf(old(records), er) && PartOf(old(objects), eo);
      for i := 0 to runs
        invariant own ==> PartOf(records, er) && PartOf(objects, eo)
        invariant own && complete ==> records == er && objects == eo
        invariant own && reliable && i > 0 ==> complete
      {
        var ok := RestoreSnapshot(s);
        complete := complete || ok;
      }
    }
  }
}

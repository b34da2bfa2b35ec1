/**
 * Sealed revisions: the revision inside every ciphertext is the one in its row, and what a write
 * with an expected revision replaces.
 */
module Revisions {
  import opened Basics
  import Ordering

  /** Opaque row identifiers, derived injectively and apart for records and objects. */
  datatype Id = RecordId(name: string) | ObjectId(kind: string, key: string)

  datatype Plain =
    | SecretRecord(name: string, value: string, revision: nat)
    | VaultObject(kind: string, key: string, revision: nat, modifiedAt: string, payload: string)

  function IdOf(p: Plain): Id {
    match p
    case SecretRecord(name, _, _) => RecordId(name)
    case VaultObject(kind, key, _, _, _) => ObjectId(kind, key)
  }

  /** Ideal authenticated encryption: it opens under the data it was sealed with, to what was sealed. */
  datatype Blob = Sealed(context: Id, plain: Plain) | Junk(bytes: string)

  function Unseal(b: Blob, context: Id): Option<Plain> {
    if b.Sealed? && b.context == context then Some(b.plain) else None
  }

  datatype Row = Row(revision: nat, blob: Blob, modifiedAt: string)

  type Rows = map<Id, Row>

  datatype Event =
    | Put(id: Id, expected: nat, modifiedAt: string, blob: Blob)
    | Delete(id: Id, expected: nat)

  function Current(rows: Rows, id: Id): nat { if id in rows then rows[id].revision else 0 }

  predicate Accepts(rows: Rows, e: Event) {
    match e
    case Put(id, expected, _, _) => Current(rows, id) == expected
    case Delete(id, expected) => id.ObjectId? && expected >= 1 && Current(rows, id) == expected
  }

  /** One transaction: an unaccepted request changes nothing. */
  function Next(rows: Rows, e: Event): Rows {
    if !Accepts(rows, e) then rows
    else match e
      case Put(id, expected, modifiedAt, blob) => rows[id := Row(expected + 1, blob, modifiedAt)]
      case Delete(id, _) => rows - {id}
  }

  /** What trusted clients send: the row's identity and its coming revision, sealed. */
  predicate Honest(e: Event) {
    e.Put? ==>
      && e.blob.Sealed? && e.blob.context == e.id && IdOf(e.blob.plain) == e.id
      && e.blob.plain.revision == e.expected + 1
      && (e.blob.plain.VaultObject? ==> e.blob.plain.modifiedAt == e.modifiedAt)
  }

  // ----- Decryption ----------------------------------------------------------------------------

  datatype Failure = CannotDecrypt | MetadataMismatch | Duplicate

  function Decrypt(id: Id, row: Row): Result<Plain, Failure> {
    match Unseal(row.blob, id)
    case None => Err(CannotDecrypt)
    case Some(p) =>
      if IdOf(p) != id || p.revision != row.revision || (p.VaultObject? && p.modifiedAt != row.modifiedAt)
      then Err(MetadataMismatch)
      else Ok(p)
  }

  /** Every row opens, to an object of its own identity and revision. */
  predicate Agrees(rows: Rows) {
    forall id :: id in rows ==>
      rows[id].revision >= 1 && Decrypt(id, rows[id]).Ok? &&
      Decrypt(id, rows[id]).value.revision == rows[id].revision && IdOf(Decrypt(id, rows[id]).value) == id
  }

  lemma NextAgrees(rows: Rows, e: Event)
    requires Agrees(rows) && Honest(e)
    ensures Agrees(Next(rows, e))
  {
  }

  ghost predicate IsRun(run: seq<Rows>, events: seq<Event>) {
    && |run| == |events| + 1
    && forall k {:trigger events[k]} :: 0 <= k < |events| ==> Honest(events[k]) && run[k + 1] == Next(run[k], events[k])
  }

  /** With honest clients, in any interleaving, decryption never reports a mismatch. */
  lemma {:induction false} RunsAgree(run: seq<Rows>, events: seq<Event>, k: nat)
    requires IsRun(run, events) && run[0] == map[] && k < |run|
    ensures Agrees(run[k])
  {
    if k > 0 {
      RunsAgree(run, events, k - 1);
      assert Honest(events[k - 1]);
      NextAgrees(run[k - 1], events[k - 1]);
    }
  }

  /** A row opens exactly to what was sealed for it, at its revision and, if it is an object, its time. */
  lemma DecryptExactly(id: Id, row: Row, p: Plain)
    ensures Decrypt(id, row) == Ok(p) <==>
              && row.blob == Sealed(id, p) && p.revision == row.revision
              && match p
                 case SecretRecord(name, _, _) => id == RecordId(name)
                 case VaultObject(kind, key, _, modifiedAt, _) =>
                   id == ObjectId(kind, key) && modifiedAt == row.modifiedAt
  {
  }

  /**
   * What was ever stored opens nowhere but in its own row, at its own revision: a blob moved to
   * another row, or put back after a later write, is noticed.
   */
  lemma TamperingIsNoticed(run: seq<Rows>, events: seq<Event>, i: nat, j: nat, from: Id, to: Id, modifiedAt: string)
    requires IsRun(run, events) && run[0] == map[] && i < |run| && j < |run| && from in run[i] && to in run[j]
    ensures Decrypt(to, Row(run[j][to].revision, run[i][from].blob, modifiedAt)).Ok? ==>
              from == to && run[i][from].revision == run[j][to].revision
  {
    RunsAgree(run, events, i);
    var forged := Decrypt(to, Row(run[j][to].revision, run[i][from].blob, modifiedAt));
    if forged.Ok? {
      DecryptExactly(to, Row(run[j][to].revision, run[i][from].blob, modifiedAt), forged.value);
      DecryptExactly(from, run[i][from], Decrypt(from, run[i][from]).value);
    }
  }

  // ----- No lost update ------------------------------------------------------------------------

  predicate Undeleted(run: seq<Rows>, events: seq<Event>, i: nat, j: nat, id: Id)
    requires |run| == |events| + 1 && i <= j < |run|
  {
    forall k :: i <= k < j ==> !(events[k].Delete? && events[k].id == id && Accepts(run[k], events[k]))
  }

  /** Unless it is deleted, a row's revision only grows, and while it stays the row stays. */
  lemma {:induction false} RowsGrow(run: seq<Rows>, events: seq<Event>, i: nat, j: nat, id: Id)
    requires IsRun(run, events) && i <= j < |run| && Undeleted(run, events, i, j, id)
    ensures Current(run[i], id) <= Current(run[j], id)
    ensures Current(run[i], id) == Current(run[j], id) && id in run[i] ==> id in run[j] && run[j][id] == run[i][id]
    decreases j
  {
    if i < j {
      RowsGrow(run, events, i, j - 1, id);
      assert Honest(events[j - 1]);
    }
  }

  lemma RecordsAreNotDeleted(run: seq<Rows>, events: seq<Event>, i: nat, j: nat, name: string)
    requires IsRun(run, events) && i <= j < |run|
    ensures Undeleted(run, events, i, j, RecordId(name))
  {
  }

  /** For records, a name and a revision fix the value forever. */
  lemma RevisionFixesRecord(run: seq<Rows>, events: seq<Event>, i: nat, j: nat, name: string)
    requires IsRun(run, events) && i <= j < |run| && RecordId(name) in run[i]
    requires Current(run[j], RecordId(name)) == Current(run[i], RecordId(name))
    ensures RecordId(name) in run[j] && run[j][RecordId(name)] == run[i][RecordId(name)]
  {
    RecordsAreNotDeleted(run, events, i, j, name);
    RowsGrow(run, events, i, j, RecordId(name));
  }

  /** An accepted write or deletion of the row. */
  predicate Touches(rows: Rows, e: Event, id: Id) { e.id == id && Accepts(rows, e) }

  predicate Untouched(run: seq<Rows>, events: seq<Event>, i: nat, j: nat, id: Id)
    requires |run| == |events| + 1 && i <= j < |run|
  {
    forall k :: i <= k < j ==> !Touches(run[k], events[k], id)
  }

  /** A write that names the revision of nothing finds nothing, whatever happened in between. */
  lemma FirstWritesReplaceNothing(run: seq<Rows>, events: seq<Event>, i: nat, j: nat, id: Id)
    requires IsRun(run, events) && run[0] == map[] && i <= j < |events| && events[j].Put? && events[j].id == id
    requires Accepts(run[j], events[j]) && events[j].expected == Current(run[i], id) && id !in run[i]
    ensures id !in run[j]
  {
    RunsAgree(run, events, j);
    RevisionsArePositive(run[j], id);
    hide Agrees;
  }

  lemma RevisionsArePositive(rows: Rows, id: Id)
    requires Agrees(rows)
    ensures id in rows <==> Current(rows, id) >= 1
  {
    hide Decrypt;
  }

  /**
   * Nobody wrote or deleted a row between its reading and the write that names the revision read,
   * exactly if nobody deleted it: writes alone cannot bring a revision back.
   */
  lemma UntouchedExactly(run: seq<Rows>, events: seq<Event>, i: nat, j: nat, id: Id)
    requires IsRun(run, events) && i <= j < |events| && events[j].Put? && events[j].id == id
    requires Accepts(run[j], events[j]) && events[j].expected == Current(run[i], id)
    ensures Untouched(run, events, i, j, id) <==> Undeleted(run, events, i, j, id)
  {
    if Undeleted(run, events, i, j, id) {
      forall k | i <= k < j ensures !Touches(run[k], events[k], id) {
        if Touches(run[k], events[k], id) {
          RowsGrow(run, events, i, k, id);
          assert Honest(events[k]) && run[k + 1] == Next(run[k], events[k]);
          RowsGrow(run, events, k + 1, j, id);
        }
      }
    } else {
      var k :| i <= k < j && events[k].Delete? && events[k].id == id && Accepts(run[k], events[k]);
      assert Touches(run[k], events[k], id);
    }
  }

  /**
   * No lost update: a write that names the revision its writer read replaces exactly what the
   * writer read, provided that what was read, if anything, was not deleted in between.
   */
  lemma WritesReplaceWhatWasRead(run: seq<Rows>, events: seq<Event>, i: nat, j: nat, id: Id)
    requires IsRun(run, events) && run[0] == map[] && i <= j < |events| && events[j].Put? && events[j].id == id
    requires Accepts(run[j], events[j]) && events[j].expected == Current(run[i], id)
    requires id in run[i] ==> Undeleted(run, events, i, j, id)
    ensures (id in run[j] <==> id in run[i]) && (id in run[i] ==> run[j][id] == run[i][id])
    ensures Current(run[j + 1], id) == Current(run[i], id) + 1
  {
    assert Honest(events[j]) && run[j + 1] == Next(run[j], events[j]);
    hide Undeleted, Decrypt, Honest;
    if id in run[i] {
      RowsGrow(run, events, i, j, id);
    } else {
      FirstWritesReplaceNothing(run, events, i, j, id);
    }
  }

  /**
   * For an object that was deleted and made again the same revision may stand for something else:
   * a writer that read the first "1" replaces the second without ever having seen it.
   */
  lemma DeletedRevisionIsReused() returns (run: seq<Rows>, events: seq<Event>, id: Id)
    ensures IsRun(run, events) && run[0] == map[] && |events| == 4 && id in run[1] && id in run[3]
    ensures events[3].Put? && events[3].id == id && events[3].expected == run[1][id].revision
              && Accepts(run[3], events[3])
    ensures run[3][id] != run[1][id]
  {
    id := ObjectId("lease", "b");
    var first := Put(id, 0, "t", Sealed(id, VaultObject("lease", "b", 1, "t", "one")));
    var gone := Delete(id, 1);
    var again := Put(id, 0, "t", Sealed(id, VaultObject("lease", "b", 1, "t", "two")));
    var blind := Put(id, 1, "t", Sealed(id, VaultObject("lease", "b", 2, "t", "three")));
    events := [first, gone, again, blind];
    var r0: Rows := map[];
    var r1 := Next(r0, first);
    var r2 := Next(r1, gone);
    var r3 := Next(r2, again);
    run := [r0, r1, r2, r3, Next(r3, blind)];
    assert r2 == map[];
    assert r3[id].blob.plain.payload == "two";
  }

  // ----- The client ----------------------------------------------------------------------------

  /** Records are listed by name, objects by kind and then key. */
  function Rank(p: Plain): (string, string) {
    match p
    case SecretRecord(name, _, _) => ("", name)
    case VaultObject(kind, key, _, _, _) => (kind, key)
  }

  predicate Lex(a: (string, string), b: (string, string)) {
    if a.0 == b.0 then Ordering.StringLeq(a.1, b.1) else Ordering.StringLeq(a.0, b.0)
  }

  lemma LexTotal(a: (string, string), b: (string, string))
    ensures Lex(a, b) || Lex(b, a)
  {
    Ordering.StringTotal(a.0, b.0);
    Ordering.StringTotal(a.1, b.1);
  }

  lemma LexTransitive(a: (string, string), b: (string, string), c: (string, string))
    requires Lex(a, b) && Lex(b, c)
    ensures Lex(a, c)
  {
    if a.0 == b.0 == c.0 {
      Ordering.StringTransitive(a.1, b.1, c.1);
    } else if a.0 != b.0 && b.0 != c.0 {
      Ordering.StringTransitive(a.0, b.0, c.0);
      if a.0 == c.0 { Ordering.StringTotal(a.0, b.0); }
    }
  }

  predicate InOrder(p: Plain, q: Plain) { Lex(Rank(p), Rank(q)) }

  /** Before in byte order, or the same. */
  ghost predicate UpTo(a: string, b: string) { a == b || Ordering.Precedes(a, b) }

  lemma InOrderMeans(p: Plain, q: Plain)
    requires InOrder(p, q)
    ensures p.SecretRecord? && q.SecretRecord? ==> UpTo(p.name, q.name)
    ensures p.VaultObject? && q.VaultObject? ==> if p.kind == q.kind then UpTo(p.key, q.key) else UpTo(p.kind, q.kind)
  {
    Ordering.StringLeqExactly(Rank(p).0, Rank(q).0);
    Ordering.StringLeqExactly(Rank(p).1, Rank(q).1);
  }

  predicate Ascend(list: seq<Plain>) {
    forall i, j :: 0 <= i < j < |list| ==> InOrder(list[i], list[j])
  }

  lemma AscendMeans(list: seq<Plain>)
    requires Ascend(list)
    ensures forall i, j :: 0 <= i < j < |list| && list[i].SecretRecord? && list[j].SecretRecord? ==>
              UpTo(list[i].name, list[j].name)
    ensures forall i, j :: 0 <= i < j < |list| && list[i].VaultObject? && list[j].VaultObject? ==>
              if list[i].kind == list[j].kind then UpTo(list[i].key, list[j].key) else UpTo(list[i].kind, list[j].kind)
  {
    hide InOrder, UpTo;
    forall i, j | 0 <= i < j < |list|
      ensures list[i].SecretRecord? && list[j].SecretRecord? ==> UpTo(list[i].name, list[j].name)
      ensures list[i].VaultObject? && list[j].VaultObject? ==>
                if list[i].kind == list[j].kind then UpTo(list[i].key, list[j].key)
                  else UpTo(list[i].kind, list[j].kind)
    {
      InOrderMeans(list[i], list[j]);
    }
  }

  /** The rows of one listing, in whatever order the service returned them. */
  datatype Listed = Listed(id: Id, row: Row)

  /**
   * All records or none: any row that does not open, or does not agree with its row, refuses the
   * whole listing. The result is sorted by name.
   */
  method DecryptRecords(rows: seq<Listed>) returns (r: Result<seq<Plain>, Failure>)
    requires forall k :: 0 <= k < |rows| ==> rows[k].id.RecordId?
    ensures r.Ok? <==> forall k :: 0 <= k < |rows| ==> Decrypt(rows[k].id, rows[k].row).Ok?
    ensures r.Ok? ==> |r.value| == |rows| && forall p :: p in r.value <==>
              exists k :: 0 <= k < |rows| && Decrypt(rows[k].id, rows[k].row) == Ok(p)
    ensures r.Ok? ==> forall p :: p in r.value ==> p.SecretRecord?
    ensures r.Ok? ==> forall i, j :: 0 <= i < j < |r.value| && r.value[i].SecretRecord? && r.value[j].SecretRecord? ==>
              UpTo(r.value[i].name, r.value[j].name)
  {
    var out: seq<Plain> := [];
    for k := 0 to |rows|
      invariant |out| == k && forall j :: 0 <= j < k ==> Decrypt(rows[j].id, rows[j].row) == Ok(out[j])
    {
      var plain := Unseal(rows[k].row.blob, rows[k].id);
      if plain.None? { return Err(CannotDecrypt); }
      var record := plain.value;
      if IdOf(record) != rows[k].id || record.revision != rows[k].row.revision { return Err(MetadataMismatch); }
      out := out + [record];
    }
    var sorted := SortByRank(out);
    AscendMeans(sorted);
    return Ok(sorted);
  }

  /** All objects or none, likewise; nothing may be listed twice, neither by identifier nor by content. */
  method DecryptAll(rows: seq<Listed>) returns (r: Result<seq<Plain>, Failure>)
    requires forall k :: 0 <= k < |rows| ==> rows[k].id.ObjectId?
    ensures r.Ok? <==> (forall k :: 0 <= k < |rows| ==> Decrypt(rows[k].id, rows[k].row).Ok?) &&
                       forall j, k :: 0 <= j < k < |rows| ==> rows[j].id != rows[k].id
    ensures r.Ok? ==> |r.value| == |rows| && forall p :: p in r.value <==>
              exists k :: 0 <= k < |rows| && Decrypt(rows[k].id, rows[k].row) == Ok(p)
    ensures r.Ok? ==> forall p :: p in r.value ==> p.VaultObject?
    ensures r.Ok? ==> forall i, j :: 0 <= i < j < |r.value| && r.value[i].VaultObject? && r.value[j].VaultObject? ==>
              if r.value[i].kind == r.value[j].kind then UpTo(r.value[i].key, r.value[j].key)
              else UpTo(r.value[i].kind, r.value[j].kind)
  {
    var out: seq<Plain> := [];
    var seenIds: set<Id>, seenIdentities: set<(string, string)> := {}, {};
    for k := 0 to |rows|
      invariant |out| == k && forall j :: 0 <= j < k ==> Decrypt(rows[j].id, rows[j].row) == Ok(out[j])
      invariant forall i, j :: 0 <= i < j < k ==> rows[i].id != rows[j].id
      invariant forall id :: id in seenIds <==> exists j :: 0 <= j < k && rows[j].id == id
      invariant forall t :: t in seenIdentities ==> exists j :: 0 <= j < k && rows[j].id == ObjectId(t.0, t.1)
    {
      if rows[k].id in seenIds { return Err(Duplicate); }
      seenIds := seenIds + {rows[k].id};
      var plain := Decrypt(rows[k].id, rows[k].row);
      if plain.Err? { return Err(plain.error); }
      var identity := (plain.value.kind, plain.value.key);
      assert rows[k].id == ObjectId(identity.0, identity.1);
      if identity in seenIdentities { assert false; return Err(Duplicate); }
      seenIdentities := seenIdentities + {identity};
      out := out + [plain.value];
    }
    var sorted := SortByRank(out);
    AscendMeans(sorted);
    return Ok(sorted);
  }

  method SortByRank(records: seq<Plain>) returns (sorted: seq<Plain>)
    ensures |sorted| == |records| && Ascend(sorted) && forall p :: p in sorted <==> p in records
  {
    hide InOrder;
    sorted := [];
    for i := 0 to |records|
      invariant |sorted| == i && Ascend(sorted) && forall p :: p in sorted <==> p in records[..i]
    {
      var k := 0;
      while k < |sorted| && InOrder(sorted[k], records[i])
        invariant k <= |sorted| && forall j :: 0 <= j < k ==> InOrder(sorted[j], records[i])
      {
        k := k + 1;
      }
      InsertedByRank(sorted, k, records[i]);
      sorted := sorted[..k] + [records[i]] + sorted[k..];
      assert records[..i + 1] == records[..i] + [records[i]];
    }
    assert records[..|records|] == records;
  }

  lemma AfterAll(s: seq<Plain>, k: nat, x: Plain)
    requires k <= |s| && Ascend(s) && (k < |s| ==> !InOrder(s[k], x))
    ensures forall j :: k <= j < |s| ==> InOrder(x, s[j])
  {
    forall j | k <= j < |s| ensures InOrder(x, s[j]) {
      LexTotal(Rank(s[k]), Rank(x));
      if j > k {
        assert InOrder(s[k], s[j]);
        LexTransitive(Rank(x), Rank(s[k]), Rank(s[j]));
      }
    }
  }

  lemma InsertedByRank(s: seq<Plain>, k: nat, x: Plain)
    requires k <= |s| && Ascend(s) && (forall j :: 0 <= j < k ==> InOrder(s[j], x)) && (k < |s| ==> !InOrder(s[k], x))
    ensures Ascend(s[..k] + [x] + s[k..])
    ensures forall p :: p in s[..k] + [x] + s[k..] <==> p in s || p == x
  {
    AfterAll(s, k, x);
    hide InOrder;
    var t := s[..k] + [x] + s[k..];
    forall i, j | 0 <= i < j < |t| ensures InOrder(t[i], t[j]) {
      if i < k { assert t[i] == s[i]; } else if i > k { assert t[i] == s[i - 1]; }
      if j < k { assert t[j] == s[j]; } else if j > k { assert t[j] == s[j - 1]; }
    }
    assert s == s[..k] + s[k..];
  }

  // ----- The service and the client against it -------------------------------------------------

  class ObjectStore {
    const reliable: bool      // no commit and no answer is lost
    var rows: Rows

    /**
     * Creates or updates a row when the stated revision is the current one. `wellFormed`: identifier,
     * timestamp and blob have their forms.
     */
    method PutVaultObject(wellFormed: bool, id: Id, expected: nat, modifiedAt: string, blob: Blob)
      returns (stored: Option<Row>)
      modifies this
      ensures rows == Next(old(rows), Put(id, expected, modifiedAt, blob)) || (stored.None? && rows == old(rows))
      ensures stored.Some? ==>
                Accepts(old(rows), Put(id, expected, modifiedAt, blob)) && id in rows && stored.value == rows[id]
      ensures !wellFormed ==> stored.None? && rows == old(rows)
      ensures reliable && wellFormed ==> (stored.Some? <==> Accepts(old(rows), Put(id, expected, modifiedAt, blob)))
    {
      if !wellFormed { return None; }
      var current := if id in rows then rows[id].revision else 0;
      if current != expected { return None; }
      var row := Row(current + 1, blob, modifiedAt);
      var committed: bool, answered: bool := *, *;
      if !committed && !reliable { return None; }
      rows := rows[id := row];
      stored := if answered || reliable then Some(row) else None;
    }

    method DeleteVaultObject(id: Id, expected: nat) returns (ok: bool)
      requires id.ObjectId?
      modifies this
      ensures rows == Next(old(rows), Delete(id, expected)) || (!ok && rows == old(rows))
      ensures ok ==> Accepts(old(rows), Delete(id, expected)) && id !in rows
      ensures reliable ==> (ok <==> Accepts(old(rows), Delete(id, expected)))
    {
      if expected < 1 { return false; }
      if id !in rows || rows[id].revision != expected { return false; }
      var committed: bool, answered: bool := *, *;
      if !committed && !reliable { return false; }
      rows := rows - {id};
      ok := answered || reliable;
    }

    /** Seals the revision the service will assign; what comes back always opens to what was sent. */
    method PutObject(wellFormed: bool, kind: string, key: string, payload: string, expected: nat, now: string)
      returns (r: Result<Plain, Failure>)
      requires Agrees(rows)
      modifies this
      ensures Agrees(rows)
      ensures r.Ok? ==>
                && r.value == VaultObject(kind, key, expected + 1, now, payload)
                && old(Current(rows, ObjectId(kind, key))) == expected
                && ObjectId(kind, key) in rows && Decrypt(ObjectId(kind, key), rows[ObjectId(kind, key)]) == r
      ensures forall id :: id != ObjectId(kind, key) ==>
                (id in rows <==> id in old(rows)) && (id in rows ==> rows[id] == old(rows)[id])
      ensures r != Err(MetadataMismatch)
      ensures reliable ==> (r.Ok? <==> wellFormed && old(Current(rows, ObjectId(kind, key))) == expected)
    {
      var plain := VaultObject(kind, key, expected + 1, now, payload);
      var id := IdOf(plain);
      var blob := Sealed(id, plain);
      NextAgrees(rows, Put(id, expected, now, blob));
      var stored := PutVaultObject(wellFormed, id, expected, now, blob);
      if stored.None? { return Err(CannotDecrypt); }
      r := Decrypt(id, stored.value);
    }
  }
}

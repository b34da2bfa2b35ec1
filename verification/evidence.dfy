/** The signed evidence chain of a lifecycle operation, and its optimistic append. */
module EvidenceChain {
  import opened Basics

  type Key = string

  /** SHA-256 as an ideal digest of what it was computed over; a text may also be no digest at all. */
  datatype Digest = Empty | Of(content: Content) | Text(text: string)

  /** What the digest of an entry covers: everything but the digest itself and the signature. */
  datatype Content = Content(sequence: int, operation: string, stage: string, code: string, at: int,
                             previous: Digest, device: string)

  /** Ideal signatures: who signed which content and digest, or nothing of the kind. */
  datatype Signature = Signed(key: Key, content: Content, digest: Digest) | Junk(bytes: string)

  datatype Evidence = Evidence(content: Content, digest: Digest, signature: Signature)

  /** A new entry on top of the one before it. */
  function NewEvidence(previous: Option<Evidence>, operation: string, stage: string, code: string, device: string,
                       now: int, key: Option<Key>): (r: Option<Evidence>)
    ensures r.Some? <==> operation != "" && stage != "" && device != "" && key.Some?
    ensures r.Some? ==>
              && r.value.content.operation == operation && r.value.content.stage == stage
              && r.value.content.code == code && r.value.content.device == device && r.value.content.at == now
  {
    if operation == "" || stage == "" || device == "" || key.None? then None
    else
      var content := match previous
        case None => Content(1, operation, stage, code, now, Empty, device)
        case Some(p) => Content(p.content.sequence + 1, operation, stage, code, now, p.digest, device);
      Some(Evidence(content, Of(content), Signed(key.value, content, Of(content))))
  }

  function LastDigest(chain: seq<Evidence>): Digest {
    if chain == [] then Empty else chain[|chain| - 1].digest
  }

  predicate EntryOk(chain: seq<Evidence>, i: nat, key: Key)
    requires i < |chain|
  {
    var e := chain[i];
    && e.content.sequence == i + 1 && e.content.previous == LastDigest(chain[..i])
    && e.digest == Of(e.content) && e.signature == Signed(key, e.content, e.digest)
  }

  /** Numbered from one, each entry over the digest of the one before, all signed with one key. */
  predicate ChainOk(chain: seq<Evidence>, key: Key) {
    forall i :: 0 <= i < |chain| ==> EntryOk(chain, i, key)
  }

  method VerifyEvidenceChain(chain: seq<Evidence>, key: Key) returns (ok: bool)
    ensures ok <==> ChainOk(chain, key)
  {
    var previous := Empty;
    for i := 0 to |chain|
      invariant previous == LastDigest(chain[..i])
      invariant forall j :: 0 <= j < i ==> EntryOk(chain, j, key)
    {
      var e := chain[i];
      if e.content.sequence != i + 1 || e.content.previous != previous || !e.digest.Of? {
        assert !EntryOk(chain, i, key);
        return false;
      }
      if e.digest != Of(e.content) {
        assert !EntryOk(chain, i, key);
        return false;
      }
      if e.signature != Signed(key, e.content, e.digest) {
        assert !EntryOk(chain, i, key);
        return false;
      }
      previous := e.digest;
      assert chain[..i + 1][i] == e;
    }
    return true;
  }

  lemma PrefixOk(chain: seq<Evidence>, key: Key, n: nat)
    requires ChainOk(chain, key) && n <= |chain|
    ensures ChainOk(chain[..n], key)
  {
    forall i | 0 <= i < n ensures EntryOk(chain[..n], i, key) {
      assert EntryOk(chain, i, key) && chain[..n][..i] == chain[..i];
    }
  }

  /** A chain grown with NewEvidence under its key verifies again; one grown under another does not. */
  lemma NewEvidenceExtends(chain: seq<Evidence>, key: Key, operation: string, stage: string, code: string,
                           device: string,
                           now: int, signer: Key)
    requires ChainOk(chain, key) && operation != "" && stage != "" && device != ""
    ensures var last := if chain == [] then None else Some(chain[|chain| - 1]);
            var e := NewEvidence(last, operation, stage, code, device, now, Some(signer)).value;
            ChainOk(chain + [e], key) <==> signer == key
  {
    var last := if chain == [] then None else Some(chain[|chain| - 1]);
    var e := NewEvidence(last, operation, stage, code, device, now, Some(signer)).value;
    var longer := chain + [e];
    assert longer[..|chain|] == chain && longer[|chain|] == e;
    if chain != [] { assert EntryOk(chain, |chain| - 1, key); }
    forall i | 0 <= i < |chain| ensures EntryOk(longer, i, key) {
      assert EntryOk(chain, i, key) && longer[..i] == chain[..i];
    }
    if signer == key { assert EntryOk(longer, |chain|, key); } else { assert !EntryOk(longer, |chain|, key); }
  }

  /** The inputs of one NewEvidence call. */
  datatype Input = Input(operation: string, stage: string, code: string, device: string, now: int)

  predicate Complete(inputs: seq<Input>) {
    forall i :: 0 <= i < |inputs| ==> inputs[i].operation != "" && inputs[i].stage != "" && inputs[i].device != ""
  }

  function Build(inputs: seq<Input>, key: Key): seq<Evidence>
    requires Complete(inputs)
  {
    if inputs == [] then []
    else
      var chain := Build(inputs[..|inputs| - 1], key);
      var x := inputs[|inputs| - 1];
      var last := if chain == [] then None else Some(chain[|chain| - 1]);
      chain + [NewEvidence(last, x.operation, x.stage, x.code, x.device, x.now, Some(key)).value]
  }

  /** The entry records what was asked for. */
  predicate Records(e: Evidence, x: Input) {
    && e.content.operation == x.operation && e.content.stage == x.stage && e.content.code == x.code
    && e.content.device == x.device && e.content.at == x.now
  }

  /** Any chain built entry by entry under one key verifies, and entry `i` is number `i + 1` and records input `i`. */
  lemma {:induction false} BuiltChainsVerify(inputs: seq<Input>, key: Key)
    requires Complete(inputs)
    ensures ChainOk(Build(inputs, key), key) && |Build(inputs, key)| == |inputs|
    ensures forall i :: 0 <= i < |inputs| ==>
              Records(Build(inputs, key)[i], inputs[i]) && Build(inputs, key)[i].content.sequence == i + 1
  {
    if inputs != [] {
      BuiltChainsVerify(inputs[..|inputs| - 1], key);
      var x := inputs[|inputs| - 1];
      NewEvidenceExtends(Build(inputs[..|inputs| - 1], key), key, x.operation, x.stage, x.code, x.device, x.now, key);
      assert EntryOk(Build(inputs, key), |inputs| - 1, key);
    }
  }

  /** What a chain says was asked for. */
  function InputsOf(chain: seq<Evidence>): (inputs: seq<Input>)
    ensures |inputs| == |chain| && forall i :: 0 <= i < |chain| ==> Records(chain[i], inputs[i])
  {
    seq(|chain|, i requires 0 <= i < |chain| =>
      var c := chain[i].content; Input(c.operation, c.stage, c.code, c.device, c.at))
  }

  /** The chains that verify are exactly the chains that are built: any other one was tampered with. */
  lemma {:induction false} AcceptedIsBuilt(chain: seq<Evidence>, key: Key)
    requires Complete(InputsOf(chain))
    ensures ChainOk(chain, key) <==> chain == Build(InputsOf(chain), key)
  {
    BuiltChainsVerify(InputsOf(chain), key);
    if ChainOk(chain, key) && chain != [] {
      var most := chain[..|chain| - 1];
      PrefixOk(chain, key, |most|);
      assert InputsOf(chain)[..|most|] == InputsOf(most);
      AcceptedIsBuilt(most, key);
      assert EntryOk(chain, |most|, key);
      if most != [] { assert EntryOk(chain, |most| - 1, key); }
      assert chain == most + [chain[|most|]];
    }
  }

  /** Accepted chains that end in the same digest have the same contents, whoever signed them. */
  lemma {:induction false} SameDigestSameContents(a: seq<Evidence>, b: seq<Evidence>, k: Key, l: Key)
    requires ChainOk(a, k) && ChainOk(b, l) && LastDigest(a) == LastDigest(b)
    ensures |a| == |b| && forall i :: 0 <= i < |a| ==> a[i].content == b[i].content && a[i].digest == b[i].digest
    decreases |a|
  {
    if a != [] { assert EntryOk(a, |a| - 1, k); }
    if b != [] { assert EntryOk(b, |b| - 1, l); }
    if a != [] && b != [] {
      PrefixOk(a, k, |a| - 1);
      PrefixOk(b, l, |b| - 1);
      SameDigestSameContents(a[..|a| - 1], b[..|b| - 1], k, l);
    }
  }

  // ----- Appending -----------------------------------------------------------------------------

  /** Every version the chain object ever had, the missing one first; the last is the current one. */
  class EvidenceStore {
    const steady: bool        // nobody else appends and no call fails
    var versions: seq<seq<Evidence>>

    constructor (steady: bool)
      ensures versions == [[]] && Chained() && this.steady == steady
    {
      versions, this.steady := [[]], steady;
    }

    /** Every version is the one before it and one entry more. */
    predicate Chained()
      reads this
    {
      && |versions| >= 1 && versions[0] == []
      && forall i :: 0 < i < |versions| ==> OneLonger(versions[i - 1], versions[i])
    }

    /** Appends of others: each read some version and was accepted only if it was still current. */
    method Interfere()
      requires Chained()
      modifies this
      ensures Chained() && old(versions) <= versions && (steady ==> versions == old(versions))
    {
      if steady { return; }
      var n: int := *;
      while n > 0
        invariant Chained() && old(versions) <= versions
      {
        var e: Evidence, read: nat := *, *;
        if read < |versions| {
          var done := Put(versions[read] + [e], read);
        }
        n := n - 1;
      }
    }

    /** A reading fails or shows some version that was current; failures of any kind look alike. */
    method Get() returns (r: Option<(seq<Evidence>, nat)>)
      requires Chained()
      modifies this
      ensures Chained() && old(versions) <= versions
      ensures r.Some? ==> 1 <= r.value.1 < |versions| && versions[r.value.1] == r.value.0
      ensures steady ==>
                versions == old(versions) && (r.Some? ==> r.value.1 == |versions| - 1) && (r.None? <==> |versions| == 1)
    {
      Interfere();
      var failed: bool := *;
      if (failed && !steady) || |versions| == 1 { return None; }
      return Some((versions[|versions| - 1], |versions| - 1));
    }

    /** The optimistic write; `done` may be lost on the way back. */
    method Put(chain: seq<Evidence>, expected: nat) returns (done: bool)
      requires Chained() && (expected < |versions| ==> OneLonger(versions[expected], chain))
      modifies this
      ensures Chained()
                && (versions == old(versions)
                || (expected + 1 == |old(versions)| && versions == old(versions) + [chain]))
      ensures done ==> versions == old(versions) + [chain]
      ensures steady ==> (done <==> expected + 1 == |old(versions)|)
    {
      var committed: bool, answered: bool := *, *;
      if expected + 1 != |versions| || !(committed || steady) { return false; }
      versions := versions + [chain];
      done := answered || steady;
    }

    /**
     * Appends one entry. A chain that could not be read counts as missing: the write then only
     * succeeds when there really is none. Left alone, it appends exactly the entries that verify.
     */
    method AppendEvidence(e: Evidence, key: Key) returns (revision: Option<nat>)
      requires Chained()
      modifies this
      ensures Chained() && old(versions) <= versions
      ensures revision.Some? ==>
                && 1 <= revision.value < |versions|
                && versions[revision.value] == versions[revision.value - 1] + [e]
                && ChainOk(versions[revision.value], key)
      ensures steady ==>
                var longer := old(versions[|versions| - 1]) + [e];
                && versions == (if ChainOk(longer, key) then old(versions) + [longer] else old(versions))
                && revision == if ChainOk(longer, key) then Some(|old(versions)|) else None
    {
      hide ChainOk;
      var found := Get();
      var chain, read := [], 0;
      if found.Some? { chain, read := found.value.0, found.value.1; }
      var proposed := chain + [e];
      var ok := VerifyEvidenceChain(proposed, key);
      if !ok { return None; }
      Interfere();
      var done := Put(proposed, read);
      revision := if done then Some(read + 1) else None;
    }

    /** Every version is a prefix of every later one. */
    lemma {:induction false} VersionsArePrefixes(i: nat, j: nat)
      requires Chained() && i <= j < |versions|
      ensures versions[i] <= versions[j] && |versions[j]| == j
      decreases j
    {
      if i < j {
        VersionsArePrefixes(i, j - 1);
        assert OneLonger(versions[j - 1], versions[j]);
      } else if j > 0 {
        VersionsArePrefixes(j - 1, j - 1);
        assert OneLonger(versions[j - 1], versions[j]);
      }
    }
  }

  predicate OneLonger(a: seq<Evidence>, b: seq<Evidence>) { |b| == |a| + 1 && b[..|a|] == a }
}

/** What the prepare operation reads: revisions to compare, imports, and the history of a snapshot. */
module PrepareInputs {
  import opened Basics
  import opened Ordering
  import opened Bundle
  import Derivations

  // ----- The journal shortcut ------------------------------------------------------------------------

  /** A missing key reads as zero. */
  function Zeroed(m: map<string, nat>, n: string): nat { if n in m then m[n] else 0 }

  method EqualRevisions(left: map<string, nat>, right: map<string, nat>) returns (equal: bool)
    ensures (forall n :: n in left ==> left[n] >= 1) ==> (equal <==> left == right)
    ensures left == right ==> equal
  {
    if |left| != |right| { return false; }
    var names := Derivations.Enumerate(left.Keys);
    for i := 0 to |names|
      invariant forall k :: 0 <= k < i ==> Zeroed(right, names[k]) == left[names[k]]
    {
      if Zeroed(right, names[i]) != left[names[i]] {
        assert names[i] in left;
        return false;
      }
    }
    equal := true;
    if forall n :: n in left ==> left[n] >= 1 {
      forall n | n in left ensures n in right && right[n] == left[n] {
        var k :| 0 <= k < |names| && names[k] == n;
        assert Zeroed(right, names[k]) == left[names[k]];
      }
      SameSize(left.Keys, right.Keys);
      assert left.Keys == right.Keys;
    }
  }

  lemma SameSize(s: set<string>, t: set<string>)
    requires s <= t && |s| == |t|
    ensures s == t
  {
    if s != t { Derivations.Smaller(s, t); }
  }

  // ----- Imports -------------------------------------------------------------------------------------

  predicate DistinctKeys(members: seq<(string, string)>) {
    forall i, j :: 0 <= i < j < |members| ==> members[i].0 != members[j].0
  }

  /** The members of one JSON object: exactly the required names, each once. */
  ghost predicate ExactImports(members: seq<(string, string)>, required: seq<string>) {
    DistinctKeys(members) && forall n :: n in required <==> exists i :: 0 <= i < |members| && members[i].0 == n
  }

  method DecodeObject(members: seq<(string, string)>) returns (values: Option<map<string, string>>)
    ensures values.Some? <==> DistinctKeys(members)
    ensures values.Some? ==>
              && (forall i :: 0 <= i < |members| ==>
                   members[i].0 in values.value && values.value[members[i].0] == members[i].1)
              && forall n :: n in values.value ==> exists i :: 0 <= i < |members| && members[i].0 == n
  {
    var found: map<string, string> := map[];
    for k := 0 to |members|
      invariant forall i, j :: 0 <= i < j < k ==> members[i].0 != members[j].0
      invariant forall i :: 0 <= i < k ==> members[i].0 in found && found[members[i].0] == members[i].1
      invariant forall n :: n in found ==> exists i :: 0 <= i < k && members[i].0 == n
    {
      if members[k].0 in found { return None; }
      found := found[members[k].0 := members[k].1];
    }
    return Some(found);
  }

  /** `input`: the members of the object on the trusted stream; None when it is anything else. */
  method ReadImports(input: Option<seq<(string, string)>>, required: seq<string>)
    returns (r: Option<map<string, string>>)
    ensures r.Some? <==> required == [] || (input.Some? && ExactImports(input.value, required))
    ensures r.Some? ==> forall n :: n in r.value <==> n in required
    ensures r.Some? && required != [] ==>
              forall i :: 0 <= i < |input.value| ==>
                input.value[i].0 in r.value && r.value[input.value[i].0] == input.value[i].1
  {
    if required == [] { return Some(map[]); }
    if input.None? { return None; }
    var members := input.value;
    var values := DecodeObject(members);
    if values.None? { return None; }
    var result: map<string, string> := map[];
    for k := 0 to |required|
      invariant forall n :: n in result <==> n in required[..k]
      invariant forall n :: n in result ==> n in values.value && result[n] == values.value[n]
    {
      if required[k] !in values.value {
        assert required[k] in required;
        return None;
      }
      result := result[required[k] := values.value[required[k]]];
      assert required[..k + 1] == required[..k] + [required[k]];
    }
    assert required[..|required|] == required;
    var names := Derivations.Enumerate(values.value.Keys);
    for k := 0 to |names|
      invariant forall i :: 0 <= i < k ==> names[i] in required
    {
      if names[k] !in required {
        assert names[k] in values.value;
        return None;
      }
    }
    forall n ensures n in required <==> exists i :: 0 <= i < |members| && members[i].0 == n {
      if n in required { assert n in result; }
      if i :| 0 <= i < |members| && members[i].0 == n { assert n in names; }
    }
    return Some(result);
  }

  // ----- Missing imports -----------------------------------------------------------------------------

  predicate IsMissing(m: Manifest, known: map<Name, Version>, n: string) {
    n in m.records && m.records[n].Imported? && Physical(m.bundle, n) !in known
  }

  /** The missing imports, in name order. */
  method MissingImports(m: Manifest, known: map<Name, Version>, names: seq<string>) returns (missing: seq<string>)
    ensures forall n :: n in missing <==>
              n in names && n in m.records && m.records[n].Imported? && Physical(m.bundle, n) !in known
  {
    missing := [];
    for i := 0 to |names|
      invariant forall n :: n in missing <==>
                  n in names[..i] && n in m.records && m.records[n].Imported? && Physical(m.bundle, n) !in known
    {
      var n := names[i];
      assert names[..i + 1] == names[..i] + [n];
      if n in m.records && m.records[n].Imported? && Physical(m.bundle, n) !in known { missing := missing + [n]; }
    }
    assert names[..|names|] == names;
  }

  lemma MissingOnes(m: Manifest, known: map<Name, Version>, names: seq<string>, missing: seq<string>)
    requires forall n :: n in names <==> n in m.records
    requires forall n :: n in missing <==>
               n in names && n in m.records && m.records[n].Imported? && Physical(m.bundle, n) !in known
    ensures forall n :: n in missing <==> IsMissing(m, known, n)
  {
  }

  /** The trusted input gives exactly the missing imports, or nothing is missing. */
  ghost predicate Supplied(m: Manifest, known: map<Name, Version>, imports: Option<seq<(string, string)>>) {
    || (forall n :: !IsMissing(m, known, n))
    || (&& imports.Some? && DistinctKeys(imports.value)
        && forall n :: IsMissing(m, known, n) <==> exists i :: 0 <= i < |imports.value| && imports.value[i].0 == n)
  }

  /** The imported values are those the trusted input gives. */
  ghost predicate GivenBy(m: Manifest, known: map<Name, Version>, imports: Option<seq<(string, string)>>,
                          imported: map<string, string>) {
    forall n :: IsMissing(m, known, n) ==> n in imported && imports.Some? && (n, imported[n]) in imports.value
  }

  /** What is missing is supplied exactly when the input has exactly these members. */
  lemma SuppliedExactly(m: Manifest, known: map<Name, Version>, imports: Option<seq<(string, string)>>,
                        missing: seq<string>)
    requires forall n :: n in missing <==> IsMissing(m, known, n)
    ensures Supplied(m, known, imports) <==> missing == [] || (imports.Some? && ExactImports(imports.value, missing))
  {
    if missing != [] { assert missing[0] in missing; }
    hide IsMissing;
  }

  lemma ReadGives(m: Manifest, known: map<Name, Version>, imports: Option<seq<(string, string)>>, missing: seq<string>,
                  imported: map<string, string>)
    requires (forall n :: n in missing <==> IsMissing(m, known, n)) && forall n :: n in imported <==> n in missing
    requires missing == [] || (imports.Some? && ExactImports(imports.value, missing))
    requires missing != [] ==> forall i :: 0 <= i < |imports.value| ==>
               imports.value[i].0 in imported && imported[imports.value[i].0] == imports.value[i].1
    ensures GivenBy(m, known, imports, imported)
  {
    hide IsMissing;
    forall n | IsMissing(m, known, n) ensures n in imported && imports.Some? && (n, imported[n]) in imports.value {
      assert n in missing;
      var i :| 0 <= i < |imports.value| && imports.value[i].0 == n;
      assert imports.value[i] == (n, imported[n]);
    }
  }

  // ----- Revision history ----------------------------------------------------------------------------

  const ASCENDING: (nat, nat) -> bool := (a, b) => a <= b

  /** Valid revisions other than the current one, each once, ascending. */
  method UniqueSortedRevisions(revisions: seq<nat>, current: nat) returns (result: seq<nat>)
    ensures forall r :: r in result <==> r in revisions && 1 <= r != current
    ensures forall i, j :: 0 <= i < j < |result| ==> result[i] < result[j]
  {
    var seen: set<nat> := {};
    var kept: seq<nat> := [];
    for k := 0 to |revisions|
      invariant forall r :: r in seen <==> r in kept
      invariant Distinct(kept) && forall r :: r in kept <==> r in revisions[..k] && 1 <= r != current
    {
      var revision := revisions[k];
      assert revisions[..k + 1] == revisions[..k] + [revision];
      if revision < 1 || revision == current { continue; }
      if revision in seen { continue; }
      seen, kept := seen + {revision}, kept + [revision];
    }
    assert revisions[..|revisions|] == revisions;
    result := Ordering.Sorted(kept, ASCENDING);
    Ordering.SortedSorts(kept, ASCENDING);
    Ordering.SortedMembers(kept, ASCENDING);
    Ordering.SortedDistinct(kept, ASCENDING);
    forall i, j | 0 <= i < j < |result| ensures result[i] < result[j] {
      assert ASCENDING(result[i], result[j]);
    }
  }
}

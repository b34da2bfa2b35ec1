/** The order in which derived records are evaluated. */
module Derivations {
  import opened Basics
  import opened Ordering

  /** Derived record names, each with the names its template references. */
  type Dependencies = map<string, seq<string>>

  /** An arbitrary listing of a set, as iterating over a map gives. */
  ghost function Listing(keys: set<string>): (s: seq<string>)
    ensures Distinct(s) && forall x :: x in s <==> x in keys
  {
    if keys == {} then []
    else
      var x :| x in keys;
      var rest := Listing(keys - {x});
      assert forall y :: y in keys <==> y == x || y in keys - {x};
      [x] + rest
  }

  ghost function SortedKeys(keys: set<string>): seq<string> { Sorted(Listing(keys), BYTE_ORDER) }

  method Enumerate(keys: set<string>) returns (s: seq<string>)
    ensures Distinct(s) && forall x :: x in s <==> x in keys
  {
    s := [];
    var left := keys;
    while left != {}
      invariant left <= keys && Distinct(s) && forall x :: x in s <==> x in keys - left
      decreases |left|
    {
      var x :| x in left;
      assert x !in s;
      s, left := s + [x], left - {x};
    }
  }

  /** The keys in byte order, whatever order they come in. */
  method SortedNames(keys: set<string>) returns (names: seq<string>)
    ensures names == SortedKeys(keys)
    ensures Distinct(names) && forall x :: x in names <==> x in keys
    ensures forall i, j :: 0 <= i < j < |names| ==> Precedes(names[i], names[j])
  {
    var listed := Enumerate(keys);
    StringOrder();
    SortingForgetsOrder(listed, Listing(keys), BYTE_ORDER);
    SortedMembers(listed, BYTE_ORDER);
    SortedDistinct(listed, BYTE_ORDER);
    names := Sorted(listed, BYTE_ORDER);
    SortedPrecede(listed);
  }

  lemma SortedPrecede(listed: seq<string>)
    requires Distinct(listed)
    ensures var names := Sorted(listed, BYTE_ORDER);
            forall i, j :: 0 <= i < j < |names| ==> Precedes(names[i], names[j])
  {
    var names := Sorted(listed, BYTE_ORDER);
    StringOrder();
    SortedSorts(listed, BYTE_ORDER);
    SortedDistinct(listed, BYTE_ORDER);
    hide Sorted;
    forall i, j | 0 <= i < j < |names| ensures Precedes(names[i], names[j]) {
      assert BYTE_ORDER(names[i], names[j]);
      StringLeqExactly(names[i], names[j]);
    }
  }

  lemma NewAt(names: seq<string>, i: nat)
    requires Distinct(names) && i < |names|
    ensures names[i] in names && names[i] !in names[..i]
  {
  }

  // ----- The depth-first visit as a function ---------------------------------------------------

  /** `open`: the names being visited, outermost first; `done`: the names finished, in order. */
  datatype Walk = Walk(open: seq<string>, done: seq<string>)

  ghost function Unvisited(deps: Dependencies, w: Walk): set<string> {
    set x | x in deps.Keys && x !in w.open && x !in w.done
  }

  ghost function Visit(deps: Dependencies, name: string, w: Walk): (r: Result<Walk, string>)
    requires name in deps
    ensures r.Ok? ==> r.value.open == w.open && w.done <= r.value.done
    decreases |Unvisited(deps, w)|, 1, 0
  {
    if name in w.open then Err(name)
    else if name in w.done then Ok(w)
    else
      var inner := Walk(w.open + [name], w.done);
      assert Unvisited(deps, inner) < Unvisited(deps, w) by { assert name in Unvisited(deps, w); }
      Smaller(Unvisited(deps, inner), Unvisited(deps, w));
      match VisitAll(deps, Sorted(deps[name], BYTE_ORDER), inner)
      case Err(e) => Err(e)
      case Ok(after) => Ok(Walk(w.open, after.done + [name]))
  }

  ghost function VisitAll(deps: Dependencies, names: seq<string>, w: Walk): (r: Result<Walk, string>)
    ensures r.Ok? ==> r.value.open == w.open && w.done <= r.value.done
    decreases |Unvisited(deps, w)|, 2, |names|
  {
    if names == [] then Ok(w)
    else if names[0] !in deps then VisitAll(deps, names[1..], w)
    else
      match Visit(deps, names[0], w)
      case Err(e) => Err(e)
      case Ok(next) =>
        assert Unvisited(deps, next) <= Unvisited(deps, w);
        NoLarger(Unvisited(deps, next), Unvisited(deps, w));
        VisitAll(deps, names[1..], next)
  }

  lemma Smaller(s: set<string>, t: set<string>)
    requires s < t
    ensures |s| < |t|
  {
    assert t == s + (t - s) && |t - s| > 0 by {
      var x :| x in t && x !in s;
      assert x in t - s;
    }
  }

  lemma NoLarger(s: set<string>, t: set<string>)
    requires s <= t
    ensures |s| <= |t|
  {
    if s != t { Smaller(s, t); }
  }

  ghost function Order(deps: Dependencies): Result<seq<string>, string> {
    match VisitAll(deps, SortedKeys(deps.Keys), Walk([], []))
    case Err(e) => Err(e)
    case Ok(w) => Ok(w.done)
  }

  // ----- What the order promises ---------------------------------------------------------------

  predicate DependsOn(deps: Dependencies, a: string, b: string) { a in deps && b in deps && b in deps[a] }

  predicate Path(deps: Dependencies, p: seq<string>) {
    forall i :: 0 < i < |p| ==> DependsOn(deps, p[i - 1], p[i])
  }

  /** A dependency path from a derived record back to itself. */
  predicate Cycle(deps: Dependencies, p: seq<string>) {
    |p| >= 2 && p[0] == p[|p| - 1] && Path(deps, p)
  }

  /** Every derived name a listed name references is listed before it. */
  predicate InputsFirst(deps: Dependencies, order: seq<string>) {
    forall i :: 0 <= i < |order| ==>
      order[i] in deps && forall ref :: ref in deps[order[i]] && ref in deps ==> ref in order[..i]
  }

  predicate Good(deps: Dependencies, w: Walk) {
    && InputsFirst(deps, w.done) && Distinct(w.done)
    && Path(deps, w.open)
    && forall x :: x in w.open ==> x in deps && x !in w.done
  }

  /** `name` may be visited next: it is at the top, or the innermost open name references it. */
  predicate Next(deps: Dependencies, name: string, w: Walk) {
    name in deps && (w.open == [] || DependsOn(deps, w.open[|w.open| - 1], name))
  }

  lemma {:induction false} VisitGood(deps: Dependencies, name: string, w: Walk)
    requires Good(deps, w) && Next(deps, name, w)
    ensures match Visit(deps, name, w)
            case Err(e) => exists p :: Cycle(deps, p) && p[0] == e
            case Ok(after) => Good(deps, after) && name in after.done
    decreases |Unvisited(deps, w)|, 1, 0
  {
    if name in w.open {
      var k :| 0 <= k < |w.open| && w.open[k] == name;
      var p := w.open[k..] + [name];
      Closes(deps, w.open, k, name);
      assert Cycle(deps, p) && p[0] == name;
    } else if name in w.done {
    } else {
      var inner := Walk(w.open + [name], w.done);
      assert name in Unvisited(deps, w) && Unvisited(deps, inner) < Unvisited(deps, w);
      Smaller(Unvisited(deps, inner), Unvisited(deps, w));
      StringOrder();
      SortedMembers(deps[name], BYTE_ORDER);
      var refs := Sorted(deps[name], BYTE_ORDER);
      VisitAllGood(deps, refs, inner);
      var all := VisitAll(deps, refs, inner);
      if all.Ok? { Finish(deps, name, w, all.value); }
    }
  }

  /** An open name that is reached again closes a cycle. */
  lemma Closes(deps: Dependencies, open: seq<string>, k: nat, name: string)
    requires Path(deps, open) && k < |open| && open[k] == name && DependsOn(deps, open[|open| - 1], name)
    ensures Cycle(deps, open[k..] + [name])
  {
    var p := open[k..] + [name];
    forall i | 0 < i < |p| ensures DependsOn(deps, p[i - 1], p[i]) {
      if i < |p| - 1 { assert p[i - 1] == open[k + i - 1] && p[i] == open[k + i]; }
    }
  }

  lemma Finish(deps: Dependencies, name: string, w: Walk, after: Walk)
    requires Good(deps, w) && name in deps && name !in w.open && name !in w.done
    requires Good(deps, after) && after.open == w.open + [name]
    requires forall ref :: ref in deps[name] && ref in deps ==> ref in after.done
    ensures Good(deps, Walk(w.open, after.done + [name]))
  {
    assert name in after.open && name !in after.done;
    forall x | x in w.open ensures x !in after.done + [name] { assert x in after.open; }
    var order := after.done + [name];
    forall i, ref | 0 <= i < |order| && order[i] in deps && ref in deps[order[i]] && ref in deps
      ensures ref in order[..i]
    {
      if i < |after.done| { assert order[..i] == after.done[..i]; } else { assert order[..i] == after.done; }
    }
  }

  lemma {:induction false} VisitAllGood(deps: Dependencies, names: seq<string>, w: Walk)
    requires Good(deps, w)
    requires forall k :: 0 <= k < |names| && names[k] in deps ==> Next(deps, names[k], w)
    ensures match VisitAll(deps, names, w)
            case Err(e) => exists p :: Cycle(deps, p) && p[0] == e
            case Ok(after) => Good(deps, after) && forall x :: x in names && x in deps ==> x in after.done
    decreases |Unvisited(deps, w)|, 2, |names|
  {
    if names == [] {
    } else if names[0] !in deps {
      VisitAllGood(deps, names[1..], w);
    } else {
      assert Next(deps, names[0], w);
      VisitGood(deps, names[0], w);
      hide Good;
      var first := Visit(deps, names[0], w);
      if first.Ok? {
        assert Unvisited(deps, first.value) <= Unvisited(deps, w);
        NoLarger(Unvisited(deps, first.value), Unvisited(deps, w));
        VisitAllGood(deps, names[1..], first.value);
      }
    }
  }

  lemma {:induction false} NoCycle(deps: Dependencies, order: seq<string>, p: seq<string>)
    requires InputsFirst(deps, order) && Distinct(order) && (forall x :: x in deps ==> x in order)
    requires Path(deps, p) && |p| >= 2
    ensures p[|p| - 1] in order && p[0] in order
    ensures forall i, j :: 0 <= i < |order| && 0 <= j < |order| && order[i] == p[0] && order[j] == p[|p| - 1] ==> j < i
  {
    var n := |p| - 1;
    assert DependsOn(deps, p[n - 1], p[n]) && DependsOn(deps, p[0], p[1]);
    if n > 1 { NoCycle(deps, order, p[..n]); }
    var m :| 0 <= m < |order| && order[m] == p[n - 1];
    assert p[n] in order[..m];
  }

  /**
   * The order fails exactly when derived records depend on each other in a cycle, naming a record
   * on one; otherwise it lists each derived record once, after every derived record it references.
   */
  lemma OrderIsTopological(deps: Dependencies)
    ensures Order(deps).Err? <==> exists p :: Cycle(deps, p)
    ensures Order(deps).Err? ==> exists p :: Cycle(deps, p) && p[0] == Order(deps).error
    ensures Order(deps).Ok? ==>
              && Distinct(Order(deps).value) && (forall x :: x in Order(deps).value <==> x in deps)
              && InputsFirst(deps, Order(deps).value)
  {
    var names := SortedKeys(deps.Keys);
    StringOrder();
    SortedMembers(Listing(deps.Keys), BYTE_ORDER);
    VisitAllGood(deps, names, Walk([], []));
    if Order(deps).Ok? {
      var order := Order(deps).value;
      forall p | Cycle(deps, p) ensures false {
        NoCycle(deps, order, p);
      }
    }
  }

  // ----- The loop ------------------------------------------------------------------------------

  datatype Mark = Visiting | Visited

  class Sorter {
    const deps: Dependencies
    var state: map<string, Mark>
    var result: seq<string>
    ghost var open: seq<string>

    constructor (deps: Dependencies)
      ensures this.deps == deps && Marked() && result == [] && open == []
    {
      this.deps, state, result, open := deps, map[], [], [];
    }

    /** The marks say which names are open and which are done. */
    ghost predicate Marked()
      reads this
    {
      && (forall x :: x in open <==> x in state && state[x] == Visiting)
      && (forall x :: x in result <==> x in state && state[x] == Visited)
    }

    method VisitName(name: string) returns (cycle: Option<string>)
      requires name in deps && Marked()
      modifies this
      ensures match Visit(deps, name, Walk(old(open), old(result)))
              case Err(e) => cycle == Some(e)
              case Ok(w) => cycle == None && Marked() && open == w.open && result == w.done
      decreases |Unvisited(deps, Walk(open, result))|, 1, 0
    {
      if name in state {
        return if state[name] == Visiting then Some(name) else None;
      }
      ghost var before := Walk(open, result);
      ghost var inner := Walk(open + [name], result);
      assert name in Unvisited(deps, before) && Unvisited(deps, inner) < Unvisited(deps, before);
      Smaller(Unvisited(deps, inner), Unvisited(deps, before));
      state, open := state[name := Visiting], open + [name];
      var refs := Sorted(deps[name], BYTE_ORDER);
      cycle := VisitNames(refs);
      if cycle.Some? { return; }
      state, result, open := state[name := Visited], result + [name], before.open;
    }

    method VisitNames(names: seq<string>) returns (cycle: Option<string>)
      requires Marked()
      modifies this
      ensures match VisitAll(deps, names, Walk(old(open), old(result)))
              case Err(e) => cycle == Some(e)
              case Ok(w) => cycle == None && Marked() && open == w.open && result == w.done
      decreases |Unvisited(deps, Walk(open, result))|, 2, |names|
    {
      cycle := None;
      for i := 0 to |names|
        invariant cycle == None && Marked() && open == old(open)
        invariant |Unvisited(deps, Walk(open, result))| <= old(|Unvisited(deps, Walk(open, result))|)
        invariant VisitAll(deps, names, Walk(old(open), old(result))) ==
                  VisitAll(deps, names[i..], Walk(open, result))
      {
        if names[i] in deps {
          ghost var before := Walk(open, result);
          cycle := VisitName(names[i]);
          if cycle.Some? { return; }
          assert Unvisited(deps, Walk(open, result)) <= Unvisited(deps, before);
          NoLarger(Unvisited(deps, Walk(open, result)), Unvisited(deps, before));
        }
        assert names[i..][1..] == names[i + 1..];
      }
      assert names[|names|..] == [];
    }
  }

  /** The same result whatever order the map's keys come in. */
  method TopologicalDerivations(deps: Dependencies) returns (r: Result<seq<string>, string>)
    ensures r == Order(deps)
  {
    var sorter := new Sorter(deps);
    var names := SortedNames(deps.Keys);
    var cycle := sorter.VisitNames(names);
    r := if cycle.Some? then Err(cycle.value) else Ok(sorter.result);
  }
}

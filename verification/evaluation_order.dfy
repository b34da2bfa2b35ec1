/** Which of the topological orders the evaluation order is: the depth-first one, smaller names first. */
module EvaluationOrder {
  import opened Basics
  import opened Ordering
  import opened Derivations

  /** A way along references from some derived record to `x`. */
  predicate Way(deps: Dependencies, p: seq<string>, x: string) {
    p != [] && p[0] in deps && Path(deps, p) && p[|p| - 1] == x
  }

  /** `q` goes on where `p` ends, or turns off to a smaller name. */
  ghost predicate Earlier(q: seq<string>, p: seq<string>) {
    p < q || exists k: nat :: k < |p| && k < |q| && q[..k] == p[..k] && Precedes(q[k], p[k])
  }

  /** Whatever way leads to `x`, an earlier one leads to `y`. */
  ghost predicate ComesFirst(deps: Dependencies, y: string, x: string) {
    forall p :: Way(deps, p, x) ==> exists q :: Way(deps, q, y) && Earlier(q, p)
  }

  ghost predicate FirstWays(deps: Dependencies, order: seq<string>) {
    forall i, x :: 0 <= i < |order| && x in deps && x !in order[..i + 1] ==> ComesFirst(deps, order[i], x)
  }

  /** `s` can be visited in place of the `k`th open name. */
  predicate Beside(deps: Dependencies, open: seq<string>, k: nat, s: string)
    requires k <= |open|
  {
    s in deps && (k == 0 || DependsOn(deps, open[k - 1], s))
  }

  /** What could have been visited instead of an open name and is smaller has been visited. */
  ghost predicate Exhausted(deps: Dependencies, w: Walk) {
    forall k: nat, s :: k < |w.open| && Beside(deps, w.open, k, s) && Precedes(s, w.open[k]) ==> s in w.done
  }

  lemma PrecedesExactly(a: string, b: string)
    ensures Precedes(a, b) <==> a != b && BYTE_ORDER(a, b)
    ensures a == b || Precedes(a, b) || Precedes(b, a)
  {
    StringLeqExactly(a, b);
    StringLeqExactly(b, a);
    StringTotal(a, b);
  }

  /** What a finished record leads to is finished. */
  lemma {:induction false} LeadsToDone(deps: Dependencies, done: seq<string>, p: seq<string>, k: nat)
    requires InputsFirst(deps, done) && Path(deps, p) && k < |p| && p[k] in done
    ensures p[|p| - 1] in done
    decreases |p| - k
  {
    if k + 1 < |p| {
      assert DependsOn(deps, p[k], p[k + 1]);
      var i :| 0 <= i < |done| && done[i] == p[k];
      assert p[k + 1] in done[..i];
      LeadsToDone(deps, done, p, k + 1);
    }
  }

  /** Where two ways part. */
  lemma {:induction false} Part(p: seq<string>, o: seq<string>) returns (k: nat)
    ensures k <= |p| && k <= |o| && p[..k] == o[..k] && (k == |p| || k == |o| || p[k] != o[k])
  {
    k := 0;
    while k < |p| && k < |o| && p[k] == o[k]
      invariant k <= |p| && k <= |o| && p[..k] == o[..k]
    {
      assert p[..k + 1] == p[..k] + [p[k]] && o[..k + 1] == o[..k] + [o[k]];
      k := k + 1;
    }
  }

  /** A way to an open record goes on, through the open ones, to the innermost. */
  lemma GoesOn(deps: Dependencies, open: seq<string>, p: seq<string>, j: nat) returns (q: seq<string>)
    requires Path(deps, open) && j + 1 < |open| && Way(deps, p, open[j])
    ensures Way(deps, q, open[|open| - 1]) && Earlier(q, p)
  {
    q := p + open[j + 1..];
    forall i | 0 < i < |q| ensures DependsOn(deps, q[i - 1], q[i]) {
      if i < |p| {
        assert DependsOn(deps, p[i - 1], p[i]);
      } else {
        var m := j + 1 + i - |p|;
        assert DependsOn(deps, open[m - 1], open[m]);
        assert q[i] == open[m] && q[i - 1] == open[m - 1];
      }
    }
  }

  /** The innermost open record is reached before anything that is neither open nor finished. */
  lemma InnermostIsNext(deps: Dependencies, w: Walk, p: seq<string>, x: string)
    requires Good(deps, w) && Exhausted(deps, w) && w.open != []
    requires forall ref :: ref in deps[w.open[|w.open| - 1]] && ref in deps ==> ref in w.done
    requires x !in w.open && x !in w.done && Way(deps, p, x)
    ensures Way(deps, w.open, w.open[|w.open| - 1]) && Earlier(w.open, p)
  {
    var o := w.open;
    var k := Part(p, o);
    if k == |p| {
      assert false;
    } else if k == |o| {
      assert p[k - 1] == p[..k][k - 1] == o[..k][k - 1];
      assert DependsOn(deps, p[k - 1], p[k]);
      LeadsToDone(deps, w.done, p, k);
    } else {
      if k > 0 {
        assert p[k - 1] == p[..k][k - 1] == o[..k][k - 1];
        assert DependsOn(deps, p[k - 1], p[k]);
      }
      assert Beside(deps, o, k, p[k]);
      PrecedesExactly(p[k], o[k]);
      if Precedes(p[k], o[k]) { LeadsToDone(deps, w.done, p, k); }
    }
  }

  /** Finishing the innermost open record puts it before all that are not finished. */
  lemma FinishesNext(deps: Dependencies, name: string, w: Walk, after: Walk)
    requires Good(deps, after) && Exhausted(deps, after) && FirstWays(deps, after.done)
    requires after.open == w.open + [name]
    requires forall ref :: ref in deps[name] && ref in deps ==> ref in after.done
    ensures FirstWays(deps, after.done + [name])
  {
    var order := after.done + [name];
    forall i, x | 0 <= i < |order| && x in deps && x !in order[..i + 1] ensures ComesFirst(deps, order[i], x) {
      if i < |after.done| {
        assert order[..i + 1] == after.done[..i + 1];
      } else {
        assert order[..i + 1] == order;
        forall p | Way(deps, p, x) ensures exists q :: Way(deps, q, name) && Earlier(q, p) {
          if j :| 0 <= j < |after.open| && after.open[j] == x {
            var q := GoesOn(deps, after.open, p, j);
          } else {
            InnermostIsNext(deps, after, p, x);
          }
        }
      }
    }
  }

  /** What the references of a record are visited with. */
  lemma Opens(deps: Dependencies, name: string, w: Walk)
    requires Good(deps, w) && Next(deps, name, w) && name !in w.done && Visit(deps, name, w).Ok?
    ensures var refs, inner := Sorted(deps[name], BYTE_ORDER), Walk(w.open + [name], w.done);
            && Good(deps, inner) && Ascending(refs, BYTE_ORDER) && (forall x :: x in refs <==> x in deps[name])
            && (forall k :: 0 <= k < |refs| && refs[k] in deps ==> Next(deps, refs[k], inner))
            && (forall s :: Beside(deps, inner.open, |inner.open|, s) ==> s in refs)
            && |Unvisited(deps, inner)| < |Unvisited(deps, w)|
  {
    var inner := Walk(w.open + [name], w.done);
    assert name in Unvisited(deps, w) && Unvisited(deps, inner) < Unvisited(deps, w);
    Smaller(Unvisited(deps, inner), Unvisited(deps, w));
    StringOrder();
    SortedMembers(deps[name], BYTE_ORDER);
    SortedSorts(deps[name], BYTE_ORDER);
    hide Sorted, Ascending, TotalOrder;
  }

  lemma StillExhausted(deps: Dependencies, name: string, w: Walk)
    requires Exhausted(deps, w)
    requires forall s :: Beside(deps, w.open, |w.open|, s) && Precedes(s, name) ==> s in w.done
    ensures Exhausted(deps, Walk(w.open + [name], w.done))
  {
    var open := w.open + [name];
    forall k: nat, s | k < |open| && Beside(deps, open, k, s) && Precedes(s, open[k]) ensures s in w.done {
      assert Beside(deps, w.open, k, s);
      if k < |w.open| { assert w.open[k] == open[k]; }
    }
  }

  lemma NowExhausted(deps: Dependencies, w: Walk, after: Walk)
    requires Exhausted(deps, w) && after.open == w.open && w.done <= after.done
    ensures Exhausted(deps, after)
  {
  }

  lemma {:induction false} VisitFirst(deps: Dependencies, name: string, w: Walk)
    requires Good(deps, w) && Next(deps, name, w) && Exhausted(deps, w) && FirstWays(deps, w.done)
    requires forall s :: Beside(deps, w.open, |w.open|, s) && Precedes(s, name) ==> s in w.done
    requires Visit(deps, name, w).Ok?
    ensures FirstWays(deps, Visit(deps, name, w).value.done)
    decreases |Unvisited(deps, w)|, 1, 0
  {
    if name !in w.done {
      Opens(deps, name, w);
      StillExhausted(deps, name, w);
      hide Good, Ascending, Exhausted, FirstWays, Precedes, Beside, Next, DependsOn, Sorted;
      var refs, inner := Sorted(deps[name], BYTE_ORDER), Walk(w.open + [name], w.done);
      VisitAllGood(deps, refs, inner);
      VisitAllFirst(deps, refs, inner);
      var all := VisitAll(deps, refs, inner);
      NowExhausted(deps, inner, all.value);
      FinishesNext(deps, name, w, all.value);
    }
  }

  lemma {:induction false} VisitAllFirst(deps: Dependencies, names: seq<string>, w: Walk)
    requires Good(deps, w) && Exhausted(deps, w) && FirstWays(deps, w.done) && Ascending(names, BYTE_ORDER)
    requires forall k :: 0 <= k < |names| && names[k] in deps ==> Next(deps, names[k], w)
    requires forall s :: Beside(deps, w.open, |w.open|, s) ==> s in names || s in w.done
    requires VisitAll(deps, names, w).Ok?
    ensures FirstWays(deps, VisitAll(deps, names, w).value.done)
    decreases |Unvisited(deps, w)|, 2, |names|
  {
    hide Good, Exhausted, FirstWays, Precedes;
    if names == [] {
    } else if names[0] !in deps {
      VisitAllFirst(deps, names[1..], w);
    } else {
      forall s | Beside(deps, w.open, |w.open|, s) && Precedes(s, names[0]) ensures s in w.done {
        PrecedesExactly(s, names[0]);
        if s in names {
          StringOrder();
          FirstIsLeast(names, s, BYTE_ORDER);
          assert false;
        }
      }
      assert Next(deps, names[0], w);
      VisitFirst(deps, names[0], w);
      VisitGood(deps, names[0], w);
      var first := Visit(deps, names[0], w).value;
      NowExhausted(deps, w, first);
      assert Unvisited(deps, first) <= Unvisited(deps, w);
      NoLarger(Unvisited(deps, first), Unvisited(deps, w));
      VisitAllFirst(deps, names[1..], first);
    }
  }

  lemma NothingVisited(deps: Dependencies)
    ensures Good(deps, Walk([], [])) && Exhausted(deps, Walk([], [])) && FirstWays(deps, [])
  {
  }

  lemma AllVisited(deps: Dependencies)
    requires Order(deps).Ok?
    ensures FirstWays(deps, Order(deps).value)
  {
    StringOrder();
    SortedMembers(Listing(deps.Keys), BYTE_ORDER);
    SortedSorts(Listing(deps.Keys), BYTE_ORDER);
    NothingVisited(deps);
    hide Sorted, Ascending, TotalOrder, Good, Exhausted, FirstWays;
    VisitAllFirst(deps, SortedKeys(deps.Keys), Walk([], []));
  }

  lemma FirstAll(deps: Dependencies, order: seq<string>)
    requires FirstWays(deps, order) && Distinct(order) && forall x :: x in order ==> x in deps
    ensures forall i, j :: 0 <= i < j < |order| ==> ComesFirst(deps, order[i], order[j])
  {
    hide ComesFirst;
    forall i, j | 0 <= i < j < |order| ensures ComesFirst(deps, order[i], order[j]) {
      assert order[j] in order && order[j] !in order[..i + 1];
    }
  }

  /**
   * One record is evaluated before another because it is reached first when references are followed
   * depth first, the smallest names first: every way to the later one has an earlier way
   * to the earlier one, which goes on from it or turns off to a smaller name.
   */
  lemma OrderIsDepthFirst(deps: Dependencies)
    requires Order(deps).Ok?
    ensures var order := Order(deps).value;
            forall i, j :: 0 <= i < j < |order| ==> ComesFirst(deps, order[i], order[j])
  {
    OrderIsTopological(deps);
    AllVisited(deps);
    var order := Order(deps).value;
    FirstAll(deps, order);
  }
}

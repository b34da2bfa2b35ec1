/** Sorting against a total order: the sorted form of a collection is unique. */
module Ordering {
  import opened Basics

  ghost predicate TotalOrder<T(!new)>(leq: (T, T) -> bool) {
    && (forall a, b :: leq(a, b) || leq(b, a))
    && (forall a, b :: leq(a, b) && leq(b, a) ==> a == b)
    && (forall a, b, c :: leq(a, b) && leq(b, c) ==> leq(a, c))
  }

  predicate Ascending<T>(s: seq<T>, leq: (T, T) -> bool) {
    forall i, j :: 0 <= i < j < |s| ==> leq(s[i], s[j])
  }

  /** Puts `x` in front of the first element it does not exceed. */
  function Insert<T>(x: T, s: seq<T>, leq: (T, T) -> bool): seq<T> {
    if s == [] then [x]
    else if leq(x, s[0]) then [x] + s
    else [s[0]] + Insert(x, s[1..], leq)
  }

  function Sorted<T>(s: seq<T>, leq: (T, T) -> bool): seq<T> {
    if s == [] then [] else Insert(s[0], Sorted(s[1..], leq), leq)
  }

  lemma {:induction false} InsertKeeps<T(!new)>(x: T, s: seq<T>, leq: (T, T) -> bool)
    requires TotalOrder(leq) && Ascending(s, leq)
    ensures Ascending(Insert(x, s, leq), leq) && multiset(Insert(x, s, leq)) == multiset(s) + multiset{x}
  {
    if s == [] {
    } else if leq(x, s[0]) {
    } else {
      InsertKeeps(x, s[1..], leq);
      var rest := Insert(x, s[1..], leq);
      assert s == [s[0]] + s[1..];
      forall j | 0 <= j < |rest| ensures leq(s[0], rest[j]) {
        assert rest[j] in multiset(rest);
        assert rest[j] == x || rest[j] in s[1..];
      }
    }
  }

  lemma {:induction false} SortedSorts<T(!new)>(s: seq<T>, leq: (T, T) -> bool)
    requires TotalOrder(leq)
    ensures Ascending(Sorted(s, leq), leq) && multiset(Sorted(s, leq)) == multiset(s)
  {
    if s != [] {
      SortedSorts(s[1..], leq);
      InsertKeeps(s[0], Sorted(s[1..], leq), leq);
      assert s == [s[0]] + s[1..];
    }
  }

  /** The first of an ascending sequence is below everything in it. */
  lemma FirstIsLeast<T(!new)>(s: seq<T>, x: T, leq: (T, T) -> bool)
    requires TotalOrder(leq) && Ascending(s, leq) && s != [] && x in s
    ensures leq(s[0], x)
  {
  }

  lemma WithoutFirst<T>(s: seq<T>)
    requires s != []
    ensures s == [s[0]] + s[1..] && multiset(s[1..]) == multiset(s) - multiset{s[0]}
  {
    assert s == [s[0]] + s[1..];
  }

  lemma SameMembers<T>(s: seq<T>, t: seq<T>, x: T)
    requires multiset(s) == multiset(t) && x in s
    ensures x in t
  {
    assert x in multiset(s) && x in multiset(t);
  }

  /** Two ascending sequences with the same elements are the same sequence. */
  lemma {:induction false} AscendingIsUnique<T(!new)>(s: seq<T>, t: seq<T>, leq: (T, T) -> bool)
    requires TotalOrder(leq) && Ascending(s, leq) && Ascending(t, leq) && multiset(s) == multiset(t)
    ensures s == t
  {
    assert |multiset(s)| == |s| && |multiset(t)| == |t|;
    if s != [] {
      SameMembers(s, t, s[0]);
      SameMembers(t, s, t[0]);
      FirstIsLeast(s, t[0], leq);
      FirstIsLeast(t, s[0], leq);
      assert s[0] == t[0];
      WithoutFirst(s);
      WithoutFirst(t);
      AscendingIsUnique(s[1..], t[1..], leq);
    }
  }

  lemma SortedMembers<T(!new)>(s: seq<T>, leq: (T, T) -> bool)
    requires TotalOrder(leq)
    ensures forall x :: x in Sorted(s, leq) <==> x in s
  {
    SortedSorts(s, leq);
    forall x ensures x in Sorted(s, leq) <==> x in s {
      assert x in multiset(Sorted(s, leq)) <==> x in multiset(s);
    }
  }

  lemma {:induction false} InsertDistinct<T(!new)>(x: T, s: seq<T>, leq: (T, T) -> bool)
    requires TotalOrder(leq) && Ascending(s, leq) && Distinct(s) && x !in s
    ensures Distinct(Insert(x, s, leq))
  {
    if s != [] && !leq(x, s[0]) {
      InsertDistinct(x, s[1..], leq);
      InsertKeeps(x, s[1..], leq);
      var rest := Insert(x, s[1..], leq);
      forall j | 0 <= j < |rest| ensures rest[j] != s[0] {
        assert rest[j] in multiset(rest);
        assert rest[j] == x || rest[j] in s[1..];
      }
    }
  }

  lemma {:induction false} SortedDistinct<T(!new)>(s: seq<T>, leq: (T, T) -> bool)
    requires TotalOrder(leq) && Distinct(s)
    ensures Distinct(Sorted(s, leq))
  {
    if s != [] {
      SortedDistinct(s[1..], leq);
      SortedSorts(s[1..], leq);
      SortedMembers(s[1..], leq);
      InsertDistinct(s[0], Sorted(s[1..], leq), leq);
    }
  }

  /** Distinct sequences with the same members sort to the same sequence. */
  lemma SortingForgetsOrder<T(!new)>(s: seq<T>, t: seq<T>, leq: (T, T) -> bool)
    requires TotalOrder(leq) && Distinct(s) && Distinct(t) && (forall x :: x in s <==> x in t)
    ensures Sorted(s, leq) == Sorted(t, leq)
  {
    SortedSorts(s, leq);
    SortedSorts(t, leq);
    forall x ensures multiset(s)[x] == multiset(t)[x] {
      DistinctCounts(s, x);
      DistinctCounts(t, x);
    }
    assert multiset(s) == multiset(t);
    AscendingIsUnique(Sorted(s, leq), Sorted(t, leq), leq);
  }

  lemma {:induction false} DistinctCounts<T(!new)>(s: seq<T>, x: T)
    requires Distinct(s)
    ensures multiset(s)[x] == if x in s then 1 else 0
  {
    if s != [] {
      DistinctCounts(s[1..], x);
      assert s == [s[0]] + s[1..];
    }
  }

  // ----- Byte order of strings -----------------------------------------------------------------

  predicate StringLeq(a: string, b: string) {
    a == "" || (b != "" && (a[0] < b[0] || (a[0] == b[0] && StringLeq(a[1..], b[1..]))))
  }

  lemma {:induction false} StringTotal(a: string, b: string)
    ensures StringLeq(a, b) || StringLeq(b, a)
    ensures StringLeq(a, b) && StringLeq(b, a) ==> a == b
  {
    if a != "" && b != "" {
      StringTotal(a[1..], b[1..]);
      if a[0] == b[0] && a[1..] == b[1..] { assert a == [a[0]] + a[1..] == b; }
    }
  }

  lemma {:induction false} StringTransitive(a: string, b: string, c: string)
    requires StringLeq(a, b) && StringLeq(b, c)
    ensures StringLeq(a, c)
  {
    if a != "" && a[0] == b[0] == c[0] { StringTransitive(a[1..], b[1..], c[1..]); }
  }

  /** They differ first at `k`, where the first one is smaller. */
  predicate SmallerAt(a: string, b: string, k: nat) {
    k < |a| && k < |b| && a[..k] == b[..k] && a[k] < b[k]
  }

  lemma FirstSame(a: string, b: string, k: nat)
    requires SmallerAt(a, b, k)
    ensures if k == 0 then a[0] < b[0] else a[0] == b[0]
  {
    if k > 0 { assert a[..k][0] == b[..k][0]; }
  }

  /** One is the beginning of the other, or smaller at the first place where they differ. */
  lemma {:induction false} StringLeqExactly(a: string, b: string)
    ensures StringLeq(a, b) <==> a <= b || exists k: nat :: SmallerAt(a, b, k)
  {
    if a == "" {
    } else if b == "" {
    } else if a[0] != b[0] {
      assert SmallerAt(a, b, 0) <==> a[0] < b[0];
      forall k: nat | SmallerAt(a, b, k) ensures k == 0 { FirstSame(a, b, k); }
    } else {
      StringLeqExactly(a[1..], b[1..]);
      assert a <= b <==> a[1..] <= b[1..];
      if k: nat :| SmallerAt(a[1..], b[1..], k) {
        assert a[..k + 1] == [a[0]] + a[1..][..k] && b[..k + 1] == [b[0]] + b[1..][..k];
        assert SmallerAt(a, b, k + 1);
      }
      if k: nat :| SmallerAt(a, b, k) {
        FirstSame(a, b, k);
        assert a[1..][..k - 1] == a[..k][1..] && b[1..][..k - 1] == b[..k][1..];
        assert SmallerAt(a[1..], b[1..], k - 1);
      }
    }
  }

  /** In byte order, and not the same. */
  ghost predicate Precedes(a: string, b: string) {
    a != b && (a <= b || exists k: nat :: SmallerAt(a, b, k))
  }

  const BYTE_ORDER: (string, string) -> bool := (a, b) => StringLeq(a, b)

  lemma StringOrder()
    ensures TotalOrder(BYTE_ORDER)
  {
    forall a: string, b: string ensures BYTE_ORDER(a, b) || BYTE_ORDER(b, a) { StringTotal(a, b); }
    forall a: string, b: string | BYTE_ORDER(a, b) && BYTE_ORDER(b, a) ensures a == b { StringTotal(a, b); }
    forall a: string, b: string, c: string | BYTE_ORDER(a, b) && BYTE_ORDER(b, c) ensures BYTE_ORDER(a, c) {
      StringTransitive(a, b, c);
    }
  }
}

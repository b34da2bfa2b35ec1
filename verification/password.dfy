/** Random passwords: bias-free sampling, and a shuffle whose choices are exactly the permutations. */
module Password {
  import opened Basics

  const MIN_LENGTH := 8
  const MAX_LENGTH := 256
  const LOWERCASE := "abcdefghijklmnopqrstuvwxyz"
  const UPPERCASE := "ABCDEFGHIJKLMNOPQRSTUVWXYZ"
  const DIGITS := "0123456789"
  const SYMBOLS := "!@#$%^&*()-_=+"

  datatype Policy = Policy(length: int, lowercase: bool, uppercase: bool, digits: bool, symbols: bool)

  predicate ValidPolicy(p: Policy) {
    MIN_LENGTH <= p.length <= MAX_LENGTH && (p.lowercase || p.uppercase || p.digits || p.symbols)
  }

  /** The enabled character classes, in order. */
  function Classes(p: Policy): (c: seq<string>)
    ensures |c| <= 4 && (ValidPolicy(p) ==> |c| >= 1) && forall k :: 0 <= k < |c| ==> 1 <= |c[k]| <= 26
  {
    (if p.lowercase then [LOWERCASE] else []) + (if p.uppercase then [UPPERCASE] else [])
    + (if p.digits then [DIGITS] else []) + (if p.symbols then [SYMBOLS] else [])
  }

  // ----- Sampling ------------------------------------------------------------------------------

  type Byte = b: int | 0 <= b < 256

  /** A source of random bytes that may end. */
  class Reader {
    var rest: seq<Byte>

    constructor (bytes: seq<Byte>)
      ensures rest == bytes
    {
      rest := bytes;
    }

    method Next() returns (b: Option<Byte>)
      modifies this
      ensures b.None? <==> old(rest) == []
      ensures b.Some? ==> b.value == old(rest)[0] && rest == old(rest)[1..]
      ensures b.None? ==> rest == old(rest)
    {
      if rest == [] { return None; }
      b := Some(rest[0]);
      rest := rest[1..];
    }
  }

  /** Bytes from here on would favour small indices. */
  function Limit(size: nat): (limit: nat)
    requires 1 <= size <= 256
    ensures 1 <= limit <= 256
  {
    256 - 256 % size
  }

  /** The index drawn from a stream of bytes: the first acceptable byte decides, the rest is left. */
  function Draw(bytes: seq<Byte>, size: nat): (r: Option<(nat, seq<Byte>)>)
    requires 1 <= size <= 256
    ensures r.Some? ==> r.value.0 < size
  {
    if bytes == [] then None
    else if bytes[0] < Limit(size) then Some((bytes[0] % size, bytes[1..]))
    else Draw(bytes[1..], size)
  }

  method RandomIndex(reader: Reader, size: nat) returns (index: Option<nat>)
    requires 1 <= size <= 256
    modifies reader
    ensures match Draw(old(reader.rest), size)
            case None => index == None
            case Some(d) => index == Some(d.0) && reader.rest == d.1
    ensures index.Some? ==> index.value < size
  {
    var limit := Limit(size);
    while true
      invariant Draw(reader.rest, size) == Draw(old(reader.rest), size)
      decreases |reader.rest|
    {
      var sample := reader.Next();
      if sample.None? { return None; }
      if sample.value < limit { return Some(sample.value % size); }
    }
  }

  /** This byte alone yields this index, whatever follows it. */
  ghost predicate Yields(b: Byte, size: nat, i: nat)
    requires 1 <= size <= 256
  {
    forall rest: seq<Byte> :: Draw([b] + rest, size) == Some((i, rest))
  }

  /** This byte is passed over. */
  ghost predicate Skipped(b: Byte, size: nat)
    requires 1 <= size <= 256
  {
    forall rest: seq<Byte> :: Draw([b] + rest, size) == Draw(rest, size)
  }

  lemma Follow(b: Byte, rest: seq<Byte>)
    ensures ([b] + rest)[0] == b && ([b] + rest)[1..] == rest
  {
  }

  /** Each byte yields one index, or is passed over. */
  lemma ByteDecides(b: Byte, size: nat)
    requires 1 <= size <= 256
    ensures if b < 256 - 256 % size then Yields(b, size, b % size) else Skipped(b, size)
  {
    forall rest: seq<Byte>
      ensures Draw([b] + rest, size) == if b < 256 - 256 % size then Some((b % size, rest)) else Draw(rest, size)
    {
      Follow(b, rest);
    }
  }

  lemma YieldsOne(b: Byte, size: nat, i: nat, j: nat)
    requires 1 <= size <= 256 && Yields(b, size, i)
    ensures !Skipped(b, size) && (Yields(b, size, j) <==> i == j)
  {
    assert Draw([b] + [], size) == Some((i, [])) && Draw([], size) == None;
  }

  /** How many of the bytes below `n` yield index `i`. */
  ghost function Hits(size: nat, i: nat, n: nat): nat
    requires 1 <= size <= 256 && n <= 256
  {
    if n == 0 then 0 else Hits(size, i, n - 1) + if Yields(n - 1, size, i) then 1 else 0
  }

  /** How many of the bytes below `n` are passed over. */
  ghost function Skips(size: nat, n: nat): nat
    requires 1 <= size <= 256 && n <= 256
  {
    if n == 0 then 0 else Skips(size, n - 1) + if Skipped(n - 1, size) then 1 else 0
  }

  lemma OneHit(size: nat, i: nat, n: nat)
    requires 1 <= size <= 256 && 1 <= n <= 256
    ensures Hits(size, i, n) == Hits(size, i, n - 1) + if n - 1 < 256 - 256 % size && (n - 1) % size == i then 1 else 0
    ensures Skips(size, n) == Skips(size, n - 1) + if n - 1 < 256 - 256 % size then 0 else 1
  {
    ByteDecides(n - 1, size);
    if n - 1 < 256 - 256 % size {
      YieldsOne(n - 1, size, (n - 1) % size, i);
    } else if Yields(n - 1, size, i) {
      YieldsOne(n - 1, size, i, i);
    }
  }

  lemma ModOf(q: nat, size: nat, j: nat)
    requires j < size
    ensures (q * size + j) % size == j
  {
    var x := q * size + j;
    var q', r := x / size, x % size;
    assert x == q' * size + r;
    assert (q - q') * size == r - j;
    if q > q' { AtLeast(q - q', size); } else if q < q' { AtLeast(q' - q, size); }
  }

  lemma AtLeast(k: nat, n: nat)
    requires k >= 1
    ensures k * n >= n
  {
  }

  lemma {:induction false} BlockHits(size: nat, i: nat, q: nat, m: nat)
    requires 1 <= size <= 256 && i < size && m <= size && q * size + m <= 256 - 256 % size
    ensures Hits(size, i, q * size + m) == Hits(size, i, q * size) + if i < m then 1 else 0
  {
    hide Hits;
    if m > 0 {
      var n := q * size + m;
      assert n - 1 == q * size + (m - 1);
      BlockHits(size, i, q, m - 1);
      ModOf(q, size, m - 1);
      OneHit(size, i, n);
    }
  }

  lemma {:induction false} WholeBlocks(size: nat, i: nat, q: nat)
    requires 1 <= size <= 256 && i < size && q * size <= 256 - 256 % size
    ensures Hits(size, i, q * size) == q
  {
    if q > 0 {
      assert (q - 1) * size + size == q * size;
      WholeBlocks(size, i, q - 1);
      BlockHits(size, i, q - 1, size);
    }
  }

  /** Beyond the limit no byte yields anything; all of them are passed over. */
  lemma {:induction false} BeyondLimit(size: nat, i: nat, n: nat)
    requires 1 <= size <= 256 && n <= 256
    ensures n <= 256 - 256 % size ==> Skips(size, n) == 0
    ensures n >= 256 - 256 % size ==>
              Hits(size, i, n) == Hits(size, i, 256 - 256 % size) && Skips(size, n) == n - (256 - 256 % size)
  {
    if n > 0 {
      OneHit(size, i, n);
      BeyondLimit(size, i, n - 1);
    }
  }

  /** Exactly 256/size of all bytes yield each index, and the rest are passed over: no index is favoured. */
  lemma Uniform(size: nat, i: nat)
    requires 1 <= size <= 256 && i < size
    ensures Hits(size, i, 256) == 256 / size && Skips(size, 256) == 256 % size
  {
    var q := 256 / size;
    assert 256 == q * size + 256 % size;
    WholeBlocks(size, i, q);
    BeyondLimit(size, i, 256);
  }

  // ----- Many draws ----------------------------------------------------------------------------

  predicate Sizes(sizes: seq<nat>) { forall k :: 0 <= k < |sizes| ==> 1 <= sizes[k] <= 256 }

  /** One index after the other, from one stream. */
  function Draws(bytes: seq<Byte>, sizes: seq<nat>): (r: Option<(seq<nat>, seq<Byte>)>)
    requires Sizes(sizes)
    ensures r.Some? ==> |r.value.0| == |sizes| && forall k :: 0 <= k < |sizes| ==> r.value.0[k] < sizes[k]
  {
    if sizes == [] then Some(([], bytes))
    else
      match Draws(bytes, sizes[..|sizes| - 1])
      case None => None
      case Some(d) =>
        match Draw(d.1, sizes[|sizes| - 1])
        case None => None
        case Some(x) => Some((d.0 + [x.0], x.1))
  }

  /** Drawing for some sizes, then for others. */
  function Continued(first: Option<(seq<nat>, seq<Byte>)>, sizes: seq<nat>): Option<(seq<nat>, seq<Byte>)>
    requires Sizes(sizes)
  {
    match first
    case None => None
    case Some(d) =>
      match Draws(d.1, sizes)
      case None => None
      case Some(e) => Some((d.0 + e.0, e.1))
  }

  lemma DrawsOneMore(bytes: seq<Byte>, sizes: seq<nat>, size: nat)
    requires Sizes(sizes) && 1 <= size <= 256
    ensures Sizes(sizes + [size])
    ensures Draws(bytes, sizes + [size]) ==
            match Draws(bytes, sizes)
            case None => None
            case Some(d) =>
              match Draw(d.1, size)
              case None => None
              case Some(x) => Some((d.0 + [x.0], x.1))
  {
    assert (sizes + [size])[..|sizes|] == sizes;
  }

  lemma {:induction false} DrawsOn(bytes: seq<Byte>, a: seq<nat>, b: seq<nat>)
    requires Sizes(a) && Sizes(b)
    ensures Sizes(a + b) && Draws(bytes, a + b) == Continued(Draws(bytes, a), b)
    decreases |b|
  {
    hide Draw;
    if b == [] {
      assert a + b == a;
      if Draws(bytes, a).Some? { assert Draws(bytes, a).value.0 + [] == Draws(bytes, a).value.0; }
    } else {
      var most, last := b[..|b| - 1], b[|b| - 1];
      assert a + b == (a + most) + [last] && b == most + [last];
      DrawsOn(bytes, a, most);
      DrawsOneMore(bytes, a + most, last);
      if Draws(bytes, a).Some? {
        var d := Draws(bytes, a).value;
        DrawsOneMore(d.1, most, last);
        hide Draws;
        assert forall e: seq<nat>, x: nat {:trigger (d.0 + e) + [x]} :: (d.0 + e) + [x] == d.0 + (e + [x]);
      }
    }
  }

  /** The loops draw for one size after the other. */
  lemma DrawsGo(bytes: seq<Byte>, sizes: seq<nat>, k: nat, made: seq<nat>, rest: seq<Byte>)
    requires Sizes(sizes) && k < |sizes| && Draws(bytes, sizes[..k]) == Some((made, rest))
    ensures match Draw(rest, sizes[k])
            case None => Draws(bytes, sizes) == None
            case Some(x) => Draws(bytes, sizes[..k + 1]) == Some((made + [x.0], x.1))
  {
    hide Draw, Draws;
    SplitAt(sizes, k);
    DrawsOneMore(bytes, sizes[..k], sizes[k]);
    DrawsOn(bytes, sizes[..k + 1], sizes[k + 1..]);
  }

  lemma SplitAt(sizes: seq<nat>, k: nat)
    requires k < |sizes|
    ensures sizes[..k + 1] == sizes[..k] + [sizes[k]] && sizes == sizes[..k + 1] + sizes[k + 1..]
  {
  }

  /** Any indices are drawn from the stream of just these bytes. */
  lemma {:induction false} AnyDraws(indices: seq<Byte>, sizes: seq<nat>, rest: seq<Byte>)
    requires Sizes(sizes) && |indices| == |sizes| && forall k :: 0 <= k < |sizes| ==> indices[k] < sizes[k]
    ensures Draws(indices + rest, sizes) == Some((indices, rest))
  {
    if sizes == [] {
      assert indices + rest == rest;
    } else {
      var n := |sizes| - 1;
      assert indices + rest == indices[..n] + ([indices[n]] + rest);
      AnyDraws(indices[..n], sizes[..n], [indices[n]] + rest);
      Follow(indices[n], rest);
      assert indices[n] % sizes[n] == indices[n] < Limit(sizes[n]) by { SmallIsAccepted(indices[n], sizes[n]); }
      assert indices == indices[..n] + [indices[n]];
    }
  }

  lemma SmallIsAccepted(i: nat, size: nat)
    requires i < size <= 256
    ensures i % size == i < Limit(size)
  {
    ModOf(0, size, i);
    AtLeast(256 / size, size);
    assert 256 == (256 / size) * size + 256 % size;
  }

  // ----- Shuffling -----------------------------------------------------------------------------

  function Swap<T>(s: seq<T>, i: nat, j: nat): seq<T>
    requires i < |s| && j < |s|
  {
    s[i := s[j]][j := s[i]]
  }

  /** One choice for each position from the last of the first `m` down to the second. */
  predicate Choices(c: seq<nat>, m: nat) {
    |c| == (if m <= 1 then 0 else m - 1) && forall k :: 0 <= k < |c| ==> c[k] < m - k
  }

  /** The shuffle of the first `m` positions under these choices. */
  function Shuffle<T>(s: seq<T>, m: nat, c: seq<nat>): seq<T>
    requires m <= |s| && Choices(c, m)
    decreases m
  {
    if m <= 1 then s else Shuffle(Swap(s, m - 1, c[0]), m - 1, c[1..])
  }

  lemma {:induction false} ShuffleKeepsRest<T>(s: seq<T>, m: nat, c: seq<nat>)
    requires m <= |s| && Choices(c, m)
    ensures |Shuffle(s, m, c)| == |s| && multiset(Shuffle(s, m, c)) == multiset(s)
    ensures forall k :: m <= k < |s| ==> Shuffle(s, m, c)[k] == s[k]
    decreases m
  {
    if m > 1 { ShuffleKeepsRest(Swap(s, m - 1, c[0]), m - 1, c[1..]); }
  }

  /** The first choice decides what ends up last. */
  lemma FirstChoice<T>(s: seq<T>, m: nat, c: seq<nat>)
    requires 2 <= m <= |s| && Choices(c, m)
    ensures Choices(c[1..], m - 1) && Shuffle(s, m, c) == Shuffle(Swap(s, m - 1, c[0]), m - 1, c[1..])
    ensures |Shuffle(s, m, c)| == |s| && Shuffle(s, m, c)[m - 1] == s[c[0]]
  {
    ShuffleKeepsRest(Swap(s, m - 1, c[0]), m - 1, c[1..]);
  }

  /** Different choices give different orders. */
  lemma {:induction false} ShuffleIsInjective<T>(s: seq<T>, m: nat, c: seq<nat>, d: seq<nat>)
    requires m <= |s| && Choices(c, m) && Choices(d, m) && Distinct(s)
    requires Shuffle(s, m, c) == Shuffle(s, m, d)
    ensures c == d
    decreases m
  {
    if m > 1 {
      FirstChoice(s, m, c);
      FirstChoice(s, m, d);
      assert c[0] == d[0];
      SwapDistinct(s, m - 1, c[0]);
      hide Distinct, Shuffle;
      ShuffleIsInjective(Swap(s, m - 1, c[0]), m - 1, c[1..], d[1..]);
      assert c == [c[0]] + c[1..] && d == [d[0]] + d[1..];
    }
  }

  lemma SwapDistinct<T>(s: seq<T>, i: nat, j: nat)
    requires i < |s| && j < |s| && Distinct(s)
    ensures Distinct(Swap(s, i, j))
  {
  }

  lemma MoreChoices<T>(s: seq<T>, m: nat, i: nat, c: seq<nat>)
    requires 2 <= m <= |s| && i < m && Choices(c, m - 1)
    ensures Choices([i] + c, m) && Shuffle(s, m, [i] + c) == Shuffle(Swap(s, m - 1, i), m - 1, c)
  {
    var d := [i] + c;
    assert d[1..] == c;
    forall k | 0 <= k < |d| ensures d[k] < m - k { if k > 0 { assert d[k] == c[k - 1]; } }
  }

  /** Every order is reached by some choices. */
  lemma {:induction false} ShuffleIsOnto<T>(s: seq<T>, m: nat, t: seq<T>) returns (c: seq<nat>)
    requires m <= |s| == |t| && multiset(s) == multiset(t) && forall k :: m <= k < |s| ==> t[k] == s[k]
    ensures Choices(c, m) && Shuffle(s, m, c) == t
    decreases m
  {
    if m <= 1 {
      c := [];
      if m == 1 { LastOne(s, t); }
      assert s == t;
    } else {
      var j := FindAmong(s, t, m);
      var next := Swap(s, m - 1, j);
      assert multiset(next) == multiset(s);
      hide Shuffle;
      var rest := ShuffleIsOnto(next, m - 1, t);
      c := [j] + rest;
      MoreChoices(s, m, j, rest);
    }
  }

  lemma LastOne<T>(s: seq<T>, t: seq<T>)
    requires |s| == |t| >= 1 && multiset(s) == multiset(t) && forall k :: 1 <= k < |s| ==> t[k] == s[k]
    ensures s[0] == t[0]
  {
    assert s == [s[0]] + s[1..] && t == [t[0]] + t[1..] && s[1..] == t[1..];
    assert multiset{s[0]} == multiset(s) - multiset(s[1..]) == multiset(t) - multiset(t[1..]) == multiset{t[0]};
    assert s[0] in multiset{t[0]};
  }

  /** What belongs in the last free position is still among the free ones. */
  lemma FindAmong<T>(s: seq<T>, t: seq<T>, m: nat) returns (j: nat)
    requires 1 <= m <= |s| == |t| && multiset(s) == multiset(t) && forall k :: m <= k < |s| ==> t[k] == s[k]
    ensures j < m && s[j] == t[m - 1]
  {
    assert s == s[..m] + s[m..] && t == t[..m] + t[m..] && s[m..] == t[m..];
    assert multiset(s) == multiset(s[..m]) + multiset(s[m..]) && multiset(t) == multiset(t[..m]) + multiset(t[m..]);
    assert multiset(s[..m]) == multiset(s) - multiset(s[m..]) && multiset(t[..m]) == multiset(t) - multiset(t[m..]);
    assert t[..m][m - 1] in multiset(t[..m]) && t[m - 1] in multiset(s[..m]);
    assert t[m - 1] in s[..m];
    j :| 0 <= j < m && s[..m][j] == t[m - 1];
  }

  /** The choices and the permutations of distinct elements match one to one. */
  lemma OneChoicePerPermutation<T>(s: seq<T>, t: seq<T>) returns (c: seq<nat>)
    requires Distinct(s) && multiset(s) == multiset(t) && |s| == |t|
    ensures Choices(c, |s|) && Shuffle(s, |s|, c) == t
    ensures forall d :: Choices(d, |s|) && Shuffle(s, |s|, d) == t ==> d == c
  {
    c := ShuffleIsOnto(s, |s|, t);
    forall d | Choices(d, |s|) && Shuffle(s, |s|, d) == t ensures d == c { ShuffleIsInjective(s, |s|, c, d); }
  }

  // ----- Generation ----------------------------------------------------------------------------

  function Alphabet(classes: seq<string>): string {
    if classes == [] then "" else Alphabet(classes[..|classes| - 1]) + classes[|classes| - 1]
  }

  lemma {:induction false} AlphabetMembers(classes: seq<string>)
    ensures forall ch :: ch in Alphabet(classes) <==> exists k :: 0 <= k < |classes| && ch in classes[k]
    ensures (forall k :: 0 <= k < |classes| ==> 1 <= |classes[k]| <= 26) ==>
              |classes| <= |Alphabet(classes)| <= 26 * |classes|
  {
    if classes != [] {
      var most := classes[..|classes| - 1];
      AlphabetMembers(most);
      forall ch ensures ch in Alphabet(classes) <==> exists k :: 0 <= k < |classes| && ch in classes[k] {
        if ch in Alphabet(most) {
          var k :| 0 <= k < |most| && ch in most[k];
          assert ch in classes[k];
        }
        if k :| 0 <= k < |classes| && ch in classes[k] { if k < |most| { assert ch in most[k]; } }
      }
    }
  }

  predicate Touches(s: string, x: string) { exists j :: 0 <= j < |s| && s[j] in x }

  predicate UsesClasses(classes: seq<string>, s: string) {
    && (forall k :: 0 <= k < |s| ==> s[k] in Alphabet(classes))
    && forall k :: 0 <= k < |classes| ==> Touches(s, classes[k])
  }

  lemma UsesThem(classes: seq<string>, s: string)
    requires (forall k :: 0 <= k < |s| ==> s[k] in Alphabet(classes)) && |classes| <= |s|
    requires forall k :: 0 <= k < |classes| ==> s[k] in classes[k]
    ensures UsesClasses(classes, s)
  {
  }

  /** The order of the characters does not matter to what they use. */
  lemma UsesAnyOrder(classes: seq<string>, s: string, t: string)
    requires UsesClasses(classes, s) && multiset(s) == multiset(t)
    ensures UsesClasses(classes, t)
  {
    forall k | 0 <= k < |t| ensures t[k] in Alphabet(classes) {
      assert t[k] in multiset(t) && t[k] in multiset(s);
    }
    forall k | 0 <= k < |classes| ensures Touches(t, classes[k]) {
      assert Touches(s, classes[k]);
      var j :| 0 <= j < |s| && s[j] in classes[k];
      assert s[j] in multiset(s) && s[j] in multiset(t);
      var i :| 0 <= i < |t| && t[i] == s[j];
    }
  }

  function Lengths(classes: seq<string>): (sizes: seq<nat>)
    ensures |sizes| == |classes| && forall k :: 0 <= k < |sizes| ==> sizes[k] == |classes[k]|
  {
    seq(|classes|, k requires 0 <= k < |classes| => |classes[k]|)
  }

  function Repeated(size: nat, n: nat): (sizes: seq<nat>)
    ensures |sizes| == n && forall k :: 0 <= k < n ==> sizes[k] == size
  {
    seq(n, k => size)
  }

  function Countdown(n: nat): (sizes: seq<nat>)
    ensures |sizes| == (if n <= 1 then 0 else n - 1) && forall k :: 0 <= k < |sizes| ==> sizes[k] == n - k
  {
    seq(if n <= 1 then 0 else n - 1, k requires 0 <= k < n => n - k)
  }

  predicate Usable(classes: seq<string>, length: nat) {
    && 1 <= |classes| <= 4 && |classes| <= length <= 256
    && forall k :: 0 <= k < |classes| ==> 1 <= |classes[k]| <= 26
  }

  /** Where the character at `k` is taken from, before they are put in order. */
  function Source(classes: seq<string>, k: nat): string {
    if k < |classes| then classes[k] else Alphabet(classes)
  }

  /** What is drawn for the characters: one of each class, the others from any. */
  function Picks(classes: seq<string>, length: nat): (sizes: seq<nat>)
    requires Usable(classes, length)
    ensures Sizes(sizes) && |sizes| == length
    ensures forall k :: 0 <= k < length ==> sizes[k] == |Source(classes, k)|
  {
    AlphabetMembers(classes);
    Lengths(classes) + Repeated(|Alphabet(classes)|, length - |classes|)
  }

  /** And for their order. */
  function Plan(classes: seq<string>, length: nat): (sizes: seq<nat>)
    requires Usable(classes, length)
    ensures Sizes(sizes)
  {
    Picks(classes, length) + Countdown(length)
  }

  /** The characters before they are put in order. */
  function Picked(classes: seq<string>, length: nat, indices: seq<nat>): (s: string)
    requires Usable(classes, length) && |indices| == length
    requires forall k :: 0 <= k < length ==>
               indices[k] < |Source(classes, k)|
    ensures |s| == length
  {
    seq(length, k requires 0 <= k < length =>
      Source(classes, k)[indices[k]])
  }

  predicate Planned(classes: seq<string>, length: nat, indices: seq<nat>) {
    && Usable(classes, length) && |indices| == |Plan(classes, length)|
    && forall k :: 0 <= k < |indices| ==> indices[k] < Plan(classes, length)[k]
  }

  lemma PlanParts(classes: seq<string>, length: nat, indices: seq<nat>)
    requires Planned(classes, length, indices)
    ensures length <= |indices| && Choices(indices[length..], length)
    ensures forall k :: 0 <= k < length ==>
              indices[k] < |Source(classes, k)|
  {
    var plan := Plan(classes, length);
    assert forall k :: 0 <= k < length ==>
        plan[k] == |Source(classes, k)|;
    assert forall j :: length <= j < |plan| ==> plan[j] == length - (j - length);
  }

  function Composed(classes: seq<string>, length: nat, indices: seq<nat>): string
    requires Planned(classes, length, indices)
  {
    PlanParts(classes, length, indices);
    Shuffle(Picked(classes, length, indices[..length]), length, indices[length..])
  }

  /** The password a stream of random bytes gives; None when it ends too early. */
  function Generated(bytes: seq<Byte>, classes: seq<string>, length: nat): Option<string>
    requires Usable(classes, length)
  {
    match Draws(bytes, Plan(classes, length))
    case None => None
    case Some(d) => Some(Composed(classes, length, d.0))
  }

  datatype Failure = BadPolicy | NoRandomness

  predicate Lower(c: char) { 'a' <= c <= 'z' }

  predicate Upper(c: char) { 'A' <= c <= 'Z' }

  predicate Digit(c: char) { '0' <= c <= '9' }

  predicate Symbol(c: char) { c in SYMBOLS }

  predicate Allowed(p: Policy, c: char) {
    (p.lowercase && Lower(c)) || (p.uppercase && Upper(c)) || (p.digits && Digit(c)) || (p.symbols && Symbol(c))
  }

  /** A password of this policy: its length, only enabled kinds of characters, and each of them. */
  predicate Permitted(p: Policy, s: string) {
    && |s| == p.length
    && (forall k :: 0 <= k < |s| ==> Allowed(p, s[k]))
    && (p.lowercase ==> exists k :: 0 <= k < |s| && Lower(s[k]))
    && (p.uppercase ==> exists k :: 0 <= k < |s| && Upper(s[k]))
    && (p.digits ==> exists k :: 0 <= k < |s| && Digit(s[k]))
    && (p.symbols ==> exists k :: 0 <= k < |s| && Symbol(s[k]))
  }

  lemma Range(s: string, low: char, c: char)
    requires forall k :: 0 <= k < |s| ==> s[k] as int == low as int + k
    ensures c in s <==> low as int <= c as int < low as int + |s|
  {
    if low as int <= c as int < low as int + |s| { assert s[c as int - low as int] == c; }
  }

  lemma Letters(c: char)
    ensures c in LOWERCASE <==> Lower(c)
    ensures c in UPPERCASE <==> Upper(c)
  {
    var l, u := LOWERCASE, UPPERCASE;
    assert |l| == 26 && forall k :: 0 <= k < 26 ==> l[k] as int == 'a' as int + k;
    assert |u| == 26 && forall k :: 0 <= k < 26 ==> u[k] as int == 'A' as int + k;
    Range(l, 'a', c);
    Range(u, 'A', c);
  }

  lemma Digits(c: char)
    ensures c in DIGITS <==> Digit(c)
  {
    var d := DIGITS;
    assert |d| == 10 && forall k :: 0 <= k < 10 ==> d[k] as int == '0' as int + k;
    Range(d, '0', c);
  }

  function Chosen(p: Policy, l: string, u: string, d: string, y: string): seq<string> {
    (if p.lowercase then [l] else []) + (if p.uppercase then [u] else [])
    + (if p.digits then [d] else []) + (if p.symbols then [y] else [])
  }

  lemma Among(p: Policy, l: string, u: string, d: string, y: string, x: string)
    ensures x in Chosen(p, l, u, d, y) <==>
              (p.lowercase && x == l) || (p.uppercase && x == u) || (p.digits && x == d) || (p.symbols && x == y)
  {
    if p.lowercase { assert [l][0] == l; }
    var a, b, c, e := if p.lowercase then [l] else [], if p.uppercase then [u] else [],
                      if p.digits then [d] else [], if p.symbols then [y] else [];
    assert x in a + b + c + e <==> x in a || x in b || x in c || x in e;
  }
  lemma Symbols(c: char)
    ensures Symbol(c) ==> !Lower(c) && !Upper(c) && !Digit(c)
  {
    var y := SYMBOLS;
    assert |y| == 14 && forall k :: 0 <= k < 14 ==> !Lower(y[k]) && !Upper(y[k]) && !Digit(y[k]);
  }

  lemma Apart(p: Policy, l: string, u: string, d: string, y: string, i: nat, j: nat)
    requires l != u && l != d && l != y && u != d && u != y && d != y
    requires var s := Chosen(p, l, u, d, y); i < j < |s|
    ensures Chosen(p, l, u, d, y)[i] != Chosen(p, l, u, d, y)[j]
  {
  }

  lemma ClassIs(p: Policy, x: string)
    ensures x in Classes(p) <==>
              || (p.lowercase && x == LOWERCASE) || (p.uppercase && x == UPPERCASE)
              || (p.digits && x == DIGITS) || (p.symbols && x == SYMBOLS)
  {
    Among(p, LOWERCASE, UPPERCASE, DIGITS, SYMBOLS, x);
  }

  /** No character is of two classes. */
  lemma ClassesDisjoint(p: Policy, i: nat, j: nat, c: char)
    requires i < j < |Classes(p)| && c in Classes(p)[i]
    ensures c !in Classes(p)[j]
  {
    ClassIs(p, Classes(p)[i]);
    ClassIs(p, Classes(p)[j]);
    Letters(c);
    Digits(c);
    Symbols(c);
    assert LOWERCASE[0] == 'a' && UPPERCASE[0] == 'A' && DIGITS[0] == '0' && SYMBOLS[0] == '!';
    Apart(p, LOWERCASE, UPPERCASE, DIGITS, SYMBOLS, i, j);
  }
  predicate OneOf(p: Policy, l: string, u: string, d: string, y: string, x: string) {
    (p.lowercase && x == l) || (p.uppercase && x == u) || (p.digits && x == d) || (p.symbols && x == y)
  }

  ghost predicate Consists(p: Policy, classes: seq<string>, l: string, u: string, d: string, y: string) {
    forall x :: x in classes <==> OneOf(p, l, u, d, y, x)
  }

  lemma InSome(p: Policy, classes: seq<string>, l: string, u: string, d: string, y: string, c: char)
    requires Consists(p, classes, l, u, d, y)
    ensures (exists k :: 0 <= k < |classes| && c in classes[k]) <==>
              (p.lowercase && c in l) || (p.uppercase && c in u) || (p.digits && c in d) || (p.symbols && c in y)
  {
    if k :| 0 <= k < |classes| && c in classes[k] { assert classes[k] in classes; }
    if p.lowercase && c in l { assert OneOf(p, l, u, d, y, l); }
    if p.uppercase && c in u { assert OneOf(p, l, u, d, y, u); }
    if p.digits && c in d { assert OneOf(p, l, u, d, y, d); }
    if p.symbols && c in y { assert OneOf(p, l, u, d, y, y); }
  }

  lemma TouchesAll(p: Policy, classes: seq<string>, l: string, u: string, d: string, y: string, s: string)
    requires Consists(p, classes, l, u, d, y)
    ensures (forall k :: 0 <= k < |classes| ==> Touches(s, classes[k])) <==>
              && (p.lowercase ==> Touches(s, l)) && (p.uppercase ==> Touches(s, u))
              && (p.digits ==> Touches(s, d)) && (p.symbols ==> Touches(s, y))
  {
    hide Touches;
    if p.lowercase { assert OneOf(p, l, u, d, y, l); }
    if p.uppercase { assert OneOf(p, l, u, d, y, u); }
    if p.digits { assert OneOf(p, l, u, d, y, d); }
    if p.symbols { assert OneOf(p, l, u, d, y, y); }
    forall k | 0 <= k < |classes| ensures OneOf(p, l, u, d, y, classes[k]) { assert classes[k] in classes; }
  }

  lemma ClassesConsist(p: Policy)
    ensures Consists(p, Classes(p), LOWERCASE, UPPERCASE, DIGITS, SYMBOLS)
  {
    forall x ensures x in Classes(p) <==> OneOf(p, LOWERCASE, UPPERCASE, DIGITS, SYMBOLS, x) { ClassIs(p, x); }
  }

  lemma AllowedOnes(p: Policy, c: char)
    ensures c in Alphabet(Classes(p)) <==> Allowed(p, c)
  {
    AlphabetMembers(Classes(p));
    ClassesConsist(p);
    hide Classes, Alphabet, Consists;
    InSome(p, Classes(p), LOWERCASE, UPPERCASE, DIGITS, SYMBOLS, c);
    Letters(c);
    Digits(c);
  }

  lemma TouchesKind(s: string)
    ensures Touches(s, LOWERCASE) <==> exists k :: 0 <= k < |s| && Lower(s[k])
    ensures Touches(s, UPPERCASE) <==> exists k :: 0 <= k < |s| && Upper(s[k])
    ensures Touches(s, DIGITS) <==> exists k :: 0 <= k < |s| && Digit(s[k])
    ensures Touches(s, SYMBOLS) <==> exists k :: 0 <= k < |s| && Symbol(s[k])
  {
    forall k | 0 <= k < |s|
      ensures (s[k] in LOWERCASE <==> Lower(s[k])) && (s[k] in UPPERCASE <==> Upper(s[k]))
      ensures s[k] in DIGITS <==> Digit(s[k])
    {
      Letters(s[k]);
      Digits(s[k]);
    }
  }

  /** Using the classes of a policy is being a password of it. */
  lemma UsedIsPermitted(p: Policy, s: string)
    requires |s| == p.length
    ensures UsesClasses(Classes(p), s) <==> Permitted(p, s)
  {
    var classes := Classes(p);
    ClassesConsist(p);
    TouchesKind(s);
    hide Classes, Alphabet, Allowed, Lower, Upper, Digit, Symbol, Consists;
    forall k | 0 <= k < |s| ensures s[k] in Alphabet(classes) <==> Allowed(p, s[k]) { AllowedOnes(p, s[k]); }
    TouchesAll(p, classes, LOWERCASE, UPPERCASE, DIGITS, SYMBOLS, s);
  }
  /** Whatever is drawn makes a password of the policy. */
  lemma ComposedIsPermitted(p: Policy, indices: seq<nat>)
    requires ValidPolicy(p) && Planned(Classes(p), p.length, indices)
    ensures Permitted(p, Composed(Classes(p), p.length, indices))
  {
    var classes, length := Classes(p), p.length;
    PlanParts(classes, length, indices);
    hide Classes, Permitted, Planned, Choices;
    var picked := Picked(classes, length, indices[..length]);
    PickedUses(classes, length, indices[..length]);
    hide Picked;
    ShuffleKeepsRest(picked, length, indices[length..]);
    UsesAnyOrder(classes, picked, Shuffle(picked, length, indices[length..]));
    UsedIsPermitted(p, Shuffle(picked, length, indices[length..]));
  }

  lemma GeneratedIsPermitted(bytes: seq<Byte>, p: Policy)
    requires ValidPolicy(p) && Generated(bytes, Classes(p), p.length).Some?
    ensures Permitted(p, Generated(bytes, Classes(p), p.length).value)
  {
    hide Classes, Permitted, Composed, Draws, Plan;
    ComposedIsPermitted(p, Draws(bytes, Plan(Classes(p), p.length)).value.0);
  }

  lemma PickedUses(classes: seq<string>, length: nat, indices: seq<nat>)
    requires Usable(classes, length) && |indices| == length
    requires forall k :: 0 <= k < length ==>
               indices[k] < |Source(classes, k)|
    ensures UsesClasses(classes, Picked(classes, length, indices))
  {
    var picked := Picked(classes, length, indices);
    AlphabetMembers(classes);
    hide Alphabet;
    forall k | 0 <= k < length ensures picked[k] in Alphabet(classes) {
      if k < |classes| { assert picked[k] in classes[k]; }
    }
    UsesThem(classes, picked);
  }

  lemma PlanDrawn(bytes: seq<Byte>, classes: seq<string>, length: nat)
    requires Usable(classes, length)
    ensures Draws(bytes, Plan(classes, length)) ==
            Continued(Draws(bytes, Picks(classes, length)), Countdown(length))
  {
    DrawsOn(bytes, Picks(classes, length), Countdown(length));
  }

  /** Picked and then shuffled is composed. */
  lemma Assembled(classes: seq<string>, length: nat, picks: seq<nat>, choices: seq<nat>)
    requires Planned(classes, length, picks + choices) && |picks| == length
    ensures Choices(choices, length)
    ensures forall k :: 0 <= k < length ==>
              picks[k] < |Source(classes, k)|
    ensures Composed(classes, length, picks + choices) == Shuffle(Picked(classes, length, picks), length, choices)
  {
    var indices := picks + choices;
    PlanParts(classes, length, indices);
    assert indices[..length] == picks && indices[length..] == choices;
  }

  ghost predicate Disjoint(classes: seq<string>) {
    forall i, j, c :: 0 <= i < j < |classes| && c in classes[i] ==> c !in classes[j]
  }

  /** Any string that uses the classes can be put in an order that shows a character of each first. */
  lemma {:induction false} Arranged(classes: seq<string>, s: string, k: nat) returns (t: string)
    requires k <= |classes| <= |s| && Disjoint(classes)
    requires forall j :: 0 <= j < |classes| ==> Touches(s, classes[j])
    ensures |t| == |s| && multiset(t) == multiset(s) && forall j :: 0 <= j < k ==> t[j] in classes[j]
  {
    t := s;
    if k > 0 {
      var most := Arranged(classes, s, k - 1);
      assert Touches(s, classes[k - 1]);
      var at := StillTouches(s, most, classes[k - 1]);
      hide Touches;
      assert at >= k - 1;
      t := Swap(most, k - 1, at);
    }
  }

  lemma StillTouches(s: string, t: string, x: string) returns (at: nat)
    requires Touches(s, x) && multiset(s) == multiset(t)
    ensures at < |t| && t[at] in x
  {
    var j :| 0 <= j < |s| && s[j] in x;
    assert s[j] in multiset(s) && s[j] in multiset(t);
    at :| 0 <= at < |t| && t[at] == s[j];
  }

  /** Where a character stands. */
  function At(s: string, c: char): (i: nat)
    requires c in s
    ensures i < |s| && s[i] == c
  {
    if s[0] == c then 0 else At(s[1..], c) + 1
  }

  lemma FromSource(classes: seq<string>, t: string, k: nat)
    requires Usable(classes, |t|) && UsesClasses(classes, t) && k < |t|
    requires forall j :: 0 <= j < |classes| ==> t[j] in classes[j]
    ensures t[k] in Source(classes, k) && |Source(classes, k)| <= 256
  {
    AlphabetMembers(classes);
    hide Alphabet;
  }

  /** The picks that put these characters down. */
  lemma PicksFor(classes: seq<string>, t: string) returns (picks: seq<Byte>)
    requires Usable(classes, |t|) && UsesClasses(classes, t)
    requires forall j :: 0 <= j < |classes| ==> t[j] in classes[j]
    ensures |picks| == |t| && forall k :: 0 <= k < |t| ==> picks[k] < |Source(classes, k)|
    ensures Picked(classes, |t|, picks) == t
  {
    hide Alphabet, At, UsesClasses, Source, Usable;
    forall k | 0 <= k < |t| ensures t[k] in Source(classes, k) && |Source(classes, k)| <= 256 {
      FromSource(classes, t, k);
    }
    picks := seq(|t|, k requires 0 <= k < |t| => At(Source(classes, k), t[k]));
    assert Picked(classes, |t|, picks) == t;
  }

  /** Every password of the policy comes out of some stream of random bytes. */
  lemma EveryPassword(p: Policy, s: string) returns (bytes: seq<Byte>)
    requires ValidPolicy(p) && Permitted(p, s)
    ensures Generated(bytes, Classes(p), p.length) == Some(s)
  {
    var classes := Classes(p);
    UsedIsPermitted(p, s);
    ClassesApart(p);
    hide Classes, Permitted, Alphabet, Shuffle, Choices, Picked, Picks, Disjoint, UsesClasses;
    UsesThemAll(classes, s);
    var t := Arranged(classes, s, |classes|);
    UsesAnyOrder(classes, s, t);
    var picks := PicksFor(classes, t);
    var choices := ShuffleIsOnto(t, |t|, s);
    bytes := BytesFor(classes, |t|, picks, choices);
    Assembled(classes, |t|, picks, choices);
  }

  lemma UsesThemAll(classes: seq<string>, s: string)
    requires UsesClasses(classes, s)
    ensures forall j :: 0 <= j < |classes| ==> Touches(s, classes[j])
  {
  }

  lemma ClassesApart(p: Policy)
    ensures Disjoint(Classes(p))
  {
    forall i, j, c | 0 <= i < j < |Classes(p)| && c in Classes(p)[i] ensures c !in Classes(p)[j] {
      ClassesDisjoint(p, i, j, c);
    }
  }

  /** The stream that draws just these picks and choices. */
  lemma BytesFor(classes: seq<string>, length: nat, picks: seq<Byte>, choices: seq<nat>) returns (bytes: seq<Byte>)
    requires Usable(classes, length) && |picks| == length && Choices(choices, length)
    requires forall k :: 0 <= k < length ==> picks[k] < Picks(classes, length)[k]
    ensures Planned(classes, length, picks + choices)
    ensures Draws(bytes, Plan(classes, length)) == Some((picks + choices, []))
  {
    var plan := Plan(classes, length);
    var last: seq<Byte> := seq(|choices|, k requires 0 <= k < |choices| => choices[k]);
    hide Picks;
    bytes := picks + last;
    assert bytes == picks + choices;
    AnyDraws(bytes, plan, []);
    assert bytes + [] == bytes;
  }

  /** One character of each class, the rest of any, then shuffled. */
  method Generate(reader: Reader, policy: Policy) returns (r: Result<string, Failure>)
    modifies reader
    ensures r == Err(BadPolicy) <==>
              || policy.length < 8 || policy.length > 256
              || !(policy.lowercase || policy.uppercase || policy.digits || policy.symbols)
    ensures ValidPolicy(policy) ==>
              r == match Generated(old(reader.rest), Classes(policy), policy.length)
                   case None => Err(NoRandomness)
                   case Some(password) => Ok(password)
    ensures r.Ok? ==> Permitted(policy, r.value)
  {
    if !ValidPolicy(policy) { return Err(BadPolicy); }
    var classes := Classes(policy);
    hide Classes, Alphabet, Shuffle, Choices, Draws, Permitted, Plan, Composed, Picked, Picks;
    var result := new char[policy.length];
    ghost var bytes := reader.rest;
    PlanDrawn(bytes, classes, policy.length);
    var full := Pick(reader, classes, result);
    if !full { return Err(NoRandomness); }
    ghost var picked, d := result[..], Draws(bytes, Picks(classes, policy.length)).value;
    var choices := ShuffleInPlace(reader, result);
    if choices.None? { return Err(NoRandomness); }
    Assembled(classes, policy.length, d.0, choices.value);
    GeneratedIsPermitted(bytes, policy);
    return Ok(result[..]);
  }

  /** The characters before they are put in order. */
  method Pick(reader: Reader, classes: seq<string>, result: array<char>) returns (full: bool)
    requires Usable(classes, result.Length)
    modifies reader, result
    ensures match Draws(old(reader.rest), Picks(classes, result.Length))
            case None => !full
            case Some(d) => full && reader.rest == d.1 && result[..] == Picked(classes, result.Length, d.0)
  {
    hide Alphabet, Draws;
    AlphabetMembers(classes);
    DrawsOn(reader.rest, Lengths(classes), Repeated(|Alphabet(classes)|, result.Length - |classes|));
    var all := OneOfEach(reader, classes, result);
    if all.None? { return false; }
    full := FillUp(reader, classes, all.value, result);
  }

  /** The first characters, one from each class; the answer is all classes together. */
  method OneOfEach(reader: Reader, classes: seq<string>, result: array<char>) returns (all: Option<string>)
    requires |classes| <= result.Length && forall k :: 0 <= k < |classes| ==> 1 <= |classes[k]| <= 26
    modifies reader, result
    ensures match Draws(old(reader.rest), Lengths(classes))
            case None => all == None
            case Some(d) =>
              && all == Some(Alphabet(classes)) && reader.rest == d.1
              && forall j :: 0 <= j < |classes| ==> result[j] == classes[j][d.0[j]]
  {
    hide Draw, Draws, Alphabet;
    ghost var sizes := Lengths(classes);
    ghost var made: seq<nat> := [];
    var some := "";
    NothingDrawn(reader.rest, classes);
    for k := 0 to |classes|
      invariant some == Alphabet(classes[..k])
      invariant Draws(old(reader.rest), sizes[..k]) == Some((made, reader.rest)) && |made| == k
      invariant forall j :: 0 <= j < k ==> made[j] < |classes[j]| && result[j] == classes[j][made[j]]
    {
      some := some + classes[k];
      OneClassMore(classes, k);
      DrawsGo(old(reader.rest), sizes, k, made, reader.rest);
      var index := RandomIndex(reader, |classes[k]|);
      if index.None? { return None; }
      result[k] := classes[k][index.value];
      made := made + [index.value];
    }
    assert classes[..|classes|] == classes && sizes[..|classes|] == sizes;
    return Some(some);
  }

  lemma NothingDrawn(bytes: seq<Byte>, classes: seq<string>)
    ensures Draws(bytes, []) == Some(([], bytes)) && Alphabet([]) == ""
    ensures classes[..0] == [] && Lengths(classes)[..0] == []
  {
  }

  lemma OneClassMore(classes: seq<string>, k: nat)
    requires k < |classes|
    ensures Alphabet(classes[..k + 1]) == Alphabet(classes[..k]) + classes[k]
  {
    assert classes[..k + 1][..k] == classes[..k];
  }

  /** The remaining characters, from any class. */
  method FillUp(reader: Reader, classes: seq<string>, all: string, result: array<char>) returns (full: bool)
    requires 1 <= |all| <= 256 && |classes| <= result.Length
    modifies reader, result
    ensures match Draws(old(reader.rest), Repeated(|all|, result.Length - |classes|))
            case None => !full
            case Some(d) =>
              && full && reader.rest == d.1
              && (forall j :: 0 <= j < |classes| ==> result[j] == old(result[j]))
              && forall j :: |classes| <= j < result.Length ==> result[j] == all[d.0[j - |classes|]]
  {
    hide Draw, Draws;
    ghost var sizes := Repeated(|all|, result.Length - |classes|);
    ghost var made: seq<nat> := [];
    NothingDrawn(reader.rest, []);
    var filled := |classes|;
    while filled < result.Length
      invariant |classes| <= filled <= result.Length
      invariant Draws(old(reader.rest), sizes[..filled - |classes|]) == Some((made, reader.rest))
      invariant |made| == filled - |classes| && forall j :: 0 <= j < |made| ==> made[j] < |all|
      invariant forall j :: 0 <= j < |classes| ==> result[j] == old(result[j])
      invariant forall j :: |classes| <= j < filled ==> result[j] == all[made[j - |classes|]]
    {
      DrawsGo(old(reader.rest), sizes, filled - |classes|, made, reader.rest);
      var index := RandomIndex(reader, |all|);
      if index.None? { return false; }
      result[filled] := all[index.value];
      made := made + [index.value];
      filled := filled + 1;
    }
    assert sizes[..|sizes|] == sizes;
    return true;
  }

  /** Whatever is still to be chosen, the choices made so far lead from `was` to `now`. */
  ghost predicate Partly<T>(was: seq<T>, made: seq<nat>, now: seq<T>, m: nat) {
    && m <= |was| == |now|
    && forall c :: Choices(c, m) ==>
         Choices(made + c, |was|) && Shuffle(was, |was|, made + c) == Shuffle(now, m, c)
  }

  lemma NoneMade<T>(s: seq<T>)
    ensures Partly(s, [], s, |s|)
  {
    hide Shuffle, Choices;
    forall c | Choices(c, |s|) ensures Choices([] + c, |s|) && Shuffle(s, |s|, [] + c) == Shuffle(s, |s|, c) {
      assert [] + c == c;
    }
  }

  lemma OneMade<T>(was: seq<T>, made: seq<nat>, now: seq<T>, m: nat, i: nat)
    requires Partly(was, made, now, m) && 2 <= m && i < m
    ensures Partly(was, made + [i], Swap(now, m - 1, i), m - 1)
  {
    hide Shuffle, Choices;
    forall c | Choices(c, m - 1)
      ensures Choices(made + [i] + c, |was|) &&
              Shuffle(was, |was|, made + [i] + c) == Shuffle(Swap(now, m - 1, i), m - 1, c)
    {
      MoreChoices(now, m, i, c);
      assert made + [i] + c == made + ([i] + c);
    }
  }

  lemma AllMade<T>(was: seq<T>, made: seq<nat>, now: seq<T>, m: nat)
    requires Partly(was, made, now, m) && m <= 1
    ensures Choices(made, |was|) && now == Shuffle(was, |was|, made)
  {
    assert Choices([], m) && made + [] == made;
  }

  /** Swaps each position, from the last down, with one at or before it. */
  method ShuffleInPlace(reader: Reader, a: array<char>) returns (choices: Option<seq<nat>>)
    requires a.Length <= 256
    modifies reader, a
    ensures match Draws(old(reader.rest), Countdown(a.Length))
            case None => choices == None
            case Some(d) =>
              && choices == Some(d.0) && reader.rest == d.1
              && Choices(d.0, a.Length) && a[..] == Shuffle(old(a[..]), a.Length, d.0)
  {
    hide Shuffle, Choices, Partly, Draw, Draws;
    ghost var sizes := Countdown(a.Length);
    var made: seq<nat> := [];
    var m: nat := a.Length;
    NoneMade(a[..]);
    NothingDrawn(reader.rest, []);
    while m > 1
      invariant m <= a.Length && |made| == (if a.Length <= 1 then 0 else a.Length - m) && (m == 0 ==> a.Length == 0)
      invariant Partly(old(a[..]), made, a[..], m)
      invariant Draws(old(reader.rest), sizes[..|made|]) == Some((made, reader.rest))
    {
      DrawsGo(old(reader.rest), sizes, |made|, made, reader.rest);
      var index := RandomIndex(reader, m);
      if index.None? { return None; }
      var i := index.value;
      OneMade(old(a[..]), made, a[..], m, i);
      ghost var before := a[..];
      a[m - 1], a[i] := a[i], a[m - 1];
      assert a[..] == Swap(before, m - 1, i);
      made, m := made + [i], m - 1;
    }
    AllMade(old(a[..]), made, a[..], m);
    assert sizes[..|sizes|] == sizes;
    return Some(made);
  }
}

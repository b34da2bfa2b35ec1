/**
 * Redaction of captured output. Everything is said about positions of the original output: which
 * are dropped, which are kept and in what order, and how many labels stand for what was dropped.
 */
module Redactor {
  import opened Basics
  import Derivations
  import Ordering

  datatype Needle = Needle(text: string, mark: string)

  const MIN_NEEDLE := 8

  predicate OccursAt(text: string, out: string, i: nat) {
    i + |text| <= |out| && out[i..i + |text|] == text
  }

  /** The first occurrence at or after `from`; |out| when there is none. */
  function Index(text: string, out: string, from: nat): (i: nat)
    requires text != "" && from <= |out|
    ensures from <= i <= |out| && (i < |out| ==> OccursAt(text, out, i))
    ensures forall k :: from <= k < i ==> !OccursAt(text, out, k)
    decreases |out| - from
  {
    if from == |out| || OccursAt(text, out, from) then from else Index(text, out, from + 1)
  }

  // ----- What is to be dropped -----------------------------------------------------------------

  datatype Span = Span(start: nat, end: nat, mark: string)

  /** The output ends with the first `k` characters of a needle, but not with all of it. */
  predicate EndsInto(text: string, out: string, k: nat) {
    1 <= k < |text| && k <= |out| && out[|out| - k..] == text[..k]
  }

  /** An occurrence of the needle, or the longest fragment of it at the end of cut output. */
  predicate IsSpanOf(n: Needle, out: string, cut: bool, sp: Span) {
    && sp.mark == n.mark
    && ((OccursAt(n.text, out, sp.start) && sp.end == sp.start + |n.text|) ||
        (cut && sp.start < |out| == sp.end && EndsInto(n.text, out, |out| - sp.start) &&
         forall k :: |out| - sp.start < k < |n.text| ==> !EndsInto(n.text, out, k)))
  }

  ghost predicate IsSpan(needles: seq<Needle>, out: string, cut: bool, sp: Span) {
    exists n :: n in needles && IsSpanOf(n, out, cut, sp)
  }

  ghost predicate InOccurrence(needles: seq<Needle>, out: string, k: nat) {
    exists n, i: nat :: n in needles && OccursAt(n.text, out, i) && i <= k < i + |n.text|
  }

  /** In a trailing fragment of a needle, of any length. */
  ghost predicate InFragment(needles: seq<Needle>, out: string, k: nat) {
    exists n, t :: n in needles && EndsInto(n.text, out, t) && |out| - t <= k < |out|
  }

  /** Dropped is what lies in an occurrence and, of cut output, what may be the start of one. */
  ghost predicate Dropped(needles: seq<Needle>, out: string, cut: bool, k: nat) {
    InOccurrence(needles, out, k) || (cut && InFragment(needles, out, k))
  }

  /** A span that began before position `k` reaches it. */
  ghost predicate Reached(needles: seq<Needle>, out: string, cut: bool, k: nat) {
    exists sp :: IsSpan(needles, out, cut, sp) && sp.start < k < sp.end
  }

  /** Where a merged span begins, and with it a label. */
  ghost predicate LabelAt(needles: seq<Needle>, out: string, cut: bool, k: nat) {
    Dropped(needles, out, cut, k) && !Reached(needles, out, cut, k)
  }

  /** The first `p` positions redacted: kept ones in order, labels where merged spans begin. */
  ghost function Redacted(needles: seq<Needle>, out: string, cut: bool, marks: map<nat, string>, p: nat): string
    requires p <= |out|
  {
    if p == 0 then ""
    else
      Redacted(needles, out, cut, marks, p - 1)
      + (if LabelAt(needles, out, cut, p - 1) && p - 1 in marks then marks[p - 1] else "")
      + (if Dropped(needles, out, cut, p - 1) then "" else [out[p - 1]])
  }

  ghost function LabelCount(needles: seq<Needle>, out: string, cut: bool, p: nat): nat {
    if p == 0 then 0 else LabelCount(needles, out, cut, p - 1) + if LabelAt(needles, out, cut, p - 1) then 1 else 0
  }

  /** Every label is that of a span beginning at its position. */
  ghost predicate MarksFit(needles: seq<Needle>, out: string, cut: bool, marks: map<nat, string>) {
    forall k: nat :: k < |out| && LabelAt(needles, out, cut, k) ==>
      k in marks && exists sp :: IsSpan(needles, out, cut, sp) && sp.start == k && sp.mark == marks[k]
  }

  /** Which of several spans beginning at one position gives the label is left open. */
  ghost predicate IsRedaction(needles: seq<Needle>, out: string, cut: bool, result: string, count: nat) {
    && count == LabelCount(needles, out, cut, |out|)
    && exists marks :: MarksFit(needles, out, cut, marks) && result == Redacted(needles, out, cut, marks, |out|)
  }

  // ----- The same over a list of spans ---------------------------------------------------------

  /** A list of all spans, each any number of times, in any order. */
  ghost predicate AllSpans(needles: seq<Needle>, out: string, cut: bool, spans: seq<Span>) {
    forall sp :: sp in spans <==> IsSpan(needles, out, cut, sp)
  }

  /** Position `k` lies in a span. */
  predicate Covered(spans: seq<Span>, k: nat) {
    exists sp :: sp in spans && sp.start <= k < sp.end
  }

  /** Position `k` lies in a span, and no span that began earlier reaches it: a label goes here. */
  predicate Begins(spans: seq<Span>, k: nat) { Covered(spans, k) && !Crossed(spans, k) }

  /** A span that began before position `k` reaches it. */
  predicate Crossed(spans: seq<Span>, k: nat) {
    exists sp :: sp in spans && sp.start < k < sp.end
  }

  /** The first `p` positions redacted: uncovered ones as they are, labels where merged spans begin. */
  function Rendered(spans: seq<Span>, out: string, labels: map<nat, string>, p: nat): string
    requires p <= |out|
  {
    if p == 0 then ""
    else
      Rendered(spans, out, labels, p - 1)
      + (if Begins(spans, p - 1) && p - 1 in labels then labels[p - 1] else "")
      + (if Covered(spans, p - 1) then "" else [out[p - 1]])
  }

  function CountBegins(spans: seq<Span>, p: nat): nat {
    if p == 0 then 0 else CountBegins(spans, p - 1) + if Begins(spans, p - 1) then 1 else 0
  }

  /** Every label is that of a span beginning at its position. */
  predicate LabelsFit(spans: seq<Span>, labels: map<nat, string>, p: nat) {
    forall k :: 0 <= k < p && Begins(spans, k) ==>
      k in labels && exists sp :: sp in spans && sp.start == k && sp.mark == labels[k]
  }

  predicate WellPlaced(spans: seq<Span>, out: string) {
    forall sp :: sp in spans ==> sp.start < sp.end <= |out|
  }

  predicate ByStart(spans: seq<Span>) {
    forall i, j :: 0 <= i < j < |spans| ==> spans[i].start <= spans[j].start
  }

  // ----- Searching -----------------------------------------------------------------------------

  method Occurrences(n: Needle, out: string) returns (found: seq<Span>)
    requires n.text != ""
    ensures forall sp :: sp in found <==>
              sp.mark == n.mark && OccursAt(n.text, out, sp.start) && sp.end == sp.start + |n.text|
  {
    found := [];
    var from := 0;
    while from < |out|
      invariant from <= |out|
      invariant forall sp :: sp in found <==>
                  sp.mark == n.mark && OccursAt(n.text, out, sp.start) && sp.end == sp.start + |n.text|
                    && sp.start < from
      decreases |out| - from
    {
      var i := Index(n.text, out, from);
      if i == |out| { break; }
      found := found + [Span(i, i + |n.text|, n.mark)];
      from := i + 1;
    }
  }

  /** The longest fragment of the needle that ends the output, if any. */
  method Fragment(n: Needle, out: string) returns (found: Option<Span>)
    ensures found.Some? ==>
              IsSpanOf(n, out, true, found.value) && found.value.end == |out|
              && EndsInto(n.text, out, |out| - found.value.start)
    ensures found.None? ==> forall k: nat :: !EndsInto(n.text, out, k)
    ensures found.Some? ==> forall k: nat :: EndsInto(n.text, out, k) ==> k <= |out| - found.value.start
  {
    var k := if |n.text| - 1 < |out| then |n.text| - 1 else |out|;
    while k >= 1
      invariant k < |n.text| || k <= 0
      invariant k <= |out|
      invariant forall j :: j > k && j >= 1 ==> !EndsInto(n.text, out, j)
    {
      if out[|out| - k..] == n.text[..k] {
        return Some(Span(|out| - k, |out|, n.mark));
      }
      k := k - 1;
    }
    return None;
  }

  predicate NeedlesOk(needles: seq<Needle>) {
    forall n :: n in needles ==> n.text != ""
  }

  lemma NeedleSpans(n: Needle, out: string, cut: bool, found: seq<Span>, fragment: Option<Span>)
    requires forall sp :: sp in found <==>
               sp.mark == n.mark && OccursAt(n.text, out, sp.start) && sp.end == sp.start + |n.text|
    requires cut && fragment.Some? ==>
               IsSpanOf(n, out, true, fragment.value) && EndsInto(n.text, out, |out| - fragment.value.start)
    requires cut && fragment.Some? ==> fragment.value.end == |out| && forall k: nat :: EndsInto(n.text, out, k) ==>
               k <= |out| - fragment.value.start
    requires cut && fragment.None? ==> forall k: nat :: !EndsInto(n.text, out, k)
    ensures forall sp :: IsSpanOf(n, out, cut, sp) <==> sp in found || (cut && fragment == Some(sp))
  {
    hide OccursAt, EndsInto;
    forall sp ensures IsSpanOf(n, out, cut, sp) <==> sp in found || (cut && fragment == Some(sp)) {
      if IsSpanOf(n, out, cut, sp) && sp !in found {
        var k := |out| - sp.start;
        assert EndsInto(n.text, out, k);
        var most := |out| - fragment.value.start;
        assert EndsInto(n.text, out, most) && k <= most;
        FragmentShort(n.text, out, most);
      }
    }
  }

  lemma FragmentShort(text: string, out: string, k: nat)
    requires EndsInto(text, out, k)
    ensures k < |text|
  {
  }

  method FindSpans(needles: seq<Needle>, out: string, cut: bool) returns (spans: seq<Span>)
    requires NeedlesOk(needles)
    ensures AllSpans(needles, out, cut, spans)
  {
    hide IsSpanOf, OccursAt, EndsInto;
    spans := [];
    for a := 0 to |needles|
      invariant forall sp :: sp in spans <==> IsSpan(needles[..a], out, cut, sp)
    {
      var n := needles[a];
      assert n in needles;
      var found := Occurrences(n, out);
      var fragment := None;
      if cut { fragment := Fragment(n, out); }
      NeedleSpans(n, out, cut, found, fragment);
      OneMoreNeedle(needles, a, out, cut);
      spans := spans + found + (if fragment.Some? then [fragment.value] else []);
    }
    assert needles[..|needles|] == needles;
  }

  lemma OneMoreNeedle(needles: seq<Needle>, a: nat, out: string, cut: bool)
    requires a < |needles|
    ensures forall sp :: IsSpan(needles[..a + 1], out, cut, sp) <==>
              IsSpan(needles[..a], out, cut, sp) || IsSpanOf(needles[a], out, cut, sp)
  {
    hide IsSpanOf;
    assert needles[..a + 1] == needles[..a] + [needles[a]];
    forall sp
      ensures IsSpan(needles[..a + 1], out, cut, sp) <==>
                IsSpan(needles[..a], out, cut, sp) || IsSpanOf(needles[a], out, cut, sp)
    {
      assert forall n :: n in needles[..a + 1] <==> n in needles[..a] || n == needles[a];
    }
  }

  lemma SpansWellPlaced(needles: seq<Needle>, out: string, cut: bool, spans: seq<Span>)
    requires NeedlesOk(needles) && AllSpans(needles, out, cut, spans)
    ensures WellPlaced(spans, out)
  {
    forall sp | sp in spans ensures sp.start < sp.end <= |out| {
      assert IsSpan(needles, out, cut, sp);
    }
  }

  /** Sorting by start leaves spans that start together in any order. */
  method SortByStart(spans: seq<Span>) returns (sorted: seq<Span>)
    ensures ByStart(sorted) && forall sp :: sp in sorted <==> sp in spans
  {
    sorted := [];
    for i := 0 to |spans|
      invariant ByStart(sorted) && forall sp :: sp in sorted <==> sp in spans[..i]
    {
      var k := |sorted|;
      while k > 0 && sorted[k - 1].start > spans[i].start
        invariant 0 <= k <= |sorted| && forall j :: k <= j < |sorted| ==> sorted[j].start > spans[i].start
      {
        k := k - 1;
      }
      Inserted(sorted, k, spans[i]);
      sorted := sorted[..k] + [spans[i]] + sorted[k..];
      assert spans[..i + 1] == spans[..i] + [spans[i]];
    }
    assert spans[..|spans|] == spans;
  }

  lemma Inserted(s: seq<Span>, k: nat, x: Span)
    requires k <= |s| && ByStart(s)
    requires (k > 0 ==> s[k - 1].start <= x.start) && forall j :: k <= j < |s| ==> s[j].start > x.start
    ensures ByStart(s[..k] + [x] + s[k..])
    ensures forall sp :: sp in s[..k] + [x] + s[k..] <==> sp in s || sp == x
  {
    var t := s[..k] + [x] + s[k..];
    forall i, j | 0 <= i < j < |t| ensures t[i].start <= t[j].start {
      if i < k { assert t[i] == s[i] && s[i].start <= x.start; } else if i > k { assert t[i] == s[i - 1]; }
      if j < k { assert t[j] == s[j]; } else if j > k { assert t[j] == s[j - 1]; }
    }
    forall sp ensures sp in t <==> sp in s || sp == x {
      if sp in s {
        var m :| 0 <= m < |s| && s[m] == sp;
        assert t[if m < k then m else m + 1] == sp;
      }
    }
  }

  // ----- Merging -------------------------------------------------------------------------------

  /** Between spans nothing changes. */
  lemma {:induction false} Gap(spans: seq<Span>, out: string, marks: map<nat, string>, p: nat, q: nat)
    requires p <= q <= |out| && forall k :: p <= k < q ==> !Covered(spans, k)
    ensures Rendered(spans, out, marks, q) == Rendered(spans, out, marks, p) + out[p..q]
    ensures CountBegins(spans, q) == CountBegins(spans, p)
    decreases q
  {
    if p < q {
      Gap(spans, out, marks, p, q - 1);
      assert !Covered(spans, q - 1);
      hide Covered;
      assert out[p..q] == out[p..q - 1] + [out[q - 1]];
    }
  }

  lemma CrossedIsCovered(spans: seq<Span>, k: nat)
    requires Crossed(spans, k)
    ensures Covered(spans, k)
  {
  }

  /** Inside a merged span nothing is written. */
  lemma {:induction false} Inside(spans: seq<Span>, out: string, marks: map<nat, string>, p: nat, q: nat)
    requires p <= q <= |out| && forall k: nat :: p <= k < q ==> Crossed(spans, k)
    ensures Rendered(spans, out, marks, q) == Rendered(spans, out, marks, p)
    ensures CountBegins(spans, q) == CountBegins(spans, p)
    decreases q
  {
    if p < q {
      Inside(spans, out, marks, p, q - 1);
      CrossedIsCovered(spans, q - 1);
      hide Covered, Crossed;
    }
  }

  /** A new label changes nothing before its position. */
  lemma {:induction false} LaterMark(spans: seq<Span>, out: string, marks: map<nat, string>, at: nat, mark: string,
                                     p: nat)
    requires p <= |out| && p <= at
    ensures Rendered(spans, out, marks[at := mark], p) == Rendered(spans, out, marks, p)
  {
    hide Covered, Begins;
    if p > 0 { LaterMark(spans, out, marks, at, mark, p - 1); }
  }

  /** One merged span: its label at its first position, and no more. */
  lemma Merged(spans: seq<Span>, out: string, marks: map<nat, string>, pos: nat, start: nat, end: nat, mark: string)
    requires pos <= start < end <= |out| && (forall k :: pos <= k < start ==> !Covered(spans, k))
    requires Begins(spans, start) && forall k: nat :: start < k < end ==> Crossed(spans, k)
    ensures var after := marks[start := mark];
            && Rendered(spans, out, after, end) == Rendered(spans, out, marks, pos) + out[pos..start] + mark
            && CountBegins(spans, end) == CountBegins(spans, pos) + 1
  {
    var after := marks[start := mark];
    Gap(spans, out, marks, pos, start);
    LaterMark(spans, out, marks, start, mark, start);
    Inside(spans, out, after, start + 1, end);
    hide Begins, Covered;
    assert Covered(spans, start) by { BeginsIsCovered(spans, start); }
  }

  lemma BeginsIsCovered(spans: seq<Span>, k: nat)
    requires Begins(spans, k)
    ensures Covered(spans, k)
  {
  }

  lemma NoSpans(spans: seq<Span>, out: string)
    requires spans == []
    ensures Rendered(spans, out, map[], |out|) == out && CountBegins(spans, |out|) == 0
              && LabelsFit(spans, map[], |out|)
  {
    Gap(spans, out, map[], 0, |out|);
    assert out[0..|out|] == out && "" + out == out;
  }

  /** The redacted output and the number of labels in it. */
  method Redact(needles: seq<Needle>, out: string, cut: bool) returns (result: string, count: nat)
    requires NeedlesOk(needles)
    ensures IsRedaction(needles, out, cut, result, count)
  {
    hide IsRedaction;
    var found := FindSpans(needles, out, cut);
    if found == [] {
      NoSpans(found, out);
      RenderingIsRedaction(needles, out, cut, found, map[]);
      return out, 0;
    }
    var sorted := SortByStart(found);
    SpansWellPlaced(needles, out, cut, sorted);
    ghost var marks;
    result, count, marks := Merge(sorted, out);
    RenderingIsRedaction(needles, out, cut, sorted, marks);
  }

  /** Where the merge stands: everything before `pos` is written, nothing after it has begun. */
  predicate MergedTo(spans: seq<Span>, i: nat, pos: nat) {
    && i <= |spans| && (forall k :: 0 <= k < i ==> spans[k].end <= pos)
    && forall k :: i <= k < |spans| ==> spans[k].start >= pos
  }

  method Merge(spans: seq<Span>, out: string) returns (result: string, count: nat, ghost marks: map<nat, string>)
    requires ByStart(spans) && WellPlaced(spans, out)
    ensures LabelsFit(spans, marks, |out|)
    ensures result == Rendered(spans, out, marks, |out|) && count == CountBegins(spans, |out|)
  {
    result, count, marks := "", 0, map[];
    var pos: nat, i: nat := 0, 0;
    while i < |spans|
      invariant pos <= |out| && MergedTo(spans, i, pos) && LabelsFit(spans, marks, pos)
      invariant result == Rendered(spans, out, marks, pos) && count == CountBegins(spans, pos)
    {
      var start, mark := spans[i].start, spans[i].mark;
      var end, j := OneGroup(spans, out, i);
      GroupFits(spans, out, i, pos, end, j);
      Merged(spans, out, marks, pos, start, end, mark);
      MarkFits(spans, marks, i, pos, end, j);
      result := result + out[pos..start] + mark;
      marks := marks[start := mark];
      pos, count, i := end, count + 1, j;
    }
    RestIsClear(spans, pos, out);
    Gap(spans, out, marks, pos, |out|);
    result := result + out[pos..];
    assert out[pos..|out|] == out[pos..];
    LabelsToEnd(spans, marks, pos, |out|);
  }

  /** Extends a merged span over every span that overlaps it. */
  method OneGroup(spans: seq<Span>, out: string, i: nat) returns (end: nat, j: nat)
    requires ByStart(spans) && WellPlaced(spans, out) && i < |spans|
    ensures i < j <= |spans| && spans[i].start < end <= |out|
    ensures forall k :: i <= k < j ==> spans[k].end <= end
    ensures j < |spans| ==> spans[j].start >= end
    ensures forall p: nat :: spans[i].start < p < end ==> Crossed(spans, p)
  {
    end, j := spans[i].end, i + 1;
    assert spans[i] in spans;
    assert forall p: nat :: spans[i].start < p < end ==> Crossed(spans, p);
    hide Crossed;
    while j < |spans| && spans[j].start < end
      invariant i < j <= |spans| && spans[i].start < end <= |out|
      invariant forall k :: i <= k < j ==> spans[k].end <= end
      invariant forall p: nat :: spans[i].start < p < end ==> Crossed(spans, p)
    {
      assert spans[j] in spans && spans[i].start <= spans[j].start;
      CrossedOn(spans, spans[i].start, end, spans[j]);
      end := if spans[j].end > end then spans[j].end else end;
      j := j + 1;
    }
  }

  /** Appending an overlapping span leaves no seam. */
  lemma CrossedOn(spans: seq<Span>, start: nat, end: nat, next: Span)
    requires next in spans && start <= next.start < end
    requires forall p: nat :: start < p < end ==> Crossed(spans, p)
    ensures forall p: nat :: start < p < (if next.end > end then next.end else end) ==> Crossed(spans, p)
  {
  }

  lemma GroupFits(spans: seq<Span>, out: string, i: nat, pos: nat, end: nat, j: nat)
    requires ByStart(spans) && WellPlaced(spans, out) && i < |spans| && MergedTo(spans, i, pos)
    requires i < j <= |spans| && spans[i].start < end && (forall k :: i <= k < j ==> spans[k].end <= end)
    requires j < |spans| ==> spans[j].start >= end
    ensures MergedTo(spans, j, end) && pos <= spans[i].start
    ensures Begins(spans, spans[i].start) && forall k :: pos <= k < spans[i].start ==> !Covered(spans, k)
  {
    var start := spans[i].start;
    assert spans[i] in spans;
    assert Covered(spans, start);
    forall sp | sp in spans ensures sp.end <= pos || sp.start >= start {
      var m :| 0 <= m < |spans| && spans[m] == sp;
    }
  }

  lemma MarkFits(spans: seq<Span>, marks: map<nat, string>, i: nat, pos: nat, end: nat, j: nat)
    requires i < |spans| && LabelsFit(spans, marks, pos) && pos <= spans[i].start < end
    requires forall k :: pos <= k < spans[i].start ==> !Covered(spans, k)
    requires forall p: nat :: spans[i].start < p < end ==> Crossed(spans, p)
    ensures LabelsFit(spans, marks[spans[i].start := spans[i].mark], end)
  {
    var after := marks[spans[i].start := spans[i].mark];
    assert spans[i] in spans;
    hide Covered, Crossed;
    forall k: nat | k < end && Begins(spans, k)
      ensures k in after && exists sp :: sp in spans && sp.start == k && sp.mark == after[k]
    {
      if k < pos { assert k != spans[i].start; }
    }
  }

  lemma RestIsClear(spans: seq<Span>, pos: nat, out: string)
    requires MergedTo(spans, |spans|, pos)
    ensures forall k :: pos <= k < |out| ==> !Covered(spans, k)
  {
    forall sp | sp in spans ensures sp.end <= pos {
      var m :| 0 <= m < |spans| && spans[m] == sp;
    }
  }

  lemma LabelsToEnd(spans: seq<Span>, marks: map<nat, string>, pos: nat, end: nat)
    requires LabelsFit(spans, marks, pos) && pos <= end && forall k :: pos <= k < end ==> !Covered(spans, k)
    ensures LabelsFit(spans, marks, end)
  {
    forall k: nat | k < end && Begins(spans, k)
      ensures k in marks && exists sp :: sp in spans && sp.start == k && sp.mark == marks[k]
    {
      BeginsIsCovered(spans, k);
    }
  }

  // ----- From lists of spans to needles --------------------------------------------------------

  /** Exactly the occurrences are dropped, and of cut output exactly the trailing fragments too. */
  lemma DroppedExactly(needles: seq<Needle>, out: string, cut: bool, spans: seq<Span>, k: nat)
    requires AllSpans(needles, out, cut, spans) && k < |out|
    ensures Covered(spans, k) <==> Dropped(needles, out, cut, k)
  {
    hide OccursAt, EndsInto;
    if Covered(spans, k) {
      var sp :| sp in spans && sp.start <= k < sp.end;
      assert IsSpan(needles, out, cut, sp);
      var n :| n in needles && IsSpanOf(n, out, cut, sp);
      if OccursAt(n.text, out, sp.start) && sp.end == sp.start + |n.text| {
        assert InOccurrence(needles, out, k);
      } else {
        assert EndsInto(n.text, out, |out| - sp.start);
        assert InFragment(needles, out, k);
      }
    }
    if InOccurrence(needles, out, k) {
      var n, i: nat :| n in needles && OccursAt(n.text, out, i) && i <= k < i + |n.text|;
      var sp := Span(i, i + |n.text|, n.mark);
      assert IsSpanOf(n, out, cut, sp);
      assert IsSpan(needles, out, cut, sp);
    }
    if cut && InFragment(needles, out, k) {
      var n, t :| n in needles && EndsInto(n.text, out, t) && |out| - t <= k < |out|;
      var most := LongestFragment(n.text, out, t);
      var sp := Span(|out| - most, |out|, n.mark);
      assert IsSpanOf(n, out, cut, sp);
      assert IsSpan(needles, out, cut, sp);
    }
  }

  lemma LongestFragment(text: string, out: string, t: nat) returns (most: nat)
    requires EndsInto(text, out, t)
    ensures EndsInto(text, out, most) && t <= most <= |out| && forall k :: most < k < |text| ==> !EndsInto(text, out, k)
    decreases |text| - t
  {
    if k :| t < k < |text| && EndsInto(text, out, k) {
      most := LongestFragment(text, out, k);
    } else {
      most := t;
    }
  }

  lemma BeginsExactly(needles: seq<Needle>, out: string, cut: bool, spans: seq<Span>, k: nat)
    requires AllSpans(needles, out, cut, spans) && k < |out|
    ensures Begins(spans, k) <==> LabelAt(needles, out, cut, k)
  {
    DroppedExactly(needles, out, cut, spans, k);
    hide IsSpan;
  }

  lemma {:induction false} RenderedMeans(needles: seq<Needle>, out: string, cut: bool, spans: seq<Span>, marks: map<nat,
                                         string>, p: nat)
    requires AllSpans(needles, out, cut, spans) && p <= |out|
    ensures Rendered(spans, out, marks, p) == Redacted(needles, out, cut, marks, p)
    ensures CountBegins(spans, p) == LabelCount(needles, out, cut, p)
  {
    if p > 0 {
      RenderedMeans(needles, out, cut, spans, marks, p - 1);
      DroppedExactly(needles, out, cut, spans, p - 1);
      BeginsExactly(needles, out, cut, spans, p - 1);
      hide AllSpans, Covered, Begins, Dropped, LabelAt;
    }
  }

  lemma RenderingIsRedaction(needles: seq<Needle>, out: string, cut: bool, spans: seq<Span>, marks: map<nat, string>)
    requires AllSpans(needles, out, cut, spans) && LabelsFit(spans, marks, |out|)
    ensures IsRedaction(needles, out, cut, Rendered(spans, out, marks, |out|), CountBegins(spans, |out|))
  {
    RenderedMeans(needles, out, cut, spans, marks, |out|);
    forall k: nat | k < |out| && LabelAt(needles, out, cut, k)
      ensures k in marks && exists sp :: IsSpan(needles, out, cut, sp) && sp.start == k && sp.mark == marks[k]
    {
      BeginsExactly(needles, out, cut, spans, k);
      hide LabelAt, Begins, IsSpan;
      var sp :| sp in spans && sp.start == k && sp.mark == marks[k];
      assert IsSpan(needles, out, cut, sp);
    }
    assert MarksFit(needles, out, cut, marks);
  }

  // ----- Capture -------------------------------------------------------------------------------

  function Min(a: nat, b: nat): nat { if a < b then a else b }

  class Capture {
    const limit: nat
    var buf: string
    var cut: bool
    ghost var stream: string          // everything the child wrote

    constructor (limit: nat)
      ensures Valid() && this.limit == limit && stream == ""
    {
      this.limit, buf, cut, stream := limit, "", false, "";
    }

    /** The start of the stream, and a flag that never misses a loss. */
    ghost predicate Valid()
      reads this
    {
      && buf == stream[..Min(limit, |stream|)]
      && (|stream| > limit ==> cut) && (cut ==> |stream| >= limit)
    }

    method Write(p: string) returns (n: nat)
      requires Valid()
      modifies this
      ensures Valid() && stream == old(stream) + p && n == |p|
    {
      stream := stream + p;
      n := |p|;
      var room := limit - |buf|;
      if room <= 0 {
        cut := true;
        return;
      }
      if |p| > room {
        buf := buf + p[..room];
        cut := true;
        return;
      }
      buf := buf + p;
    }
  }

  /**
   * Every captured position inside an occurrence of a needle in the whole stream is dropped, also
   * when the end of the occurrence was never captured.
   */
  lemma NothingLeaks(needles: seq<Needle>, stream: string, limit: nat, cut: bool, n: Needle, i: nat, k: nat)
    requires |stream| > limit ==> cut
    requires n in needles && OccursAt(n.text, stream, i) && i <= k < i + |n.text| && k < limit
    ensures Dropped(needles, stream[..Min(limit, |stream|)], cut, k)
  {
    var out := stream[..Min(limit, |stream|)];
    if i + |n.text| <= |out| {
      assert out[i..i + |n.text|] == stream[i..i + |n.text|];
      assert OccursAt(n.text, out, i);
      assert InOccurrence(needles, out, k);
    } else {
      var t := |out| - i;
      assert out[|out| - t..] == stream[i..i + |n.text|][..t];
      assert EndsInto(n.text, out, t);
      assert InFragment(needles, out, k);
    }
  }

  const RETURN_BYTES := 262144

  method Clip(b: string) returns (r: string, truncated: bool)
    ensures r == (if |b| <= 262144 then b else b[..262144]) && (truncated <==> |b| > 262144)
  {
    if |b| <= RETURN_BYTES { return b, false; }
    return b[..RETURN_BYTES], true;
  }

  /** From the captured stream to what is returned: redacted first, clipped last. */
  method Return(needles: seq<Needle>, capture: Capture) returns (text: string, truncated: bool, count: nat)
    requires NeedlesOk(needles) && capture.Valid()
    ensures exists all ::
              && IsRedaction(needles, capture.buf, capture.cut, all, count)
              && text == all[..Min(RETURN_BYTES, |all|)] && (truncated <==> capture.cut || |all| > RETURN_BYTES)
    ensures forall n, i: nat, k: nat ::
              n in needles && OccursAt(n.text, capture.stream, i) && i <= k < i + |n.text| && k < |capture.buf| ==>
              Dropped(needles, capture.buf, capture.cut, k)
  {
    hide IsRedaction;
    forall n, i: nat, k: nat | n in needles && OccursAt(n.text, capture.stream, i) && i <= k < i + |n.text|
      && k < |capture.buf|
      ensures Dropped(needles, capture.buf, capture.cut, k)
    {
      NothingLeaks(needles, capture.stream, capture.limit, capture.cut, n, i, k);
    }
    var all;
    all, count := Redact(needles, capture.buf, capture.cut);
    var clipped;
    text, clipped := Clip(all);
    truncated := capture.cut || clipped;
  }

  // ----- Needles -------------------------------------------------------------------------------

  function Mark(name: string): string { "[REDACTED:" + name + "]" }

  predicate LongestFirst(needles: seq<Needle>) {
    forall i, j :: 0 <= i < j < |needles| ==> |needles[i].text| >= |needles[j].text|
  }

  /** A needle for a form of the `k`th name that no name before it has. */
  predicate FirstOwner(names: seq<string>, values: map<string, string>, forms: string -> seq<string>, n: Needle, k: nat)
    requires forall name :: name in names ==> name in values
  {
    && k < |names| && n.mark == Mark(names[k]) && |n.text| >= MIN_NEEDLE && n.text in forms(values[names[k]])
    && forall j :: 0 <= j < k ==> n.text !in forms(values[names[j]])
  }

  function TextsOf(needles: seq<Needle>): set<string> { set n | n in needles :: n.text }

  /** The needles after the first `i` names. */
  ghost predicate Built(names: seq<string>, values: map<string, string>, forms: string -> seq<string>, i: nat,
                        found: seq<Needle>)
    requires (forall name :: name in names ==> name in values) && i <= |names|
  {
    && (forall f :: f in TextsOf(found) ==> exists j :: 0 <= j < i && f in forms(values[names[j]]))
    && (forall j, f :: 0 <= j < i && f in forms(values[names[j]]) && |f| >= MIN_NEEDLE ==> f in TextsOf(found))
    && forall n :: n in found ==> exists k :: FirstOwner(names, values, forms, n, k)
  }

  lemma TextsGrow(found: seq<Needle>, n: Needle)
    ensures TextsOf(found + [n]) == TextsOf(found) + {n.text}
  {
    assert n in found + [n] && forall m :: m in found + [n] <==> m in found || m == n;
    forall f | f in TextsOf(found) + {n.text} ensures f in TextsOf(found + [n]) {
      if f in TextsOf(found) {
        var m :| m in found && m.text == f;
        assert m in found + [n];
      }
    }
  }

  /**
   * One needle for every form of every value that is long enough, labelled with the first name in
   * byte order that has it. `forms` lists the encodings of a value.
   */
  method NewRedactor(values: map<string, string>, forms: string -> seq<string>)
    returns (needles: seq<Needle>, ghost names: seq<string>)
    ensures NeedlesOk(needles) && LongestFirst(needles) && names == Derivations.SortedKeys(values.Keys)
    ensures forall name :: name in names <==> name in values
    ensures forall name, f :: name in values && f in forms(values[name]) && |f| >= 8 ==>
              exists n :: n in needles && n.text == f
    ensures forall n :: n in needles ==> |n.text| >= 8 && exists name :: Names(values, forms, n, name)
  {
    var sorted := Derivations.SortedNames(values.Keys);
    names := sorted;
    var seen: set<string> := {};
    var found: seq<Needle> := [];
    hide FirstOwner;
    for i := 0 to |sorted|
      invariant seen == TextsOf(found) && Built(sorted, values, forms, i, found)
    {
      hide Built, TextsOf;
      found, seen := AddForms(sorted, values, forms, i, found, seen);
    }
    needles := SortByLength(found);
    Finished(sorted, values, forms, found, needles);
    forall n | n in needles ensures |n.text| >= 8 && exists name :: Names(values, forms, n, name) {
      var k :| FirstOwner(sorted, values, forms, n, k);
      OwnerNames(sorted, values, forms, n, k);
    }
  }

  /** The needle is a form of this name's value, labelled so, and of no value whose name comes before. */
  ghost predicate Names(values: map<string, string>, forms: string -> seq<string>, n: Needle, name: string) {
    && name in values && n.mark == "[REDACTED:" + name + "]" && n.text in forms(values[name])
    && forall other :: other in values && Ordering.Precedes(other, name) ==> n.text !in forms(values[other])
  }

  lemma OwnerNames(names: seq<string>, values: map<string, string>, forms: string -> seq<string>, n: Needle, k: nat)
    requires forall name :: name in names <==> name in values
    requires forall i, j :: 0 <= i < j < |names| ==> Ordering.Precedes(names[i], names[j])
    requires FirstOwner(names, values, forms, n, k)
    ensures |n.text| >= 8 && Names(values, forms, n, names[k])
  {
    forall other | other in values && Ordering.Precedes(other, names[k]) ensures n.text !in forms(values[other]) {
      var i :| 0 <= i < |names| && names[i] == other;
      if i > k { NotBothWays(names[k], other); }
    }
  }

  lemma NotBothWays(a: string, b: string)
    requires Ordering.Precedes(a, b)
    ensures !Ordering.Precedes(b, a)
  {
    Ordering.StringLeqExactly(a, b);
    Ordering.StringLeqExactly(b, a);
    Ordering.StringTotal(a, b);
  }

  lemma Finished(names: seq<string>, values: map<string, string>, forms: string -> seq<string>, found: seq<Needle>,
                 needles: seq<Needle>)
    requires (forall name :: name in names <==> name in values) && Built(names, values, forms, |names|, found)
    requires forall n :: n in needles <==> n in found
    ensures NeedlesOk(needles)
    ensures forall name, f :: name in values && f in forms(values[name]) && |f| >= MIN_NEEDLE ==>
              exists n :: n in needles && n.text == f
    ensures forall n :: n in needles ==> exists k :: FirstOwner(names, values, forms, n, k)
  {
    forall name, f | name in values && f in forms(values[name]) && |f| >= MIN_NEEDLE
      ensures exists n :: n in needles && n.text == f
    {
      var j :| 0 <= j < |names| && names[j] == name;
      assert f in TextsOf(found);
    }
    forall n | n in needles ensures n.text != "" {
      var k :| FirstOwner(names, values, forms, n, k);
    }
  }

  method AddForms(names: seq<string>, values: map<string, string>, forms: string -> seq<string>, i: nat,
                  before: seq<Needle>, seenBefore: set<string>)
    returns (found: seq<Needle>, seen: set<string>)
    requires (forall name :: name in names ==> name in values) && i < |names|
    requires seenBefore == TextsOf(before) && Built(names, values, forms, i, before)
    ensures seen == TextsOf(found) && Built(names, values, forms, i + 1, found)
  {
    assert names[i] in names;
    var list := forms(values[names[i]]);
    hide *;
    found, seen := before, seenBefore;
    NothingAdded(list, seen, names, values, forms, i, before);
    for a := 0 to |list|
      invariant seen == TextsOf(found) && Adding(list, a, seenBefore, seen)
      invariant AllOwned(names, values, forms, i, before, found)
    {
      if |list[a]| < MIN_NEEDLE || list[a] in seen {
        AddForm(list, a, seenBefore, seen, seen);
        continue;
      }
      var n := Needle(list[a], Mark(names[i]));
      AddForm(list, a, seenBefore, seen, seen + {list[a]});
      NewOwner(names, values, forms, i, before, n);
      TextsGrow(found, n);
      OneMoreOwned(names, values, forms, i, before, found, n);
      seen, found := seen + {list[a]}, found + [n];
    }
    OneMoreName(names, values, forms, i, before, found, list);
  }

  /** After `a` forms of one name: the long ones are known, and nothing else is new. */
  predicate Adding(list: seq<string>, a: nat, before: set<string>, seen: set<string>) {
    && a <= |list| && before <= seen && (forall f :: f in seen ==> f in before || f in list)
    && forall b :: 0 <= b < a && |list[b]| >= MIN_NEEDLE ==> list[b] in seen
  }

  ghost predicate AllOwned(names: seq<string>, values: map<string, string>, forms: string -> seq<string>, i: nat,
                           before: seq<Needle>, found: seq<Needle>)
    requires forall name :: name in names ==> name in values
  {
    forall n :: n in found ==> n in before || FirstOwner(names, values, forms, n, i)
  }

  lemma NothingAdded(list: seq<string>, seen: set<string>, names: seq<string>, values: map<string, string>,
                     forms: string -> seq<string>, i: nat, before: seq<Needle>)
    requires forall name :: name in names ==> name in values
    ensures Adding(list, 0, seen, seen) && AllOwned(names, values, forms, i, before, before)
  {
  }

  lemma AddForm(list: seq<string>, a: nat, before: set<string>, seen: set<string>, after: set<string>)
    requires a < |list| && Adding(list, a, before, seen)
    requires after == seen + {list[a]} || (after == seen && (|list[a]| < MIN_NEEDLE || list[a] in seen))
    ensures Adding(list, a + 1, before, after)
  {
  }

  lemma OneMoreOwned(names: seq<string>, values: map<string, string>, forms: string -> seq<string>, i: nat,
                     before: seq<Needle>, found: seq<Needle>, n: Needle)
    requires forall name :: name in names ==> name in values
    requires AllOwned(names, values, forms, i, before, found) && FirstOwner(names, values, forms, n, i)
    ensures AllOwned(names, values, forms, i, before, found + [n])
  {
    hide FirstOwner;
  }

  lemma NewOwner(names: seq<string>, values: map<string, string>, forms: string -> seq<string>, i: nat,
                 before: seq<Needle>, n: Needle)
    requires (forall name :: name in names ==> name in values) && i < |names| && Built(names, values, forms, i, before)
    requires n.mark == Mark(names[i]) && |n.text| >= MIN_NEEDLE && n.text in forms(values[names[i]])
               && n.text !in TextsOf(before)
    ensures FirstOwner(names, values, forms, n, i)
  {
    hide TextsOf;
  }

  lemma OneMoreName(names: seq<string>, values: map<string, string>, forms: string -> seq<string>, i: nat,
                    before: seq<Needle>, found: seq<Needle>, list: seq<string>)
    requires (forall name :: name in names ==> name in values) && i < |names| && Built(names, values, forms, i, before)
    requires list == forms(values[names[i]]) && Adding(list, |list|, TextsOf(before), TextsOf(found))
    requires AllOwned(names, values, forms, i, before, found)
    ensures Built(names, values, forms, i + 1, found)
  {
    hide TextsOf, FirstOwner;
    forall f | f in TextsOf(found) ensures exists j :: 0 <= j < i + 1 && f in forms(values[names[j]]) {
      if f in TextsOf(before) {
        var j :| 0 <= j < i && f in forms(values[names[j]]);
      } else {
        assert f in forms(values[names[i]]);
      }
    }
  }

  method SortByLength(needles: seq<Needle>) returns (sorted: seq<Needle>)
    ensures LongestFirst(sorted) && forall n :: n in sorted <==> n in needles
  {
    sorted := [];
    for i := 0 to |needles|
      invariant LongestFirst(sorted) && forall n :: n in sorted <==> n in needles[..i]
    {
      var k := |sorted|;
      while k > 0 && |sorted[k - 1].text| < |needles[i].text|
        invariant 0 <= k <= |sorted| && forall j :: k <= j < |sorted| ==> |sorted[j].text| < |needles[i].text|
      {
        k := k - 1;
      }
      InsertedByLength(sorted, k, needles[i]);
      sorted := sorted[..k] + [needles[i]] + sorted[k..];
      assert needles[..i + 1] == needles[..i] + [needles[i]];
    }
    assert needles[..|needles|] == needles;
  }

  lemma InsertedByLength(s: seq<Needle>, k: nat, x: Needle)
    requires k <= |s| && LongestFirst(s)
    requires (k > 0 ==> |s[k - 1].text| >= |x.text|) && forall j :: k <= j < |s| ==> |s[j].text| < |x.text|
    ensures LongestFirst(s[..k] + [x] + s[k..])
    ensures forall n :: n in s[..k] + [x] + s[k..] <==> n in s || n == x
  {
    var t := s[..k] + [x] + s[k..];
    forall i, j | 0 <= i < j < |t| ensures |t[i].text| >= |t[j].text| {
      if i < k { assert t[i] == s[i] && |s[i].text| >= |x.text|; } else if i > k { assert t[i] == s[i - 1]; }
      if j < k { assert t[j] == s[j]; } else if j > k { assert t[j] == s[j - 1]; }
    }
    forall n ensures n in t <==> n in s || n == x {
      if n in s {
        var m :| 0 <= m < |s| && s[m] == n;
        assert t[if m < k then m else m + 1] == n;
      }
    }
  }
}

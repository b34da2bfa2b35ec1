/**
 * What redacted output is, said character by character: which positions of the original output are
 * gone, where a label stands, and that everything else is there, in order and once.
 */
module Redaction {
  import opened Basics
  import opened Redactor

  // ----- Positions -----------------------------------------------------------------------------

  /** The needle stands in the output from `i` on. */
  predicate Matches(n: Needle, out: string, i: nat) {
    i + |n.text| <= |out| && forall j :: 0 <= j < |n.text| ==> out[i + j] == n.text[j]
  }

  /** From `i` on the output ends with the beginning of the needle, but not with all of it. */
  predicate RunsOut(n: Needle, out: string, i: nat) {
    i < |out| < i + |n.text| && forall j :: 0 <= j < |out| - i ==> out[i + j] == n.text[j]
  }

  /** A secret, or of cut output what may be the start of one, begins at `i` and includes `k`. */
  predicate Reaches(n: Needle, out: string, cut: bool, i: nat, k: nat) {
    i <= k && ((Matches(n, out, i) && k < i + |n.text|) || (cut && RunsOut(n, out, i) && k < |out|))
  }

  /** The position is not returned. */
  ghost predicate Gone(needles: seq<Needle>, out: string, cut: bool, k: nat) {
    exists n, i: nat :: n in needles && Reaches(n, out, cut, i, k)
  }

  /** Nothing that began earlier includes the position. */
  ghost predicate Fresh(needles: seq<Needle>, out: string, cut: bool, k: nat) {
    forall n, i: nat :: n in needles && i < k ==> !Reaches(n, out, cut, i, k)
  }

  /** What stands for one position: itself; a label, where a secret begins; or nothing. */
  ghost predicate PieceFits(needles: seq<Needle>, out: string, cut: bool, k: nat, piece: string)
    requires k < |out|
  {
    if !Gone(needles, out, cut, k) then piece == [out[k]]
    else if Fresh(needles, out, cut, k) then
      exists n :: n in needles && Reaches(n, out, cut, k, k) && piece == n.mark
    else piece == ""
  }

  ghost predicate PieceAt(needles: seq<Needle>, out: string, cut: bool, result: string, cuts: seq<nat>, k: nat)
    requires k < |out| && k + 1 < |cuts|
  {
    cuts[k] <= cuts[k + 1] <= |result| && PieceFits(needles, out, cut, k, result[cuts[k]..cuts[k + 1]])
  }

  /** Cut at these places the first `p` positions are all there is to the result. */
  ghost predicate Explains(needles: seq<Needle>, out: string, cut: bool, result: string, cuts: seq<nat>, p: nat) {
    && p <= |out| && |cuts| == p + 1 && cuts[0] == 0 && cuts[p] == |result|
    && forall k :: 0 <= k < p ==> PieceAt(needles, out, cut, result, cuts, k)
  }

  ghost function LabelPositions(needles: seq<Needle>, out: string, cut: bool, p: nat): set<nat> {
    set k: nat | k < p && Gone(needles, out, cut, k) && Fresh(needles, out, cut, k)
  }

  // ----- The two ways to say where needles stand -----------------------------------------------

  lemma MatchesMeans(n: Needle, out: string, i: nat)
    ensures Matches(n, out, i) <==> OccursAt(n.text, out, i)
  {
    if i + |n.text| <= |out| {
      var found := out[i..i + |n.text|];
      assert forall j :: 0 <= j < |n.text| ==> found[j] == out[i + j];
    }
  }

  lemma RunsOutMeans(n: Needle, out: string, i: nat)
    requires i < |out|
    ensures RunsOut(n, out, i) <==> EndsInto(n.text, out, |out| - i)
  {
    if |out| - i < |n.text| {
      var tail, start := out[i..], n.text[..|out| - i];
      assert forall j :: 0 <= j < |out| - i ==> tail[j] == out[i + j] && start[j] == n.text[j];
    }
  }

  lemma GoneMeans(needles: seq<Needle>, out: string, cut: bool, k: nat)
    requires k < |out|
    ensures Gone(needles, out, cut, k) <==> Dropped(needles, out, cut, k)
  {
    if Gone(needles, out, cut, k) {
      var n, i: nat :| n in needles && Reaches(n, out, cut, i, k);
      MatchesMeans(n, out, i);
      RunsOutMeans(n, out, i);
      hide OccursAt, EndsInto, Matches, RunsOut;
      if OccursAt(n.text, out, i) && k < i + |n.text| {
        assert InOccurrence(needles, out, k);
      } else {
        assert EndsInto(n.text, out, |out| - i);
        assert InFragment(needles, out, k);
      }
    }
    hide OccursAt, EndsInto, Matches, RunsOut;
    if InOccurrence(needles, out, k) {
      var n, i: nat :| n in needles && OccursAt(n.text, out, i) && i <= k < i + |n.text|;
      MatchesMeans(n, out, i);
      assert Reaches(n, out, cut, i, k);
    }
    if cut && InFragment(needles, out, k) {
      var n, t: nat :| n in needles && EndsInto(n.text, out, t) && |out| - t <= k < |out|;
      FragmentFits(n.text, out, t);
      RunsOutMeans(n, out, |out| - t);
      assert Reaches(n, out, cut, |out| - t, k);
    }
  }

  lemma FragmentFits(text: string, out: string, t: nat)
    requires EndsInto(text, out, t)
    ensures 1 <= t <= |out|
  {
  }

  /** A span includes what it reaches. */
  lemma SpanReaches(n: Needle, out: string, cut: bool, sp: Span, k: nat)
    requires IsSpanOf(n, out, cut, sp) && sp.start <= k < sp.end && k < |out|
    ensures Reaches(n, out, cut, sp.start, k)
  {
    MatchesMeans(n, out, sp.start);
    RunsOutMeans(n, out, sp.start);
    hide OccursAt, EndsInto, Matches, RunsOut;
  }

  /** What is reached lies in a span that began there or earlier. */
  lemma ReachedBySpan(n: Needle, out: string, cut: bool, i: nat, k: nat) returns (sp: Span)
    requires Reaches(n, out, cut, i, k) && k < |out|
    ensures IsSpanOf(n, out, cut, sp) && sp.start <= i && k < sp.end
  {
    MatchesMeans(n, out, i);
    if i < |out| { RunsOutMeans(n, out, i); }
    hide OccursAt, EndsInto, Matches, RunsOut;
    if OccursAt(n.text, out, i) && k < i + |n.text| {
      sp := Span(i, i + |n.text|, n.mark);
    } else {
      var most := LongestFragment(n.text, out, |out| - i);
      FragmentFits(n.text, out, most);
      sp := Span(|out| - most, |out|, n.mark);
    }
  }

  lemma FreshMeans(needles: seq<Needle>, out: string, cut: bool, k: nat)
    requires k < |out|
    ensures Fresh(needles, out, cut, k) <==> !Reached(needles, out, cut, k)
  {
    hide Reaches, IsSpanOf;
    if Reached(needles, out, cut, k) {
      var sp :| IsSpan(needles, out, cut, sp) && sp.start < k < sp.end;
      var n :| n in needles && IsSpanOf(n, out, cut, sp);
      SpanReaches(n, out, cut, sp, k);
    }
    if !Fresh(needles, out, cut, k) {
      var n, i: nat :| n in needles && i < k && Reaches(n, out, cut, i, k);
      var sp := ReachedBySpan(n, out, cut, i, k);
      assert IsSpan(needles, out, cut, sp);
    }
  }

  // ----- Every redaction is explained ----------------------------------------------------------

  lemma LabelMeans(needles: seq<Needle>, out: string, cut: bool, k: nat)
    requires k < |out|
    ensures LabelAt(needles, out, cut, k) <==> Gone(needles, out, cut, k) && Fresh(needles, out, cut, k)
  {
    GoneMeans(needles, out, cut, k);
    FreshMeans(needles, out, cut, k);
    hide Gone, Fresh, Dropped, Reached;
  }

  /** The piece a redaction writes for one position. */
  ghost function Written(needles: seq<Needle>, out: string, cut: bool, marks: map<nat, string>, k: nat): string
    requires k < |out|
  {
    (if LabelAt(needles, out, cut, k) && k in marks then marks[k] else "")
    + (if Dropped(needles, out, cut, k) then "" else [out[k]])
  }

  lemma PieceWritten(needles: seq<Needle>, out: string, cut: bool, marks: map<nat, string>, k: nat)
    requires k < |out| && NeedlesOk(needles) && MarksFit(needles, out, cut, marks)
    ensures PieceFits(needles, out, cut, k, Written(needles, out, cut, marks, k))
  {
    GoneMeans(needles, out, cut, k);
    LabelMeans(needles, out, cut, k);
    hide Gone, Fresh, Dropped, Reaches, IsSpanOf;
    if LabelAt(needles, out, cut, k) {
      var sp :| IsSpan(needles, out, cut, sp) && sp.start == k && sp.mark == marks[k];
      var n :| n in needles && IsSpanOf(n, out, cut, sp);
      SpanIsSome(n, out, cut, sp);
      SpanReaches(n, out, cut, sp, k);
      assert marks[k] + "" == marks[k];
    } else {
      assert "" + [out[k]] == [out[k]];
    }
    hide LabelAt;
  }

  lemma OneMoreWritten(needles: seq<Needle>, out: string, cut: bool, marks: map<nat, string>, p: nat)
    requires 0 < p <= |out|
    ensures Redacted(needles, out, cut, marks, p) ==
            Redacted(needles, out, cut, marks, p - 1) + Written(needles, out, cut, marks, p - 1)
    ensures LabelCount(needles, out, cut, p) ==
            LabelCount(needles, out, cut, p - 1) + if LabelAt(needles, out, cut, p - 1) then 1 else 0
  {
    hide LabelAt, Dropped;
  }

  lemma NothingWritten(needles: seq<Needle>, out: string, cut: bool, marks: map<nat, string>)
    ensures Explains(needles, out, cut, Redacted(needles, out, cut, marks, 0), [0], 0)
    ensures LabelCount(needles, out, cut, 0) == 0 && LabelPositions(needles, out, cut, 0) == {}
  {
  }

  lemma SpanIsSome(n: Needle, out: string, cut: bool, sp: Span)
    requires IsSpanOf(n, out, cut, sp) && sp.start < |out|
    ensures n.text != "" ==> sp.start < sp.end
    ensures sp.mark == n.mark
  {
  }

  lemma OnePieceMore(needles: seq<Needle>, out: string, cut: bool, result: string, cuts: seq<nat>, p: nat,
                     piece: string)
    requires p < |out| && Explains(needles, out, cut, result, cuts, p) && PieceFits(needles, out, cut, p, piece)
    ensures Explains(needles, out, cut, result + piece, cuts + [|result| + |piece|], p + 1)
  {
    hide PieceFits;
    var longer, all := result + piece, cuts + [|result| + |piece|];
    forall k | 0 <= k < p + 1 ensures PieceAt(needles, out, cut, longer, all, k) {
      if k < p {
        assert PieceAt(needles, out, cut, result, cuts, k);
        assert longer[all[k]..all[k + 1]] == result[cuts[k]..cuts[k + 1]];
      } else {
        assert longer[all[k]..all[k + 1]] == piece;
      }
    }
  }

  lemma OneLabelMore(needles: seq<Needle>, out: string, cut: bool, p: nat)
    requires 0 < p <= |out|
    ensures LabelPositions(needles, out, cut, p) ==
            LabelPositions(needles, out, cut, p - 1) + if LabelAt(needles, out, cut, p - 1) then {p - 1} else {}
    ensures p - 1 !in LabelPositions(needles, out, cut, p - 1)
  {
    LabelMeans(needles, out, cut, p - 1);
    hide Gone, Fresh, LabelAt;
  }

  lemma {:induction false} ExplainedUpTo(needles: seq<Needle>, out: string, cut: bool, marks: map<nat, string>, p: nat)
    returns (cuts: seq<nat>)
    requires p <= |out| && NeedlesOk(needles) && MarksFit(needles, out, cut, marks)
    ensures Explains(needles, out, cut, Redacted(needles, out, cut, marks, p), cuts, p)
    ensures LabelCount(needles, out, cut, p) == |LabelPositions(needles, out, cut, p)|
  {
    hide *;
    NothingWritten(needles, out, cut, marks);
    cuts := [0];
    if p > 0 {
      var before := ExplainedUpTo(needles, out, cut, marks, p - 1);
      var result, piece := Redacted(needles, out, cut, marks, p - 1), Written(needles, out, cut, marks, p - 1);
      PieceWritten(needles, out, cut, marks, p - 1);
      OnePieceMore(needles, out, cut, result, before, p - 1, piece);
      OneMoreWritten(needles, out, cut, marks, p);
      OneLabelMore(needles, out, cut, p);
      cuts := before + [|result| + |piece|];
    }
  }

  /**
   * Redacted output consists of the characters that are in no secret, in order, and of one label
   * where each run of overlapping secrets begins, and of nothing else.
   */
  lemma RedactionExplained(needles: seq<Needle>, out: string, cut: bool, result: string, count: nat)
    returns (cuts: seq<nat>)
    requires NeedlesOk(needles) && IsRedaction(needles, out, cut, result, count)
    ensures Explains(needles, out, cut, result, cuts, |out|)
    ensures count == |LabelPositions(needles, out, cut, |out|)|
  {
    var marks :| MarksFit(needles, out, cut, marks) && result == Redacted(needles, out, cut, marks, |out|);
    hide MarksFit, Redacted, LabelCount, Explains;
    cuts := ExplainedUpTo(needles, out, cut, marks, |out|);
  }

  /** Output without secrets, and without a beginning of one where it was cut, is returned as it is. */
  lemma CleanIsKept(needles: seq<Needle>, out: string, cut: bool, result: string, count: nat)
    requires NeedlesOk(needles) && IsRedaction(needles, out, cut, result, count)
    requires forall n, i: nat :: n in needles ==> !Matches(n, out, i) && !(cut && RunsOut(n, out, i))
    ensures result == out && count == 0
  {
    var cuts := RedactionExplained(needles, out, cut, result, count);
    forall k: nat | k < |out| ensures !Gone(needles, out, cut, k) {}
    hide Gone;
    assert LabelPositions(needles, out, cut, |out|) == {};
    OneEach(needles, out, cut, result, cuts, |out|);
    assert out[..|out|] == out && result[..|result|] == result;
  }

  lemma {:induction false} OneEach(needles: seq<Needle>, out: string, cut: bool, result: string, cuts: seq<nat>, p: nat)
    requires p <= |out| && Explains(needles, out, cut, result, cuts, |out|)
    requires forall k: nat :: k < |out| ==> !Gone(needles, out, cut, k)
    ensures cuts[p] <= |result| && result[..cuts[p]] == out[..p]
  {
    hide Gone;
    if p > 0 {
      OneEach(needles, out, cut, result, cuts, p - 1);
      assert PieceAt(needles, out, cut, result, cuts, p - 1);
      assert result[..cuts[p]] == result[..cuts[p - 1]] + result[cuts[p - 1]..cuts[p]];
    }
  }

  /** Nothing of a secret in the whole stream is explained as kept, even where the stream was not captured. */
  lemma StreamSecretsAreGone(needles: seq<Needle>, capture: Capture, n: Needle, i: nat, k: nat)
    requires capture.Valid() && n in needles && Matches(n, capture.stream, i)
    requires i <= k < i + |n.text| && k < |capture.buf|
    ensures Gone(needles, capture.buf, capture.cut, k)
  {
    MatchesMeans(n, capture.stream, i);
    NothingLeaks(needles, capture.stream, capture.limit, capture.cut, n, i, k);
    GoneMeans(needles, capture.buf, capture.cut, k);
  }
}

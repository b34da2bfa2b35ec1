/** Secret templates: literal text with "${secret:NAME}" placeholders. */
module SecretTemplate {
  import opened Basics

  datatype Node = Literal(text: string) | Reference(name: string)

  datatype ParseError = Unterminated | Unsupported(at: nat) | BadReference(at: nat)

  datatype Template = Template(nodes: seq<Node>, references: seq<string>)

  const PREFIX := "secret:"

  predicate NameStart(c: char) { 'A' <= c <= 'Z' || c == '_' }

  predicate NameChar(c: char) { NameStart(c) || '0' <= c <= '9' }

  predicate RecordName(s: string) {
    s != "" && NameStart(s[0]) && forall k :: 0 <= k < |s| ==> NameChar(s[k])
  }

  predicate OpensAt(s: string, i: nat) { i + 1 < |s| && s[i] == '$' && s[i + 1] == '{' }

  /** Index of the first "${", or |s|. */
  function FindOpen(s: string): (i: nat)
    ensures i <= |s| && (i < |s| ==> OpensAt(s, i))
    ensures forall k :: 0 <= k < i ==> !OpensAt(s, k)
  {
    if s == "" then 0
    else if OpensAt(s, 0) then 0
    else
      var rest := FindOpen(s[1..]);
      assert forall k :: 0 < k < |s| ==> (OpensAt(s, k) <==> OpensAt(s[1..], k - 1));
      rest + 1
  }

  /** Index of the first '}', or |s|. */
  function FindClose(s: string): (i: nat)
    ensures i <= |s| && (i < |s| ==> s[i] == '}')
    ensures forall k :: 0 <= k < i ==> s[k] != '}'
  {
    if s == "" || s[0] == '}' then 0 else FindClose(s[1..]) + 1
  }

  /** What stands at the head of the rest of a template. */
  datatype Scanned =
    | AllText
    | Broken(error: ParseError)
    | Placeholder(text: string, name: string, rest: string)

  function Scan(s: string, at: nat): (r: Scanned)
    ensures r.Placeholder? ==> |r.rest| < |s|
  {
    var start := FindOpen(s);
    if start == |s| then AllText
    else
      var tail := s[start + 2..];
      var end := FindClose(tail);
      if end == |tail| then Broken(Unterminated)
      else if !(PREFIX <= tail[..end]) then Broken(Unsupported(at + start))
      else if !RecordName(tail[..end][|PREFIX|..]) then Broken(BadReference(at + start))
      else Placeholder(s[..start], tail[..end][|PREFIX|..], tail[end + 1..])
  }

  /** Literal text, unless empty, goes in front of the nodes that follow. */
  function Before(text: string, nodes: seq<Node>): seq<Node> {
    if text == "" then nodes else [Literal(text)] + nodes
  }

  /** What parsing the rest `s` of a template yields, `s` starting at byte `at`. */
  function ParseAt(s: string, at: nat): Result<seq<Node>, ParseError>
    decreases |s|
  {
    match Scan(s, at)
    case AllText => Ok(Before(s, []))
    case Broken(e) => Err(e)
    case Placeholder(text, name, rest) =>
      match ParseAt(rest, at + |s| - |rest|)
      case Err(e) => Err(e)
      case Ok(nodes) => Ok(Before(text, [Reference(name)] + nodes))
  }

  function ReferencesOf(nodes: seq<Node>): seq<string> {
    if nodes == [] then []
    else (if nodes[0].Reference? then [nodes[0].name] else []) + ReferencesOf(nodes[1..])
  }

  function Parse(template: string): Result<Template, ParseError> {
    match ParseAt(template, 0)
    case Err(e) => Err(e)
    case Ok(nodes) => Ok(Template(nodes, ReferencesOf(nodes)))
  }

  // ----- Printing is the inverse ---------------------------------------------------------------

  function PrintNode(n: Node): string {
    if n.Literal? then n.text else "${" + PREFIX + n.name + "}"
  }

  function Print(nodes: seq<Node>): string {
    if nodes == [] then "" else PrintNode(nodes[0]) + Print(nodes[1..])
  }

  predicate PlainText(s: string) { s != "" && forall k :: 0 <= k < |s| ==> !OpensAt(s, k) }

  predicate WellFormed(nodes: seq<Node>) {
    && (forall i :: 0 <= i < |nodes| ==>
          if nodes[i].Literal? then PlainText(nodes[i].text) else RecordName(nodes[i].name))
    && forall i :: 0 < i < |nodes| ==> !(nodes[i - 1].Literal? && nodes[i].Literal?)
  }

  lemma PrintCons(n: Node, nodes: seq<Node>)
    ensures Print([n] + nodes) == PrintNode(n) + Print(nodes)
  {
    assert ([n] + nodes)[1..] == nodes;
  }

  lemma Reassociate(a: string, b: string, c: string, d: string, e: string, f: string)
    ensures a + b + ((c + d) + e + f) == a + (b + c + d + e) + f
  {
  }

  /** Around an opening "${" and the closing '}' that follows it, nothing is lost. */
  lemma Cut(s: string, start: nat, end: nat, prefix: string)
    requires OpensAt(s, start) && end < |s[start + 2..]| && s[start + 2..][end] == '}'
    requires prefix <= s[start + 2..][..end]
    ensures s == s[..start] + ("${" + prefix + s[start + 2..][..end][|prefix|..] + "}") + s[start + 2..][end + 1..]
  {
    var tail := s[start + 2..];
    assert tail == (prefix + tail[..end][|prefix|..]) + "}" + tail[end + 1..] by {
      assert tail[..end] == prefix + tail[..end][|prefix|..];
    }
    assert s == s[..start] + "${" + tail;
    Reassociate(s[..start], "${", prefix, tail[..end][|prefix|..], "}", tail[end + 1..]);
  }

  /** Whatever is scanned off was there: plain text, a placeholder and the rest. */
  lemma ScannedOff(s: string, at: nat)
    requires Scan(s, at).Placeholder?
    ensures var p := Scan(s, at);
            && s == p.text + PrintNode(Reference(p.name)) + p.rest
            && (p.text == "" || PlainText(p.text)) && RecordName(p.name)
  {
    var start := FindOpen(s);
    var end := FindClose(s[start + 2..]);
    Cut(s, start, end, PREFIX);
    assert forall k :: 0 <= k < start ==> (OpensAt(s[..start], k) ==> OpensAt(s, k));
  }

  lemma ThreeParts(text: string, name: string, nodes: seq<Node>)
    ensures Print(Before(text, [Reference(name)] + nodes)) == text + PrintNode(Reference(name)) + Print(nodes)
  {
    PrintCons(Reference(name), nodes);
    PrintCons(Literal(text), [Reference(name)] + nodes);
    assert text + (PrintNode(Reference(name)) + Print(nodes)) == text + PrintNode(Reference(name)) + Print(nodes);
    hide PrintNode, Print;
  }

  lemma BeforeWellFormed(text: string, name: string, nodes: seq<Node>)
    requires text == "" || PlainText(text)
    requires RecordName(name) && WellFormed(nodes)
    ensures WellFormed(Before(text, [Reference(name)] + nodes))
  {
    hide PlainText, RecordName;
  }

  lemma {:induction false} ParsedPrints(s: string, at: nat)
    requires ParseAt(s, at).Ok?
    ensures WellFormed(ParseAt(s, at).value) && Print(ParseAt(s, at).value) == s
    decreases |s|
  {
    hide Scan, WellFormed, Print;
    if Scan(s, at).AllText? {
      TextPrints(s, at);
    } else {
      var p := Scan(s, at);
      ParsedPrints(p.rest, at + |s| - |p.rest|);
      ScannedOff(s, at);
      var nodes := ParseAt(p.rest, at + |s| - |p.rest|).value;
      assert ParseAt(s, at) == Ok(Before(p.text, [Reference(p.name)] + nodes));
      hide *;
      BeforeWellFormed(p.text, p.name, nodes);
      ThreeParts(p.text, p.name, nodes);
    }
  }

  lemma TextPrints(s: string, at: nat)
    requires Scan(s, at).AllText?
    ensures WellFormed(Before(s, [])) && Print(Before(s, [])) == s
  {
    assert Print([Literal(s)]) == s + Print([]) == s;
  }

  /** The first "${" of plain text followed by a placeholder is the placeholder's. */
  lemma OpenAfterText(text: string, rest: string)
    requires text == "" || PlainText(text)
    requires |rest| >= 2 && OpensAt(rest, 0)
    ensures FindOpen(text + rest) == |text|
  {
    var s := text + rest;
    assert OpensAt(s, |text|);
    forall k | 0 <= k < |text| ensures !OpensAt(s, k) {
      if k + 1 < |text| { assert !OpensAt(text, k); }
    }
  }

  lemma CloseAfter(body: string, rest: string)
    requires forall k :: 0 <= k < |body| ==> body[k] != '}'
    ensures FindClose(body + "}" + rest) == |body|
  {
    var s := body + "}" + rest;
    assert s[|body|] == '}';
    assert forall k :: 0 <= k < |body| ==> s[k] == body[k];
  }

  lemma NoBrace(prefix: string, name: string)
    requires RecordName(name) && forall k :: 0 <= k < |prefix| ==> prefix[k] != '}'
    ensures forall k :: 0 <= k < |prefix + name| ==> (prefix + name)[k] != '}'
  {
  }

  lemma BodySlices(prefix: string, name: string, rest: string)
    ensures var tail := (prefix + name) + "}" + rest;
            && tail[..|prefix| + |name|] == prefix + name && (prefix + name)[|prefix|..] == name
            && tail[|prefix| + |name| + 1..] == rest
  {
  }

  lemma TextSlices(text: string, after: string)
    ensures (text + ("${" + after))[..|text|] == text && (text + ("${" + after))[|text| + 2..] == after
  {
  }

  /** The pieces of text, then one placeholder, then anything. */
  lemma Pieces(text: string, prefix: string, name: string, rest: string)
    requires text == "" || PlainText(text)
    requires RecordName(name) && forall k :: 0 <= k < |prefix| ==> prefix[k] != '}'
    ensures var s := text + ("${" + prefix + name + "}") + rest;
            && FindOpen(s) == |text| && s[..|text|] == text && |text| + 2 <= |s|
            && var tail := s[|text| + 2..];
            && FindClose(tail) == |prefix| + |name| < |tail| && prefix <= tail[..|prefix| + |name|]
            && tail[..|prefix| + |name|][|prefix|..] == name && tail[|prefix| + |name| + 1..] == rest
  {
    var after := (prefix + name) + "}" + rest;
    assert text + ("${" + prefix + name + "}") + rest == text + ("${" + after) by {
      Reassociate(text, "${", prefix, name, "}", rest);
      assert text + "${" + after == text + ("${" + after);
    }
    OpenAfterText(text, "${" + after);
    NoBrace(prefix, name);
    CloseAfter(prefix + name, rest);
    hide *;
    TextSlices(text, after);
    BodySlices(prefix, name, rest);
  }

  lemma PlaceholderScanned(text: string, name: string, rest: string, at: nat)
    requires (text == "" || PlainText(text)) && RecordName(name)
    ensures Scan(text + PrintNode(Reference(name)) + rest, at) == Placeholder(text, name, rest)
  {
    var s := text + ("${" + PREFIX + name + "}") + rest;
    assert PrintNode(Reference(name)) == "${" + PREFIX + name + "}";
    Pieces(text, PREFIX, name, rest);
    hide FindOpen, FindClose, RecordName, PlainText, PrintNode;
    assert FindOpen(s) < |s|;
  }

  lemma TextScanned(text: string, at: nat)
    requires PlainText(text)
    ensures Scan(text, at) == AllText
  {
  }

  /** A well-formed list that is not just text starts with at most one text and a placeholder. */
  lemma Peel(nodes: seq<Node>) returns (text: string, name: string, more: seq<Node>)
    requires WellFormed(nodes) && nodes != [] && !(nodes[0].Literal? && |nodes| == 1)
    ensures nodes == Before(text, [Reference(name)] + more) && |more| < |nodes|
    ensures WellFormed(more) && RecordName(name) && (text == "" || PlainText(text))
  {
    hide RecordName;
    var first := if nodes[0].Literal? then 1 else 0;
    text := if first == 1 then nodes[0].text else "";
    name, more := nodes[first].name, nodes[first + 1..];
    hide PlainText;
    assert nodes == Before(text, [Reference(name)] + more);
  }

  lemma ParsedOn(s: string, at: nat, text: string, name: string, rest: string, nodes: seq<Node>)
    requires Scan(s, at) == Placeholder(text, name, rest) && ParseAt(rest, at + |s| - |rest|) == Ok(nodes)
    ensures ParseAt(s, at) == Ok(Before(text, [Reference(name)] + nodes))
  {
    hide Scan, Before;
  }

  lemma OnlyTextParses(nodes: seq<Node>, at: nat)
    requires WellFormed(nodes) && |nodes| == 1 && nodes[0].Literal?
    ensures ParseAt(Print(nodes), at) == Ok(nodes)
  {
    var text := nodes[0].text;
    TextScanned(text, at);
    assert nodes[1..] == [] && [Literal(text)] + [] == [Literal(text)] == nodes;
    assert Print(nodes) == text + Print([]) == text;
    hide Scan;
  }

  lemma {:induction false} PrintedParses(nodes: seq<Node>, at: nat)
    requires WellFormed(nodes)
    ensures ParseAt(Print(nodes), at) == Ok(nodes)
    decreases |nodes|
  {
    hide ParseAt, Print, WellFormed, RecordName, PlainText, Before, PrintNode, Scan;
    if nodes == [] {
      EmptyParses(at);
    } else if nodes[0].Literal? && |nodes| == 1 {
      OnlyTextParses(nodes, at);
    } else {
      var text, name, more := Peel(nodes);
      ThreeParts(text, name, more);
      PlaceholderScanned(text, name, Print(more), at);
      var before := |text| + |PrintNode(Reference(name))|;
      PrintedParses(more, at + before);
      ParsedOn(Print(nodes), at, text, name, Print(more), more);
    }
  }

  lemma EmptyParses(at: nat)
    ensures ParseAt(Print([]), at) == Ok([])
  {
  }

  /** Parsing and printing are inverse: a template parses exactly when it prints a well-formed list. */
  lemma ParseIsInverse(template: string, nodes: seq<Node>)
    ensures Parse(template).Ok? && Parse(template).value.nodes == nodes <==>
              WellFormed(nodes) && Print(nodes) == template
  {
    if Parse(template).Ok? { ParsedPrints(template, 0); }
    if WellFormed(nodes) { PrintedParses(nodes, 0); }
  }

  /** What is wrong with the text behind a "${", whose first '}' is at `end`, if there is any; and where that stands. */
  predicate Wrong(e: ParseError, rest: string, end: nat, at: nat) {
    && end <= |rest| && (forall k :: 0 <= k < end ==> rest[k] != '}') && (end < |rest| ==> rest[end] == '}')
    && if end == |rest| then e == Unterminated
       else if NamesSecret(rest[..end]) then e == BadReference(at) && !Readable(rest[..end])
       else e == Unsupported(at)
  }

  predicate NamesSecret(body: string) { PREFIX <= body }

  predicate Readable(body: string)
    requires NamesSecret(body)
  {
    RecordName(body[|PREFIX|..])
  }

  /**
   * A template that does not parse starts with one that does, then plain text, and then the "${" that
   * the error is about.
   */
  lemma {:induction false} ErrorExplained(s: string, at: nat)
    returns (nodes: seq<Node>, text: string, rest: string, end: nat)
    requires ParseAt(s, at).Err?
    ensures WellFormed(nodes) && (text == "" || PlainText(text)) && s == Print(nodes) + text + "${" + rest
    ensures Wrong(ParseAt(s, at).error, rest, end, at + |Print(nodes)| + |text|)
    decreases |s|
  {
    hide *;
    ErrorPasses(s, at);
    if Scan(s, at).Broken? {
      nodes, text, rest, end := BrokenHere(s, at);
    } else {
      var p := Scan(s, at);
      ScannedOff(s, at);
      var more;
      more, text, rest, end := ErrorExplained(p.rest, at + |s| - |p.rest|);
      nodes := Before(p.text, [Reference(p.name)] + more);
      BeforeWellFormed(p.text, p.name, more);
      Onward(s, p.text, p.name, p.rest, at, more, text, rest, end, ParseAt(s, at).error);
    }
  }

  lemma ErrorPasses(s: string, at: nat)
    requires ParseAt(s, at).Err?
    ensures !Scan(s, at).AllText? && (Scan(s, at).Broken? ==> ParseAt(s, at).error == Scan(s, at).error)
    ensures Scan(s, at).Placeholder? ==>
              var rest := Scan(s, at).rest;
              && |rest| < |s| && ParseAt(rest, at + |s| - |rest|).Err?
              && ParseAt(rest, at + |s| - |rest|).error == ParseAt(s, at).error
  {
    hide Scan;
  }

  /** What is explained of the rest is explained of the whole. */
  lemma Onward(s: string, first: string, name: string, tail: string, at: nat, more: seq<Node>, text: string,
               rest: string, end: nat, e: ParseError)
    requires s == first + PrintNode(Reference(name)) + tail && tail == Print(more) + text + "${" + rest
    requires Wrong(e, rest, end, at + |s| - |tail| + |Print(more)| + |text|)
    ensures var nodes := Before(first, [Reference(name)] + more);
            && s == Print(nodes) + text + "${" + rest && Wrong(e, rest, end, at + |Print(nodes)| + |text|)
  {
    ThreeParts(first, name, more);
    hide PrintNode, Print, Before, Wrong;
    InFront(first, PrintNode(Reference(name)), Print(more), text, rest);
  }

  lemma InFront(a: string, b: string, c: string, text: string, rest: string)
    ensures a + b + (c + text + "${" + rest) == (a + b + c) + text + "${" + rest
  {
  }

  lemma BrokenHere(s: string, at: nat) returns (nodes: seq<Node>, text: string, rest: string, end: nat)
    requires Scan(s, at).Broken?
    ensures nodes == [] && (text == "" || PlainText(text)) && s == Print(nodes) + text + "${" + rest
    ensures Wrong(Scan(s, at).error, rest, end, at + |Print(nodes)| + |text|) && WellFormed(nodes)
  {
    var start := FindOpen(s);
    nodes, text, rest := [], s[..start], s[start + 2..];
    assert Print([]) == "" && "" + text == text;
    assert start < |s| && OpensAt(s, start);
    AtOpen(s, start);
    end := FindClose(rest);
    ScanBreaks(s, at);
    hide FindOpen, FindClose, Scan, NamesSecret, Readable, Wrong;
    IsWrong(Scan(s, at).error, rest, at + start);
  }

  lemma AtOpen(s: string, start: nat)
    requires start < |s| && OpensAt(s, start) && forall k :: 0 <= k < start ==> !OpensAt(s, k)
    ensures s == s[..start] + "${" + s[start + 2..] && (s[..start] == "" || PlainText(s[..start]))
  {
    assert forall k :: 0 <= k < start ==> (OpensAt(s[..start], k) ==> OpensAt(s, k));
  }

  lemma IsWrong(e: ParseError, rest: string, at: nat)
    requires var end := FindClose(rest);
             e == if end == |rest| then Unterminated
             else if NamesSecret(rest[..end]) then BadReference(at)
             else Unsupported(at)
    requires e.BadReference? ==>
               FindClose(rest) < |rest| && NamesSecret(rest[..FindClose(rest)]) && !Readable(rest[..FindClose(rest)])
    ensures Wrong(e, rest, FindClose(rest), at)
  {
    hide FindClose, NamesSecret, Readable;
  }

  lemma ScanBreaks(s: string, at: nat)
    requires Scan(s, at).Broken?
    ensures FindOpen(s) + 2 <= |s|
    ensures var start := FindOpen(s);
            var rest := s[start + 2..];
            var end := FindClose(rest);
            Scan(s, at).error ==
            if end == |rest| then Unterminated
            else if NamesSecret(rest[..end]) then BadReference(at + start)
            else Unsupported(at + start)
    ensures Scan(s, at).error.BadReference? ==>
              var rest := s[FindOpen(s) + 2..];
              && FindClose(rest) < |rest| && NamesSecret(rest[..FindClose(rest)])
              && !Readable(rest[..FindClose(rest)])
  {
    hide FindOpen, FindClose, RecordName;
  }

  lemma {:induction false} ReferencesAppend(left: seq<Node>, right: seq<Node>)
    ensures ReferencesOf(left + right) == ReferencesOf(left) + ReferencesOf(right)
  {
    if left == [] {
      assert left + right == right;
    } else {
      ReferencesAppend(left[1..], right);
      assert (left + right)[1..] == left[1..] + right && (left + right)[0] == left[0];
      assert ReferencesOf(left + right) ==
             (if left[0].Reference? then [left[0].name] else []) + ReferencesOf(left[1..] + right);
    }
  }

  /** What has been collected, and what the rest of the template will add. */
  function Onto(nodes: seq<Node>, rest: Result<seq<Node>, ParseError>): Result<seq<Node>, ParseError> {
    match rest
    case Err(e) => Err(e)
    case Ok(more) => Ok(nodes + more)
  }

  lemma NothingYet(s: string)
    ensures ParseAt(s, 0) == Onto([], ParseAt(s[0..], 0)) && ReferencesOf([]) == []
  {
    assert s[0..] == s;
    if ParseAt(s, 0).Ok? { assert [] + ParseAt(s, 0).value == ParseAt(s, 0).value; }
    hide ParseAt;
  }

  lemma NothingLeft(s: string, at: nat, nodes: seq<Node>)
    requires s == ""
    ensures Onto(nodes, ParseAt(s, at)) == Ok(nodes)
  {
    assert nodes + [] == nodes;
  }

  lemma BeforeAdds(nodes: seq<Node>, text: string)
    ensures nodes + Before(text, []) == if text == "" then nodes else nodes + [Literal(text)]
  {
    assert [Literal(text)] + [] == [Literal(text)] && nodes + [] == nodes;
  }

  lemma Regroup(nodes: seq<Node>, text: string, r: Node, more: seq<Node>)
    ensures nodes + Before(text, [r] + more) == nodes + Before(text, []) + [r] + more
  {
  }

  /** Reading one placeholder, and the text before it, moves it from what is left to what is collected. */
  lemma OneMore(s: string, at: nat, nodes: seq<Node>, text: string, name: string, rest: string)
    requires Scan(s, at) == Placeholder(text, name, rest)
    ensures Onto(nodes, ParseAt(s, at)) ==
            Onto(nodes + Before(text, []) + [Reference(name)], ParseAt(rest, at + |s| - |rest|))
    ensures ReferencesOf(nodes + Before(text, []) + [Reference(name)]) == ReferencesOf(nodes) + [name]
  {
    hide Scan;
    CollectOne(nodes, Literal(text));
    CollectOne(nodes + Before(text, []), Reference(name));
    hide ReferencesOf;
    assert nodes + [] == nodes && ReferencesOf(nodes) + [] == ReferencesOf(nodes);
    assert [Literal(text)] + [] == [Literal(text)];
    hide Before;
    var more := ParseAt(rest, at + |s| - |rest|);
    if more.Ok? { Regroup(nodes, text, Reference(name), more.value); }
  }

  lemma LastText(s: string, at: nat, nodes: seq<Node>)
    requires FindOpen(s) == |s| && s != ""
    ensures Onto(nodes, ParseAt(s, at)) == Ok(nodes + [Literal(s)])
    ensures ReferencesOf(nodes + [Literal(s)]) == ReferencesOf(nodes)
  {
    CollectOne(nodes, Literal(s));
    assert nodes + [] == nodes && ReferencesOf(nodes) + [] == ReferencesOf(nodes);
    assert [Literal(s)] + [] == [Literal(s)];
  }

  /** Appending one node appends what it references. */
  lemma CollectOne(nodes: seq<Node>, n: Node)
    ensures ReferencesOf(nodes + [n]) == ReferencesOf(nodes) + if n.Reference? then [n.name] else []
  {
    ReferencesAppend(nodes, [n]);
    assert [n][1..] == [];
  }

  /** The placeholder at the head of `s`, cut out the way the parser does it. */
  lemma ScanStep(s: string, at: nat, start: nat, end: nat)
    requires start == FindOpen(s) < |s| && end == FindClose(s[start + 2..])
    ensures var tail := s[start + 2..];
            && (end == |tail| ==> Scan(s, at) == Broken(Unterminated))
            && (end < |tail| ==>
                  var body := tail[..end];
                  && (!(PREFIX <= body) ==> Scan(s, at) == Broken(Unsupported(at + start)))
                  && (PREFIX <= body ==>
                        var name := body[|PREFIX|..];
                        Scan(s, at) == if RecordName(name) then Placeholder(s[..start], name, tail[end + 1..])
                                       else Broken(BadReference(at + start))))
  {
  }

  lemma Breaks(s: string, at: nat, nodes: seq<Node>)
    ensures Scan(s, at).Broken? ==> Onto(nodes, ParseAt(s, at)) == Err(Scan(s, at).error)
  {
    hide Scan;
  }

  /** One pass over the template, collecting nodes and references in encounter order. */
  method ParseTemplate(template: string) returns (r: Result<Template, ParseError>)
    ensures r == Parse(template)
  {
    hide ParseAt, ReferencesOf, Onto, Before, Scan, FindOpen, FindClose, RecordName;
    var nodes: seq<Node>, references: seq<string> := [], [];
    var offset := 0;
    NothingYet(template);
    while offset < |template|
      invariant offset <= |template| && references == ReferencesOf(nodes)
      invariant ParseAt(template, 0) == Onto(nodes, ParseAt(template[offset..], offset))
    {
      var s := template[offset..];
      var start := FindOpen(s);
      ghost var before := nodes;
      if start == |s| {
        LastText(s, offset, nodes);
        nodes := nodes + [Literal(s)];
        return Ok(Template(nodes, references));
      }
      if start > 0 { nodes := nodes + [Literal(s[..start])]; }
      BeforeAdds(before, s[..start]);
      var tail := s[start + 2..];
      var end := FindClose(tail);
      ScanStep(s, offset, start, end);
      Breaks(s, offset, before);
      if end == |tail| { return Err(Unterminated); }
      var body := tail[..end];
      if !(PREFIX <= body) { return Err(Unsupported(offset + start)); }
      var reference := body[|PREFIX|..];
      if !RecordName(reference) { return Err(BadReference(offset + start)); }
      OneMore(s, offset, before, s[..start], reference, tail[end + 1..]);
      nodes, references := nodes + [Reference(reference)], references + [reference];
      Skipped(template, offset, start, end);
      offset := offset + start + end + 3;
    }
    NothingLeft(template[offset..], offset, nodes);
    return Ok(Template(nodes, references));
  }

  lemma Skipped(template: string, offset: nat, start: nat, end: nat)
    requires offset + start + end + 3 <= |template|
    ensures template[offset..][start + 2..][end + 1..] == template[offset + start + end + 3..]
  {
  }

  // ----- Expansion -----------------------------------------------------------------------------

  const MAX_DERIVED := 1048576

  /** A record that is not there reads as empty. */
  function Part(n: Node, values: map<string, string>): string {
    if n.Literal? then n.text else if n.name in values then values[n.name] else ""
  }

  function Filled(nodes: seq<Node>, values: map<string, string>): string {
    if nodes == [] then "" else Filled(nodes[..|nodes| - 1], values) + Part(nodes[|nodes| - 1], values)
  }

  // ----- What an expansion is ------------------------------------------------------------------

  /** What stands for a node: its text, or the value of the record it names. */
  predicate StandsFor(piece: string, n: Node, values: map<string, string>) {
    match n
    case Literal(text) => piece == text
    case Reference(name) => if name in values then piece == values[name] else piece == ""
  }

  /** Cut at these places the text consists of one piece for each node, in order, and nothing else. */
  predicate Cuts(nodes: seq<Node>, values: map<string, string>, s: string, cuts: seq<nat>) {
    && |cuts| == |nodes| + 1 && cuts[0] == 0 && cuts[|nodes|] == |s|
    && forall k :: 0 <= k < |nodes| ==> PieceAt(nodes, values, s, cuts, k)
  }

  predicate PieceAt(nodes: seq<Node>, values: map<string, string>, s: string, cuts: seq<nat>, k: nat)
    requires k < |nodes| && k + 1 < |cuts|
  {
    cuts[k] <= cuts[k + 1] <= |s| && StandsFor(s[cuts[k]..cuts[k + 1]], nodes[k], values)
  }

  ghost predicate Expands(nodes: seq<Node>, values: map<string, string>, s: string) {
    exists cuts :: Cuts(nodes, values, s, cuts)
  }

  /** One piece more. */
  lemma CutsOneMore(nodes: seq<Node>, values: map<string, string>, s: string, cuts: seq<nat>, n: Node, piece: string)
    requires Cuts(nodes, values, s, cuts) && StandsFor(piece, n, values)
    ensures Cuts(nodes + [n], values, s + piece, cuts + [|s| + |piece|])
  {
    var longer, all := s + piece, cuts + [|s| + |piece|];
    hide StandsFor;
    forall k | 0 <= k < |nodes| + 1 ensures PieceAt(nodes + [n], values, longer, all, k) {
      if k < |nodes| {
        assert PieceAt(nodes, values, s, cuts, k);
        assert longer[all[k]..all[k + 1]] == s[cuts[k]..cuts[k + 1]];
      } else {
        assert longer[all[k]..all[k + 1]] == piece;
      }
    }
  }

  lemma CutsOneLess(nodes: seq<Node>, values: map<string, string>, s: string, cuts: seq<nat>)
    requires Cuts(nodes, values, s, cuts) && nodes != []
    ensures var n := |nodes| - 1;
            && cuts[n] <= |s| && Cuts(nodes[..n], values, s[..cuts[n]], cuts[..n + 1])
            && StandsFor(s[cuts[n]..], nodes[n], values) && s == s[..cuts[n]] + s[cuts[n]..]
  {
    var n := |nodes| - 1;
    CutsAscend(nodes, values, s, cuts);
    assert PieceAt(nodes, values, s, cuts, n);
    hide StandsFor;
    var most, shorter, before := nodes[..n], s[..cuts[n]], cuts[..n + 1];
    forall k | 0 <= k < n ensures PieceAt(most, values, shorter, before, k) {
      assert PieceAt(nodes, values, s, cuts, k);
      assert shorter[cuts[k]..cuts[k + 1]] == s[cuts[k]..cuts[k + 1]];
    }
    assert s[cuts[n]..cuts[n + 1]] == s[cuts[n]..];
  }

  lemma CutsAscend(nodes: seq<Node>, values: map<string, string>, s: string, cuts: seq<nat>)
    requires Cuts(nodes, values, s, cuts) && nodes != []
    ensures forall k :: 0 <= k < |nodes| ==> cuts[k] <= cuts[|nodes| - 1]
  {
    CutsUpTo(nodes, values, s, cuts, |nodes| - 1);
  }

  lemma {:induction false} CutsUpTo(nodes: seq<Node>, values: map<string, string>, s: string, cuts: seq<nat>, n: nat)
    requires Cuts(nodes, values, s, cuts) && n < |nodes|
    ensures forall k :: 0 <= k <= n ==> cuts[k] <= cuts[n]
  {
    if n > 0 {
      CutsUpTo(nodes, values, s, cuts, n - 1);
      assert PieceAt(nodes, values, s, cuts, n - 1);
    }
  }

  /** There is exactly one text with a piece for each node in order, and filling in gives it. */
  lemma {:induction false} FilledExactly(nodes: seq<Node>, values: map<string, string>, s: string)
    ensures s == Filled(nodes, values) <==> Expands(nodes, values, s)
  {
    var filled := Filled(nodes, values);
    if nodes == [] {
      assert Cuts(nodes, values, "", [0]);
    } else {
      var n := |nodes| - 1;
      var most := Filled(nodes[..n], values);
      FilledExactly(nodes[..n], values, most);
      var cuts :| Cuts(nodes[..n], values, most, cuts);
      CutsOneMore(nodes[..n], values, most, cuts, nodes[n], Part(nodes[n], values));
      assert nodes[..n] + [nodes[n]] == nodes;
      if Expands(nodes, values, s) {
        var at :| Cuts(nodes, values, s, at);
        CutsOneLess(nodes, values, s, at);
        assert Expands(nodes[..n], values, s[..at[n]]);
        FilledExactly(nodes[..n], values, s[..at[n]]);
      }
    }
  }

  /** When every record holds its own placeholder, expanding a template gives the template back. */
  lemma PlaceholdersGiveBack(template: string, values: map<string, string>)
    requires Parse(template).Ok?
    requires forall name :: name in Parse(template).value.references ==>
               name in values && values[name] == "${secret:" + name + "}"
    ensures Filled(Parse(template).value.nodes, values) == template
  {
    ParsedPrints(template, 0);
    var nodes := Parse(template).value.nodes;
    assert Parse(template).value.references == ReferencesOf(nodes) && Print(nodes) == template;
    hide Parse, ParseAt, ReferencesOf, Filled, Print;
    FilledIsPrint(nodes, values);
  }

  lemma {:induction false} PrintAppend(nodes: seq<Node>, n: Node)
    ensures Print(nodes + [n]) == Print(nodes) + PrintNode(n)
  {
    hide PrintNode;
    if nodes == [] {
      assert [] + [n] == [n] && [n][1..] == [] && PrintNode(n) + "" == PrintNode(n) == "" + PrintNode(n);
    } else {
      assert (nodes + [n])[1..] == nodes[1..] + [n];
      PrintAppend(nodes[1..], n);
      assert PrintNode(nodes[0]) + (Print(nodes[1..]) + PrintNode(n)) ==
             (PrintNode(nodes[0]) + Print(nodes[1..])) + PrintNode(n);
    }
  }

  lemma {:induction false} FilledIsPrint(nodes: seq<Node>, values: map<string, string>)
    requires forall name :: name in ReferencesOf(nodes) ==>
               name in values && values[name] == "${secret:" + name + "}"
    ensures Filled(nodes, values) == Print(nodes)
  {
    if nodes != [] {
      var most, last := nodes[..|nodes| - 1], nodes[|nodes| - 1];
      assert nodes == most + [last];
      CollectOne(most, last);
      PrintAppend(most, last);
      hide Print;
      FilledIsPrint(most, values);
      if last.Reference? { assert last.name in ReferencesOf(nodes); }
      assert "${" + PREFIX == "${secret:";
    }
  }

  lemma {:induction false} FilledGrows(nodes: seq<Node>, values: map<string, string>, i: nat)
    requires i <= |nodes|
    ensures |Filled(nodes[..i], values)| <= |Filled(nodes, values)|
    decreases |nodes|
  {
    if i < |nodes| {
      assert nodes[..|nodes| - 1][..i] == nodes[..i];
      FilledGrows(nodes[..|nodes| - 1], values, i);
    } else {
      assert nodes[..i] == nodes;
    }
  }

  /** The text made of the pieces in order; None exactly when it is longer than the limit. */
  method Expand(nodes: seq<Node>, values: map<string, string>) returns (r: Option<string>)
    ensures r == if |Filled(nodes, values)| > MAX_DERIVED then None else Some(Filled(nodes, values))
    ensures r.Some? ==> Expands(nodes, values, r.value)
    ensures r.None? ==> forall s :: Expands(nodes, values, s) ==> |s| > 1048576
  {
    forall s ensures s == Filled(nodes, values) <==> Expands(nodes, values, s) { FilledExactly(nodes, values, s); }
    hide Expands;
    var output := "";
    for i := 0 to |nodes|
      invariant output == Filled(nodes[..i], values) && |output| <= MAX_DERIVED
    {
      var part := Part(nodes[i], values);
      assert nodes[..i + 1][..i] == nodes[..i];
      if |output| + |part| > MAX_DERIVED {
        FilledGrows(nodes, values, i + 1);
        return None;
      }
      output := output + part;
    }
    assert nodes[..|nodes|] == nodes;
    return Some(output);
  }
}

/** Literal block scalars: how the seed prints a file's content, and the YAML 1.2.2 reading of it (sections 5.4, 8.1.1
    and 8.1.2: line break normalisation, indentation detection, clip chomping). */
module LiteralBlock {
  import opened Text

  // ----- lines -----

  /** Every line break is read as a line feed. */
  function Breaks(text: string): string {
    if text == "" then ""
    else if text[0] != '\r' then [text[0]] + Breaks(text[1..])
    else "\n" + Breaks(text[if |text| > 1 && text[1] == '\n' then 2 else 1..])
  }

  function Lines(text: string): seq<string> {
    var parts := Split(Breaks(text), '\n');
    if parts[|parts| - 1] == "" then parts[..|parts| - 1] else parts
  }

  function Unlines(lines: seq<string>): string {
    if lines == [] then "" else lines[0] + "\n" + Unlines(lines[1..])
  }

  predicate OneLine(l: string) {
    Free(l, '\n') && Free(l, '\r')
  }

  predicate AllOneLine(lines: seq<string>) {
    forall l | l in lines :: OneLine(l)
  }

  lemma {:induction false} BreaksNothing(text: string)
    requires Free(text, '\r')
    ensures Breaks(text) == text
  {
    if text != "" {
      assert text == [text[0]] + text[1..];
      BreaksNothing(text[1..]);
    }
  }

  lemma {:induction false} BreaksAll(text: string)
    ensures Free(Breaks(text), '\r')
    decreases |text|
  {
    if text == "" {
    } else if text[0] != '\r' {
      BreaksAll(text[1..]);
    } else {
      BreaksAll(text[if |text| > 1 && text[1] == '\n' then 2 else 1..]);
    }
  }

  lemma {:induction false} UnlinesSplit(lines: seq<string>, tail: string)
    requires forall l | l in lines :: Free(l, '\n')
    ensures Split(Unlines(lines) + tail, '\n') == lines + Split(tail, '\n')
  {
    if lines == [] {
      assert Unlines(lines) + tail == tail;
    } else {
      hide Split;
      assert forall l | l in lines[1..] :: l in lines;
      UnlinesSplit(lines[1..], tail);
      assert lines[0] in lines;
      SplitFree(lines[0], '\n');
      SplitAfter(lines[0], Unlines(lines[1..]) + tail, '\n');
      Associate(lines[0], ['\n'], Unlines(lines[1..]), tail);
      AssociateParts(lines, Split(tail, '\n'));
    }
  }

  lemma Associate(a: string, b: string, c: string, d: string)
    ensures a + b + c + d == a + b + (c + d)
  {
  }

  lemma AssociateParts(lines: seq<string>, parts: seq<string>)
    requires lines != []
    ensures [lines[0]] + (lines[1..] + parts) == lines + parts
  {
  }

  lemma {:induction false} UnlinesFree(lines: seq<string>)
    requires AllOneLine(lines)
    ensures Free(Unlines(lines), '\r')
  {
    if lines != [] {
      assert lines[0] in lines && OneLine(lines[0]);
      assert forall l | l in lines[1..] :: l in lines;
      UnlinesFree(lines[1..]);
    }
  }

  /** Reading lines back undoes printing them. */
  lemma LinesOfUnlines(lines: seq<string>)
    requires AllOneLine(lines)
    ensures Lines(Unlines(lines)) == lines
  {
    UnlinesFree(lines);
    BreaksNothing(Unlines(lines));
    UnlinesSplit(lines, "");
    assert Unlines(lines) + "" == Unlines(lines);
    assert Split("", '\n') == [""];
  }

  lemma LinesAreOneLine(text: string)
    ensures AllOneLine(Lines(text))
  {
    BreaksAll(text);
    SplitParts(Breaks(text), '\n');
    SplitKeepsOut(Breaks(text), '\n', '\r');
  }

  lemma {:induction false} SplitKeepsOut(s: string, sep: char, c: char)
    requires Free(s, c)
    ensures forall p | p in Split(s, sep) :: Free(p, c)
  {
    if s != "" {
      assert s[0] in s && forall x | x in s[1..] :: x in s;
      SplitKeepsOut(s[1..], sep, c);
      ConsKeepsOut(s[0], Split(s[1..], sep), sep, c);
    }
  }

  lemma ConsKeepsOut(x: char, parts: seq<string>, sep: char, c: char)
    requires parts != [] && x != c && forall p | p in parts :: Free(p, c)
    ensures forall p | p in ConsChar(x, parts, sep) :: Free(p, c)
  {
    assert parts[0] in parts && forall p | p in parts[1..] :: p in parts;
  }

  // ----- reading a literal block -----

  function Spaces(l: string): (n: nat)
    ensures n <= |l|
  {
    if l != "" && l[0] == ' ' then 1 + Spaces(l[1..]) else 0
  }

  /** A line of nothing but spaces. */
  predicate Vacant(l: string) {
    Spaces(l) == |l|
  }

  /** The index of the first line that is not vacant, or the number of lines. */
  function FirstText(lines: seq<string>): (f: nat)
    ensures f <= |lines|
    ensures f < |lines| ==> !Vacant(lines[f])
    ensures forall i | 0 <= i < f :: Vacant(lines[i])
  {
    if lines == [] then 0 else if !Vacant(lines[0]) then 0 else 1 + FirstText(lines[1..])
  }

  function Dedent(l: string, n: nat): string {
    if |l| <= n then "" else l[n..]
  }

  /** The texts of the lines of the scalar: it ends at the first line that holds text and is indented less. */
  function Body(lines: seq<string>, n: nat): seq<string> {
    if lines == [] || (!Vacant(lines[0]) && Spaces(lines[0]) < n) then []
    else [Dedent(lines[0], n)] + Body(lines[1..], n)
  }

  /** Clip chomping: one final line break is kept, trailing empty lines are not. */
  function Clipped(texts: seq<string>): seq<string> {
    if texts != [] && texts[|texts| - 1] == "" then Clipped(texts[..|texts| - 1]) else texts
  }

  /** A `|` scalar under a parent indented by `parent`; None when its leading empty lines are indented too deep. */
  function ReadLiteral(lines: seq<string>, parent: nat): Option<string> {
    var f := FirstText(lines);
    if f == |lines| || Spaces(lines[f]) <= parent then Some("")
    else if exists i | 0 <= i < f :: |lines[i]| > Spaces(lines[f]) then None
    else Some(Unlines(Clipped(Body(lines, Spaces(lines[f])))))
  }

  // ----- printing one -----

  const PREFIX := "      "
  const PARENT := 4

  function TrimNewline(content: string): string {
    if content != "" && content[|content| - 1] == '\n' then content[..|content| - 1] else content
  }

  /** The indented content, as `appendCloudConfigFile` writes it. */
  function BlockText(content: string): string {
    var trimmed := TrimNewline(content);
    if trimmed == "" then "" else PREFIX + ReplaceAll(trimmed, "\n", "\n" + PREFIX) + "\n"
  }

  function Indented(lines: seq<string>): seq<string> {
    seq(|lines|, i requires 0 <= i < |lines| => PREFIX + lines[i])
  }

  /** The lines a content is printed as. */
  function BlockOf(content: string): seq<string> {
    var t := TrimNewline(content);
    if t == "" then [] else Indented(Split(t, '\n'))
  }

  lemma {:induction false} IndentedText(trimmed: string)
    ensures PREFIX + ReplaceAll(trimmed, "\n", "\n" + PREFIX) + "\n" == Unlines(Indented(Split(trimmed, '\n')))
  {
    hide PREFIX;
    var ls := Split(trimmed, '\n');
    if trimmed == "" {
      assert Indented(ls) == [PREFIX] by { assert PREFIX + "" == PREFIX; }
      assert Unlines([PREFIX]) == PREFIX + "\n";
    } else {
      IndentedText(trimmed[1..]);
      IndentedCons(trimmed[0], Split(trimmed[1..], '\n'), ReplaceAll(trimmed[1..], "\n", "\n" + PREFIX));
      assert trimmed[..1] == [trimmed[0]];
    }
  }

  lemma IndentedCons(c: char, parts: seq<string>, rest: string)
    requires parts != [] && PREFIX + rest + "\n" == Unlines(Indented(parts))
    ensures var all := ConsChar(c, parts, '\n');
            Unlines(Indented(all)) == PREFIX + ((if c == '\n' then "\n" + PREFIX else [c]) + rest) + "\n"
  {
    hide PREFIX;
    var all := ConsChar(c, parts, '\n');
    if c == '\n' {
      assert Indented(all)[1..] == Indented(parts);
      assert PREFIX + "" == PREFIX;
      assert Unlines(Indented(all)) == PREFIX + "\n" + (PREFIX + rest + "\n");
    } else {
      assert Indented(all)[1..] == Indented(parts)[1..];
      var others := Unlines(Indented(parts)[1..]);
      assert PREFIX + (rest + "\n") == PREFIX + rest + "\n" == PREFIX + parts[0] + "\n" + others;
      assert PREFIX + parts[0] + "\n" + others == PREFIX + (parts[0] + "\n" + others);
      SamePrefix(PREFIX, rest + "\n", parts[0] + "\n" + others);
      assert Unlines(Indented(all)) == PREFIX + ([c] + parts[0]) + "\n" + others;
      assert PREFIX + ([c] + parts[0]) + "\n" + others == PREFIX + [c] + (parts[0] + "\n" + others);
    }
  }

  lemma SamePrefix(p: string, a: string, b: string)
    requires p + a == p + b
    ensures a == b
  {
    assert (p + a)[|p|..] == a && (p + b)[|p|..] == b;
  }

  // ----- which contents survive -----

  /** What follows the block: nothing, or a line of the enclosing document. */
  predicate Stops(rest: seq<string>) {
    AllOneLine(rest) && (rest != [] ==> !Vacant(rest[0]) && Spaces(rest[0]) <= PARENT)
  }

  /** The content that reads back: nothing at all; or lines ended by line feeds alone, the first of which with any
      text in it starts with that text, has only empty lines before it, and the last of which is not empty. */
  predicate Blockable(content: string) {
    content == "" ||
    (&& Free(content, '\r') && content[|content| - 1] == '\n'
     && var lines := Split(content[..|content| - 1], '\n');
        var f := FirstText(lines);
        && f < |lines| && Spaces(lines[f]) == 0
        && (forall i | 0 <= i < f :: lines[i] == "")
        && lines[|lines| - 1] != "")
  }

  lemma PrefixSpaces(l: string)
    ensures Spaces(PREFIX + l) == 6 + Spaces(l)
    ensures Vacant(PREFIX + l) == Vacant(l)
  {
    var one := " " + l;
    var two := " " + one;
    var three := " " + two;
    var four := " " + three;
    var five := " " + four;
    OneSpace(l);
    OneSpace(one);
    OneSpace(two);
    OneSpace(three);
    OneSpace(four);
    OneSpace(five);
    assert PREFIX + l == " " + five;
  }

  lemma OneSpace(l: string)
    ensures Spaces(" " + l) == 1 + Spaces(l) && Vacant(" " + l) == Vacant(l)
  {
    assert (" " + l)[1..] == l;
  }

  lemma {:induction false} FirstIndented(lines: seq<string>, rest: seq<string>)
    requires Stops(rest)
    ensures FirstText(Indented(lines) + rest) == FirstText(lines)
  {
    var all := Indented(lines) + rest;
    if lines == [] {
      assert all == rest;
    } else {
      PrefixSpaces(lines[0]);
      hide PREFIX;
      assert all[0] == PREFIX + lines[0];
      assert all[1..] == Indented(lines[1..]) + rest;
      FirstIndented(lines[1..], rest);
    }
  }

  /** The texts of the printed lines, read at an indentation the first of them has. */
  lemma {:induction false} BodyIndented(lines: seq<string>, rest: seq<string>)
    requires Stops(rest)
    ensures Body(Indented(lines) + rest, 6) == lines
  {
    var all := Indented(lines) + rest;
    if lines == [] {
      assert all == rest;
    } else {
      PrefixSpaces(lines[0]);
      assert all[0] == PREFIX + lines[0];
      assert all[1..] == Indented(lines[1..]) + rest;
      BodyIndented(lines[1..], rest);
      assert (PREFIX + lines[0])[6..] == lines[0];
    }
  }

  /** Read at a deeper indentation, the body reaches its first text line and drops spaces from it. */
  lemma {:induction false} BodyDeeper(lines: seq<string>, rest: seq<string>, f: nat, k: nat)
    requires f == FirstText(lines) && f < |lines| && Spaces(lines[f]) == k
    requires forall i | 0 <= i < f :: |lines[i]| <= k
    ensures var body := Body(Indented(lines) + rest, 6 + k); |body| > f && body[f] == lines[f][k..]
  {
    var all := Indented(lines) + rest;
    PrefixSpaces(lines[0]);
    assert all[0] == PREFIX + lines[0];
    if f > 0 {
      assert all[1..] == Indented(lines[1..]) + rest;
      BodyDeeper(lines[1..], rest, f - 1, k);
    } else {
      assert (PREFIX + lines[0])[6 + k..] == lines[0][k..];
    }
  }

  lemma {:induction false} ClippedKeeps(texts: seq<string>, f: nat)
    requires f < |texts| && texts[f] != ""
    ensures |Clipped(texts)| > f && Clipped(texts) <= texts
  {
    if texts[|texts| - 1] == "" { ClippedKeeps(texts[..|texts| - 1], f); }
  }

  lemma {:induction false} UnlinesInjective(a: seq<string>, b: seq<string>)
    requires (forall l | l in a :: Free(l, '\n')) && (forall l | l in b :: Free(l, '\n'))
    requires Unlines(a) == Unlines(b)
    ensures a == b
  {
    UnlinesSplit(a, "");
    UnlinesSplit(b, "");
    assert Split("", '\n') == [""];
    assert Unlines(a) + "" == Unlines(a) && Unlines(b) + "" == Unlines(b);
    assert a == (a + [""])[..|a + [""]| - 1] && b == (b + [""])[..|b + [""]| - 1];
  }

  lemma {:induction false} UnlinesEnds(lines: seq<string>)
    ensures lines != [] ==> Unlines(lines) != "" && Unlines(lines)[|Unlines(lines)| - 1] == '\n'
  {
    if |lines| > 1 { UnlinesEnds(lines[1..]); }
  }

  lemma {:induction false} UnlinesJoin(lines: seq<string>)
    requires lines != []
    ensures Unlines(lines) == Join(lines, "\n") + "\n"
  {
    if |lines| > 1 {
      UnlinesJoin(lines[1..]);
    } else {
      assert Unlines(lines[1..]) == "";
    }
  }

  lemma ReadsNoReturn(lines: seq<string>, parent: nat)
    requires AllOneLine(lines)
    ensures match ReadLiteral(lines, parent) case None => true case Some(r) => Free(r, '\r')
  {
    var f := FirstText(lines);
    if f < |lines| {
      BodyOneLine(lines, Spaces(lines[f]));
      ClippedOneLine(Body(lines, Spaces(lines[f])));
      UnlinesFree(Clipped(Body(lines, Spaces(lines[f]))));
    }
  }

  lemma {:induction false} BodyOneLine(lines: seq<string>, n: nat)
    requires AllOneLine(lines)
    ensures AllOneLine(Body(lines, n))
  {
    if lines != [] {
      assert lines[0] in lines && OneLine(lines[0]);
      assert forall l | l in lines[1..] :: l in lines;
      BodyOneLine(lines[1..], n);
      assert forall c | c in Dedent(lines[0], n) :: c in lines[0];
    }
  }

  lemma {:induction false} ClippedOneLine(texts: seq<string>)
    requires AllOneLine(texts)
    ensures AllOneLine(Clipped(texts))
  {
    if texts != [] && texts[|texts| - 1] == "" {
      assert forall l | l in texts[..|texts| - 1] :: l in texts;
      ClippedOneLine(texts[..|texts| - 1]);
    }
  }

  /** What the reader sees of a block without carriage returns: its indented lines, then what follows. */
  lemma BlockLines(content: string, rest: seq<string>)
    requires AllOneLine(rest) && Free(content, '\r')
    ensures Lines(BlockText(content) + Unlines(rest)) == BlockOf(content) + rest
  {
    var t := TrimNewline(content);
    if t == "" {
      LinesOfUnlines(rest);
      assert "" + Unlines(rest) == Unlines(rest);
      assert [] + rest == rest;
    } else {
      var ls := Split(t, '\n');
      IndentedText(t);
      assert forall c | c in t :: c in content;
      SplitParts(t, '\n');
      SplitKeepsOut(t, '\n', '\r');
      IndentedOneLine(ls);
      var all := Indented(ls) + rest;
      UnlinesAppend(Indented(ls), rest);
      LinesOfUnlines(all);
    }
  }

  lemma IndentedOneLine(lines: seq<string>)
    requires AllOneLine(lines)
    ensures AllOneLine(Indented(lines))
  {
    forall i | 0 <= i < |lines|
      ensures OneLine(Indented(lines)[i])
    {
      assert OneLine(lines[i]);
    }
  }

  lemma {:induction false} UnlinesAppend(a: seq<string>, b: seq<string>)
    ensures Unlines(a + b) == Unlines(a) + Unlines(b)
  {
    if a == [] {
      assert a + b == b;
    } else {
      assert (a + b)[1..] == a[1..] + b;
      UnlinesAppend(a[1..], b);
      Associate(a[0], "\n", Unlines(a[1..]), Unlines(b));
    }
  }

  /** A printed block reads back, in any document that goes on at the parent's level, exactly when it is blockable. */
  lemma BlockReadsBackExactly(content: string, rest: seq<string>)
    requires Stops(rest)
    ensures ReadLiteral(Lines(BlockText(content) + Unlines(rest)), PARENT) == Some(content) <==> Blockable(content)
  {
    var t := TrimNewline(content);
    if !Free(content, '\r') {
      LinesAreOneLine(BlockText(content) + Unlines(rest));
      ReadsNoReturn(Lines(BlockText(content) + Unlines(rest)), PARENT);
      hide Lines;
      hide ReadLiteral;
      hide BlockText;
    } else if t == "" {
      BlockLines(content, rest);
      hide Lines;
      hide BlockText;
      assert [] + rest == rest;
      assert Split("", '\n') == [""];
      EmptyReads(content, rest);
    } else {
      BlockLines(content, rest);
      hide Lines;
      hide BlockText;
      TextReadsExactly(content, t, rest);
      hide ReadLiteral;
    }
  }

  lemma EmptyReads(content: string, rest: seq<string>)
    requires Stops(rest) && TrimNewline(content) == ""
    ensures ReadLiteral(rest, PARENT) == Some("")
    ensures Blockable(content) <==> content == ""
  {
    assert Split("", '\n') == [""];
  }

  /** The content of a block with text in it is its lines, if it ends in a line feed. */
  lemma ContentIsLines(content: string)
    requires content != "" && content[|content| - 1] == '\n'
    ensures content == Unlines(Split(TrimNewline(content), '\n'))
    ensures forall l | l in Split(TrimNewline(content), '\n') :: Free(l, '\n')
  {
    var t := TrimNewline(content);
    SplitParts(t, '\n');
    UnlinesJoin(Split(t, '\n'));
    assert content == t + "\n";
  }

  lemma ClippedSame(lines: seq<string>)
    requires lines != []
    ensures Clipped(lines) == lines <==> lines[|lines| - 1] != ""
  {
    ClippedShorter(lines[..|lines| - 1]);
  }

  lemma {:induction false} ClippedShorter(lines: seq<string>)
    ensures |Clipped(lines)| <= |lines| && Clipped(lines) <= lines
  {
    if lines != [] && lines[|lines| - 1] == "" { ClippedShorter(lines[..|lines| - 1]); }
  }

  /** The first line with text starts with it: every line keeps its text, and only clipping can lose any. */
  lemma FlushReads(content: string, t: string, rest: seq<string>, f: nat)
    requires Stops(rest) && Free(content, '\r') && t == TrimNewline(content) && t != ""
    requires var ls := Split(t, '\n'); f == FirstText(ls) && f < |ls| && Spaces(ls[f]) == 0
    ensures ReadLiteral(Indented(Split(t, '\n')) + rest, PARENT) == Some(content) <==> Blockable(content)
  {
    var ls := Split(t, '\n');
    FlushRead(ls, rest, f);
    FlushResult(content, t, ls);
    hide ReadLiteral;
    hide Indented;
    hide Stops;
    hide FirstText;
    hide Split;
    hide Clipped;
    hide Unlines;
  }

  lemma FlushRead(ls: seq<string>, rest: seq<string>, f: nat)
    requires Stops(rest) && f == FirstText(ls) && f < |ls| && Spaces(ls[f]) == 0
    ensures ReadLiteral(Indented(ls) + rest, PARENT)
         == if exists i | 0 <= i < f :: ls[i] != "" then None else Some(Unlines(Clipped(ls)))
  {
    var all := Indented(ls) + rest;
    FirstIndented(ls, rest);
    PrefixSpaces(ls[f]);
    BodyIndented(ls, rest);
    assert all[f] == PREFIX + ls[f];
    assert forall i | 0 <= i < f :: |all[i]| == 6 + |ls[i]|;
    hide Body;
    hide Indented;
    hide Stops;
    hide FirstText;
    hide PREFIX;
    hide Clipped;
    hide Unlines;
  }

  lemma FlushResult(content: string, t: string, ls: seq<string>)
    requires Free(content, '\r') && t == TrimNewline(content) && t != "" && ls == Split(t, '\n')
    ensures Unlines(Clipped(ls)) == content <==> content[|content| - 1] == '\n' && ls[|ls| - 1] != ""
  {
    ClippedSame(ls);
    ClippedShorter(ls);
    UnlinesEnds(Clipped(ls));
    if content[|content| - 1] == '\n' {
      ContentIsLines(content);
      if Unlines(Clipped(ls)) == content { UnlinesInjective(Clipped(ls), ls); }
    }
  }

  /** The first line with text starts with spaces: they count as indentation, and are lost. */
  lemma DeepReads(content: string, t: string, rest: seq<string>, f: nat)
    requires Stops(rest) && Free(content, '\r') && t == TrimNewline(content) && t != ""
    requires var ls := Split(t, '\n'); f == FirstText(ls) && f < |ls| && Spaces(ls[f]) > 0
    ensures ReadLiteral(Indented(Split(t, '\n')) + rest, PARENT) != Some(content)
  {
    var ls := Split(t, '\n');
    var all := Indented(ls) + rest;
    var k := Spaces(ls[f]);
    FirstIndented(ls, rest);
    PrefixSpaces(ls[f]);
    assert all[f] == PREFIX + ls[f];
    if !exists i | 0 <= i < f :: |all[i]| > 6 + k {
      assert forall i | 0 <= i < f :: |all[i]| == 6 + |ls[i]|;
      BodyDeeper(ls, rest, f, k);
      BodyLines(t, rest, 6 + k);
      DeepResult(content, t, ls, Body(all, 6 + k), f, k);
    }
    hide Body;
    hide Indented;
    hide Stops;
    hide FirstText;
    hide Split;
    hide PREFIX;
    hide Clipped;
    hide Unlines;
  }

  lemma BodyLines(t: string, rest: seq<string>, n: nat)
    requires Stops(rest) && Free(t, '\r')
    ensures AllOneLine(Body(Indented(Split(t, '\n')) + rest, n))
  {
    SplitParts(t, '\n');
    SplitKeepsOut(t, '\n', '\r');
    IndentedOneLine(Split(t, '\n'));
    BodyOneLine(Indented(Split(t, '\n')) + rest, n);
  }

  lemma DeepResult(content: string, t: string, ls: seq<string>, body: seq<string>, f: nat, k: nat)
    requires t == TrimNewline(content) && t != "" && ls == Split(t, '\n') && AllOneLine(body)
    requires f < |ls| && 0 < k < |ls[f]| && f < |body| && body[f] == ls[f][k..]
    ensures Unlines(Clipped(body)) != content
  {
    ClippedKeeps(body, f);
    UnlinesEnds(Clipped(body));
    if Unlines(Clipped(body)) == content {
      ContentIsLines(content);
      assert forall l | l in Clipped(body) :: l in body;
      UnlinesInjective(Clipped(body), ls);
    }
  }

  lemma TextReadsExactly(content: string, t: string, rest: seq<string>)
    requires Stops(rest) && Free(content, '\r') && t == TrimNewline(content) && t != ""
    ensures ReadLiteral(Indented(Split(t, '\n')) + rest, PARENT) == Some(content) <==> Blockable(content)
  {
    var ls := Split(t, '\n');
    FirstIndented(ls, rest);
    var f := FirstText(ls);
    if f < |ls| {
      PrefixSpaces(ls[f]);
      if Spaces(ls[f]) == 0 {
        FlushReads(content, t, rest, f);
      } else {
        DeepReads(content, t, rest, f);
      }
    } else {
      assert rest == [] || !Vacant((Indented(ls) + rest)[f]);
      assert rest != [] ==> (Indented(ls) + rest)[f] == rest[0];
    }
  }

  /** How many lines the scalar takes up. */
  function BlockSize(lines: seq<string>, parent: nat): (n: nat)
    ensures n <= |lines|
  {
    var f := FirstText(lines);
    if f == |lines| || Spaces(lines[f]) <= parent then f else BodySize(lines, Spaces(lines[f]))
  }

  function BodySize(lines: seq<string>, n: nat): (size: nat)
    ensures size <= |lines|
  {
    if lines == [] || (!Vacant(lines[0]) && Spaces(lines[0]) < n) then 0 else 1 + BodySize(lines[1..], n)
  }

  lemma {:induction false} BodySizeIndented(lines: seq<string>, rest: seq<string>)
    requires Stops(rest)
    ensures BodySize(Indented(lines) + rest, 6) == |lines|
  {
    var all := Indented(lines) + rest;
    if lines == [] {
      assert all == rest;
    } else {
      PrefixSpaces(lines[0]);
      assert all[0] == PREFIX + lines[0];
      assert all[1..] == Indented(lines[1..]) + rest;
      BodySizeIndented(lines[1..], rest);
    }
  }

  /** In lines: a blockable content reads back from its block. */
  lemma BlockReads(content: string, rest: seq<string>)
    requires Stops(rest) && Blockable(content)
    ensures ReadLiteral(BlockOf(content) + rest, PARENT) == Some(content)
  {
    BlockReadsBackExactly(content, rest);
    BlockLines(content, rest);
    hide ReadLiteral;
    hide Lines;
    hide BlockText;
    hide BlockOf;
  }

  /** Reading stops where the block does. */
  lemma BlockEnds(content: string, rest: seq<string>)
    requires Stops(rest) && Blockable(content)
    ensures BlockSize(BlockOf(content) + rest, PARENT) == |BlockOf(content)|
    ensures AllOneLine(BlockOf(content))
  {
    var t := TrimNewline(content);
    hide Blockable;
    hide BlockSize;
    if t == "" {
      VacantBlock(rest);
      assert [] + rest == rest;
    } else {
      BlockTakes(content, t, rest);
    }
    hide Indented;
    hide Split;
  }

  lemma VacantBlock(rest: seq<string>)
    requires Stops(rest)
    ensures BlockSize(rest, PARENT) == 0
  {
  }

  lemma BlockTakes(content: string, t: string, rest: seq<string>)
    requires Stops(rest) && Blockable(content) && t == TrimNewline(content) && t != ""
    ensures BlockSize(Indented(Split(t, '\n')) + rest, PARENT) == |Split(t, '\n')|
    ensures AllOneLine(Indented(Split(t, '\n')))
  {
    var ls := Split(t, '\n');
    FirstIndented(ls, rest);
    var f := FirstText(ls);
    PrefixSpaces(ls[f]);
    assert (Indented(ls) + rest)[f] == PREFIX + ls[f];
    BodySizeIndented(ls, rest);
    assert forall c | c in t :: c in content;
    SplitParts(t, '\n');
    SplitKeepsOut(t, '\n', '\r');
    IndentedOneLine(ls);
    hide Indented;
    hide BodySize;
    hide Stops;
    hide PREFIX;
  }
}

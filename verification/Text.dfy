/** The string operations of Go's `strings` package that the provider relies on. */
module Text {

  datatype Option<+T> = None | Some(value: T)

  /** What a trim removes: one character, or the characters `unicode.IsSpace` accepts. */
  datatype CutSet = Only(c: char) | White
  {
    predicate Has(x: char) {
      if Only? then x == c else IsSpace(x)
    }
  }

  predicate IsSpace(x: char) {
    || '\t' <= x <= '\r' || x == ' ' || x == '\U{85}' || x == '\U{A0}' || x == '\U{1680}'
    || '\U{2000}' <= x <= '\U{200A}' || x == '\U{2028}' || x == '\U{2029}' || x == '\U{202F}'
    || x == '\U{205F}' || x == '\U{3000}'
  }

  function TrimLeft(s: string, cut: CutSet): string {
    if s != "" && cut.Has(s[0]) then TrimLeft(s[1..], cut) else s
  }

  function TrimRight(s: string, cut: CutSet): string {
    if s != "" && cut.Has(s[|s| - 1]) then TrimRight(s[..|s| - 1], cut) else s
  }

  function Trim(s: string, cut: CutSet): string {
    TrimRight(TrimLeft(s, cut), cut)
  }

  function TrimSpace(s: string): string {
    Trim(s, White)
  }

  predicate Blank(s: string) {
    TrimSpace(s) == ""
  }

  /** `s` has nothing to trim. */
  predicate Trimmed(s: string) {
    TrimSpace(s) == s
  }

  function TrimPrefix(s: string, prefix: string): string {
    if prefix <= s then s[|prefix|..] else s
  }

  predicate Contains(s: string, part: string) {
    part <= s || (s != "" && Contains(s[1..], part))
  }

  /** `strings.Cut` at a one-character separator: the text before and after its first occurrence. */
  function Cut(s: string, sep: char): Option<(string, string)> {
    if s == "" then None
    else if s[0] == sep then Some(("", s[1..]))
    else match Cut(s[1..], sep)
      case None => None
      case Some((before, after)) => Some(([s[0]] + before, after))
  }

  /** `strings.ReplaceAll`: non-overlapping occurrences, left to right. */
  function ReplaceAll(s: string, from: string, to: string): string
    requires from != ""
  {
    if |s| < |from| then s
    else if s[..|from|] == from then to + ReplaceAll(s[|from|..], from, to)
    else [s[0]] + ReplaceAll(s[1..], from, to)
  }

  /** `strings.Split` at a one-character separator. */
  function Split(s: string, sep: char): (parts: seq<string>)
    ensures parts != []
  {
    if s == "" then [""] else ConsChar(s[0], Split(s[1..], sep), sep)
  }

  function ConsChar(c: char, parts: seq<string>, sep: char): seq<string>
    requires parts != []
  {
    if c == sep then [""] + parts else [[c] + parts[0]] + parts[1..]
  }

  function Join(parts: seq<string>, sep: string): string {
    if parts == [] then ""
    else if |parts| == 1 then parts[0]
    else parts[0] + sep + Join(parts[1..], sep)
  }

  /** The number of bytes in the UTF-8 form of `s`, which is what Go's `len` counts. */
  function ByteLength(s: string): nat {
    if s == "" then 0
    else
      var c := s[0] as int;
      (if c < 0x80 then 1 else if c < 0x800 then 2 else if c < 0x1_0000 then 3 else 4) + ByteLength(s[1..])
  }

  function Digit(d: nat): char
    requires d < 10
  {
    '0' + d as char
  }

  /** The decimal form `fmt` gives an integer. */
  function Decimal(n: int): string
    decreases n < 0, if n < 0 then -n else n
  {
    if n < 0 then "-" + Decimal(-n)
    else if n < 10 then [Digit(n)]
    else Decimal(n / 10) + [Digit(n % 10)]
  }

  /** The value of an optionally signed run of decimal digits. */
  function ParseDecimal(s: string): Option<int> {
    if s == "" then None
    else if s[0] == '-' || s[0] == '+' then
      match ParseDigits(s[1..])
      case None => None
      case Some(n) => Some(if s[0] == '-' then -n else n)
    else ParseDigits(s)
  }

  function ParseDigits(s: string): (r: Option<int>)
    ensures r.Some? ==> r.value >= 0
  {
    if s == "" || !('0' <= s[|s| - 1] <= '9') then None
    else
      var d := (s[|s| - 1] - '0') as int;
      if |s| == 1 then Some(d)
      else match ParseDigits(s[..|s| - 1])
        case None => None
        case Some(n) => Some(10 * n + d)
  }

  lemma {:induction false} DigitsReadBack(n: nat)
    ensures Decimal(n) != "" && Decimal(n)[0] != '-' && Decimal(n)[0] != '+'
    ensures ParseDigits(Decimal(n)) == Some(n)
  {
    if n >= 10 {
      DigitsReadBack(n / 10);
      assert Decimal(n)[..|Decimal(n)| - 1] == Decimal(n / 10);
    }
  }

  lemma DecimalReadsBack(n: int)
    ensures ParseDecimal(Decimal(n)) == Some(n)
  {
    DigitsReadBack(if n < 0 then -n else n);
    if n < 0 { assert Decimal(n)[1..] == Decimal(-n); }
  }

  /** Provider identifiers that print two integers the same way name the same integer. */
  lemma DecimalInjective(prefix: string, a: int, b: int)
    requires prefix + Decimal(a) == prefix + Decimal(b)
    ensures a == b
  {
    assert (prefix + Decimal(a))[|prefix|..] == Decimal(a);
    assert (prefix + Decimal(b))[|prefix|..] == Decimal(b);
    DecimalReadsBack(a);
    DecimalReadsBack(b);
  }

  lemma TrimLeftStops(s: string, cut: CutSet)
    ensures TrimLeft(s, cut) != "" ==> !cut.Has(TrimLeft(s, cut)[0])
    ensures |TrimLeft(s, cut)| <= |s|
    ensures TrimLeft(s, cut) == s[|s| - |TrimLeft(s, cut)|..]
  {
  }

  lemma TrimRightStops(s: string, cut: CutSet)
    ensures TrimRight(s, cut) != "" ==> !cut.Has(TrimRight(s, cut)[|TrimRight(s, cut)| - 1])
    ensures TrimRight(s, cut) <= s
  {
  }

  /** Trimming leaves text with kept characters at both ends, and nothing else is ever left alone. */
  lemma TrimEnds(s: string, cut: CutSet)
    ensures var t := Trim(s, cut); t != "" ==> !cut.Has(t[0]) && !cut.Has(t[|t| - 1])
    ensures Trim(s, cut) == s <==> s == "" || (!cut.Has(s[0]) && !cut.Has(s[|s| - 1]))
    ensures forall c :: c in Trim(s, cut) ==> c in s
  {
    TrimLeftStops(s, cut);
    TrimRightStops(TrimLeft(s, cut), cut);
  }

  lemma TrimIdempotent(s: string)
    ensures Trimmed(TrimSpace(s))
  {
    TrimEnds(s, White);
    TrimEnds(TrimSpace(s), White);
  }

  /** Text with a character that is not white space is not blank. */
  lemma {:induction false} NotBlank(s: string, k: nat)
    requires k < |s| && !IsSpace(s[k])
    ensures !Blank(s)
  {
    KeepsLeft(s, White, k);
    var t := TrimLeft(s, White);
    TrimLeftStops(s, White);
    TrimRightStops(t, White);
    KeepsRight(t, White);
  }

  lemma KeepsLeft(s: string, cut: CutSet, k: nat)
    requires k < |s| && !cut.Has(s[k])
    ensures TrimLeft(s, cut) != ""
  {
    if cut.Has(s[0]) { KeepsLeft(s[1..], cut, k - 1); }
  }

  lemma KeepsRight(s: string, cut: CutSet)
    requires s != "" && !cut.Has(s[0])
    ensures TrimRight(s, cut) != ""
  {
  }

  predicate Free(s: string, c: char) {
    c !in s
  }

  lemma SplitFree(s: string, sep: char)
    requires Free(s, sep)
    ensures Split(s, sep) == [s]
  {
    if s != "" {
      SplitFree(s[1..], sep);
      assert Split(s, sep) == ConsChar(s[0], [s[1..]], sep);
      assert [s[0]] + s[1..] == s;
    }
  }

  /** Splitting undoes joining when no part holds the separator. */
  lemma {:induction false} SplitJoin(parts: seq<string>, sep: char)
    requires parts != [] && forall p | p in parts :: Free(p, sep)
    ensures Split(Join(parts, [sep]), sep) == parts
  {
    SplitFree(parts[0], sep);
    if |parts| > 1 {
      SplitJoin(parts[1..], sep);
      assert Join(parts, [sep]) == parts[0] + [sep] + Join(parts[1..], [sep]);
      SplitAfter(parts[0], Join(parts[1..], [sep]), sep);
    }
  }

  lemma {:induction false} SplitAfter(a: string, b: string, sep: char)
    ensures Split(a + [sep] + b, sep) == Split(a, sep) + Split(b, sep)
  {
    var s := a + [sep] + b;
    if a == "" {
      assert s[1..] == b;
    } else {
      assert s[1..] == a[1..] + [sep] + b;
      SplitAfter(a[1..], b, sep);
      ConsAppend(a[0], Split(a[1..], sep), Split(b, sep), sep);
    }
  }

  lemma ConsAppend(c: char, parts: seq<string>, more: seq<string>, sep: char)
    requires parts != []
    ensures ConsChar(c, parts + more, sep) == ConsChar(c, parts, sep) + more
  {
  }

  lemma {:induction false} SplitParts(s: string, sep: char)
    ensures forall p | p in Split(s, sep) :: Free(p, sep)
    ensures Join(Split(s, sep), [sep]) == s
  {
    if s != "" {
      SplitParts(s[1..], sep);
      ConsParts(s[0], Split(s[1..], sep), sep);
      assert [s[0]] + s[1..] == s;
    }
  }

  lemma ConsParts(c: char, parts: seq<string>, sep: char)
    requires parts != [] && forall p | p in parts :: Free(p, sep)
    ensures forall p | p in ConsChar(c, parts, sep) :: Free(p, sep)
    ensures Join(ConsChar(c, parts, sep), [sep]) == [c] + Join(parts, [sep])
  {
    var all := ConsChar(c, parts, sep);
    if c == sep {
      assert all[1..] == parts;
      assert "" + [sep] + Join(parts, [sep]) == [c] + Join(parts, [sep]);
    } else {
      assert all[1..] == parts[1..];
      assert forall p | p in all[1..] :: p in parts;
      assert parts[0] in parts;
      if |parts| > 1 {
        var rest := Join(parts[1..], [sep]);
        assert ([c] + parts[0]) + [sep] + rest == [c] + (parts[0] + [sep] + rest);
      }
    }
  }

  /** Cutting at the first separator finds exactly the split the text was built from. */
  lemma CutJoined(before: string, after: string, sep: char)
    requires Free(before, sep)
    ensures Cut(before + [sep] + after, sep) == Some((before, after))
  {
    var s := before + [sep] + after;
    if before == "" {
      assert s[1..] == after;
    } else {
      assert s[1..] == before[1..] + [sep] + after;
      CutJoined(before[1..], after, sep);
      assert [before[0]] + before[1..] == before;
    }
  }

  lemma CutPieces(s: string, sep: char)
    ensures match Cut(s, sep)
            case None => Free(s, sep)
            case Some((before, after)) => Free(before, sep) && s == before + [sep] + after
  {
    if s != "" && s[0] != sep { CutPieces(s[1..], sep); }
  }
}

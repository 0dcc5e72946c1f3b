/** How the three backends turn a controller ID and a runner name into a resource name. */
module Names {
  import opened Text

  /** Go's Unicode case mappings, known only by what the provider relies on: `lower` leaves
      names alone, and the two power states are upper-case and differ under case folding. */
  datatype CaseMaps = CaseMaps(lower: string -> string, upper: string -> string, fold: string -> string)
  {
    ghost predicate Lawful() {
      && (forall s :: (forall c | c in s :: Plain(c)) ==> lower(s) == s)
      && upper("RUNNING") == "RUNNING" && upper("STOPPED") == "STOPPED"
      && fold("RUNNING") != fold("STOPPED")
    }

    /** `strings.EqualFold` */
    predicate EqualFold(a: string, b: string) {
      fold(a) == fold(b)
    }
  }

  type Casing = c: CaseMaps | c.Lawful() witness CaseMaps(s => s, s => s, s => s)

  /** The first four bytes of a SHA-256 sum, in lower-case hexadecimal; nothing else is known of it. */
  type Digest = d: string -> string | IsDigest(d) witness s => "00000000"

  ghost predicate IsDigest(d: string -> string) {
    forall s :: Hex8(d(s))
  }

  predicate Hex8(s: string) {
    |s| == 8 && forall c | c in s :: '0' <= c <= '9' || 'a' <= c <= 'f'
  }

  predicate Alnum(c: char) {
    'a' <= c <= 'z' || '0' <= c <= '9'
  }

  predicate Plain(c: char) {
    Alnum(c) || c == '-' || c == '_'
  }

  predicate Separator(c: char) {
    c == '-' || c == '_'
  }

  /** The maximal runs of lower-case letters and digits. */
  function Words(s: string): (words: seq<string>)
    ensures s != "" && Alnum(s[0]) ==> words != []
  {
    if s == "" then []
    else if !Alnum(s[0]) then Words(s[1..])
    else if |s| == 1 || !Alnum(s[1]) then [[s[0]]] + Words(s[1..])
    else
      var rest := Words(s[1..]);
      [[s[0]] + rest[0]] + rest[1..]
  }

  /** What `sanitize` means: the words of the lower-cased text, joined by single separators. */
  function Sanitized(casing: CaseMaps, s: string, sep: char): string {
    Join(Words(casing.lower(s)), [sep])
  }

  /** What the loop of `sanitize` has still to write, given whether it has just written a separator. */
  ghost function Squeezed(s: string, sep: char, last: bool): string {
    if s == "" then ""
    else if Alnum(s[0]) then [s[0]] + Squeezed(s[1..], sep, false)
    else if last then Squeezed(s[1..], sep, true)
    else [sep] + Squeezed(s[1..], sep, true)
  }

  method Sanitize(casing: CaseMaps, s: string, sep: char) returns (r: string)
    requires Separator(sep)
    ensures r == Sanitized(casing, s, sep)
  {
    var lowered := casing.lower(s);
    var b := "";
    var last := false;
    for i := 0 to |lowered|
      invariant b + Squeezed(lowered[i..], sep, last) == Squeezed(lowered, sep, false)
    {
      var c := lowered[i];
      SqueezedStep(b, lowered, i, sep, last);
      if Alnum(c) {
        b := b + [c];
        last := false;
      } else if !last {
        b := b + [sep];
        last := true;
      }
    }
    assert lowered[|lowered|..] == "" && b + "" == b;
    SqueezedTrimsToWords(lowered, sep);
    r := Trim(b, Only(sep));
  }

  lemma SqueezedStep(b: string, s: string, i: nat, sep: char, last: bool)
    requires i < |s|
    ensures var rest := s[i + 1..];
            b + Squeezed(s[i..], sep, last)
            == if Alnum(s[i]) then b + [s[i]] + Squeezed(rest, sep, false)
               else if last then b + Squeezed(rest, sep, true)
               else b + [sep] + Squeezed(rest, sep, true)
  {
    assert s[i..][1..] == s[i + 1..];
  }

  lemma SqueezedTrimsToWords(s: string, sep: char)
    requires Separator(sep)
    ensures Trim(Squeezed(s, sep, false), Only(sep)) == Join(Words(s), [sep])
  {
    SqueezedIsPaddedWords(s, sep, false);
    WordsJoinNormal(s, sep);
    var padding := Padding(s, sep, false);
    TrimPadding(Join(Words(s), [sep]), padding.0, padding.1, sep);
  }

  /** The separators the loop leaves before and after the words, for `Trim` to remove. */
  ghost function Padding(s: string, sep: char, last: bool): (string, string) {
    if s == "" then ("", "")
    else if Words(s) == [] then (if last then "" else [sep], "")
    else (if Alnum(s[0]) || last then "" else [sep], if Alnum(s[|s| - 1]) then "" else [sep])
  }

  lemma {:induction false} SqueezedIsPaddedWords(s: string, sep: char, last: bool)
    ensures var (before, after) := Padding(s, sep, last);
            Squeezed(s, sep, last) == before + Join(Words(s), [sep]) + after
  {
    if s != "" {
      var tail := s[1..];
      assert tail != "" ==> tail[|tail| - 1] == s[|s| - 1];
      var all := Join(Words(tail), [sep]);
      var (before, after) := Padding(s, sep, last);
      if !Alnum(s[0]) {
        SqueezedIsPaddedWords(tail, sep, true);
        var rest := Padding(tail, sep, true);
        assert rest.0 == "" && rest.0 + all == all;
        assert Words(tail) == [] ==> all == "" && rest.1 == "";
        assert Squeezed(s, sep, last) == before + (all + rest.1);
        assert before + (all + rest.1) == before + all + rest.1;
      } else {
        SqueezedIsPaddedWords(tail, sep, false);
        SqueezedAfterAlnum(s, sep, last);
      }
    }
  }

  lemma SqueezedAfterAlnum(s: string, sep: char, last: bool)
    requires s != "" && Alnum(s[0])
    requires var (before, after) := Padding(s[1..], sep, false);
             Squeezed(s[1..], sep, false) == before + Join(Words(s[1..]), [sep]) + after
    ensures var (before, after) := Padding(s, sep, last);
            Squeezed(s, sep, last) == before + Join(Words(s), [sep]) + after
  {
    var tail := s[1..];
    var rest := Words(tail);
    var inner := Join(rest, [sep]);
    var head := [s[0]];
    var (before, after) := Padding(tail, sep, false);
    if tail == "" {
      assert s == head && Squeezed(s, sep, last) == head + "" == head;
    } else {
      assert tail[|tail| - 1] == s[|s| - 1];
      if Alnum(tail[0]) {
        JoinFirst(head, rest, sep);
        Regroup(head, before, inner, after, head + inner);
      } else if rest == [] {
        WordsEmptyExactly(tail);
        assert tail[|tail| - 1] in tail;
        assert Words(s) == [head];
        assert before + inner + after == [sep];
      } else {
        assert Words(s) == [head] + rest && ([head] + rest)[1..] == rest;
        Regroup(head, before, inner, after, head + [sep] + inner);
      }
    }
  }

  lemma Regroup(head: string, before: string, inner: string, after: string, whole: string)
    requires whole == head + before + inner
    ensures head + (before + inner + after) == "" + whole + after
  {
  }

  lemma JoinFirst(head: string, words: seq<string>, sep: char)
    requires words != []
    ensures Join([head + words[0]] + words[1..], [sep]) == head + Join(words, [sep])
  {
    var longer := [head + words[0]] + words[1..];
    if |words| > 1 {
      assert longer[1..] == words[1..];
      assert (head + words[0]) + [sep] + Join(words[1..], [sep]) == head + (words[0] + [sep] + Join(words[1..], [sep]));
    }
  }

  lemma TrimPadding(core: string, before: string, after: string, sep: char)
    requires (before == "" || before == [sep]) && (after == "" || after == [sep])
    requires core != "" ==> core[0] != sep && core[|core| - 1] != sep
    ensures Trim(before + core + after, Only(sep)) == core
  {
    DropBefore(before, core + after, sep);
    assert before + core + after == before + (core + after);
    if core != "" {
      DropAfter(core, after, sep);
    } else {
      DropBefore(after, "", sep);
      assert core + after == after + "";
    }
  }

  lemma DropBefore(before: string, rest: string, sep: char)
    requires before == "" || before == [sep]
    ensures TrimLeft(before + rest, Only(sep)) == TrimLeft(rest, Only(sep))
  {
    if before == "" {
      assert before + rest == rest;
    } else {
      assert (before + rest)[1..] == rest;
    }
  }

  lemma DropAfter(core: string, after: string, sep: char)
    requires core != "" && core[|core| - 1] != sep && (after == "" || after == [sep])
    ensures TrimRight(core + after, Only(sep)) == core
  {
    if after == "" {
      assert core + after == core;
    } else {
      assert (core + after)[..|core + after| - 1] == core;
      assert TrimRight(core, Only(sep)) == core;
    }
  }

  /** The normal form of a sanitised name: letters and digits in runs parted by single separators. */
  predicate Normal(n: string, sep: char) {
    && (forall c | c in n :: Alnum(c) || c == sep)
    && (n != "" ==> Alnum(n[0]) && Alnum(n[|n| - 1]))
    && forall i | 0 < i < |n| :: n[i - 1] == sep ==> n[i] != sep
  }

  lemma {:induction false} WordsJoinNormal(s: string, sep: char)
    requires Separator(sep)
    ensures Normal(Join(Words(s), [sep]), sep)
    ensures Words(s) != [] ==> Join(Words(s), [sep]) != ""
    ensures s != "" && Alnum(s[0]) ==> Join(Words(s), [sep])[0] == s[0]
  {
    if s != "" {
      var tail := s[1..];
      WordsJoinNormal(tail, sep);
      if Alnum(s[0]) {
        var rest := Words(tail);
        var inner := Join(rest, [sep]);
        if tail == "" || !Alnum(tail[0]) {
          var all := [[s[0]]] + rest;
          assert all[1..] == rest;
          if rest == [] {
            assert Join(all, [sep]) == [s[0]];
          } else {
            assert Join(all, [sep]) == [s[0]] + [sep] + inner;
            NormalExtends([s[0]] + [sep], inner, sep);
          }
        } else {
          JoinFirst([s[0]], rest, sep);
          NormalExtends([s[0]], inner, sep);
        }
      }
    }
  }

  lemma NormalExtends(head: string, n: string, sep: char)
    requires Separator(sep) && Normal(n, sep) && n != "" && head != "" && Alnum(head[0])
    requires head == [head[0]] || head == [head[0], sep]
    ensures Normal(head + n, sep)
  {
    var all := head + n;
    assert all[|all| - 1] == n[|n| - 1];
    forall i | 0 < i < |all| && all[i - 1] == sep
      ensures all[i] != sep
    {
      if i > |head| {
        assert n[i - |head| - 1] == sep;
        assert n[i - |head|] != sep;
      } else if i == |head| {
        assert all[i] == n[0];
      }
    }
  }

  lemma {:induction false} NormalIsItsWords(n: string, sep: char)
    requires Separator(sep) && Normal(n, sep)
    ensures Join(Words(n), [sep]) == n
  {
    if |n| > 1 {
      var tail := n[1..];
      if Alnum(tail[0]) {
        assert Normal(tail, sep);
        NormalIsItsWords(tail, sep);
        JoinFirst([n[0]], Words(tail), sep);
      } else {
        var rest := n[2..];
        assert Alnum(rest[0]) by { assert n[2] != sep; assert n[2] in n; }
        assert rest[|rest| - 1] == n[|n| - 1];
        assert Normal(rest, sep) by {
          forall i | 0 < i < |rest| && rest[i - 1] == sep ensures rest[i] != sep { assert n[i + 1] == sep; }
        }
        NormalIsItsWords(rest, sep);
        assert tail[0] in n;
        WordThenSeparator(n, sep);
      }
    }
  }

  lemma WordThenSeparator(n: string, sep: char)
    requires Separator(sep) && |n| > 2 && Alnum(n[0]) && n[1] == sep && Alnum(n[2])
    requires Join(Words(n[2..]), [sep]) == n[2..]
    ensures Join(Words(n), [sep]) == n
  {
    assert n[1..][1..] == n[2..];
    assert Words(n) == [[n[0]]] + Words(n[2..]);
    assert Words(n)[1..] == Words(n[2..]);
    assert [n[0]] + [sep] + n[2..] == n;
  }

  /** Sanitising always reaches the normal form, and leaves text alone exactly when it is already there. */
  lemma SanitizedIsNormalForm(casing: Casing, s: string, sep: char)
    requires Separator(sep)
    ensures Normal(Sanitized(casing, s, sep), sep)
    ensures Sanitized(casing, s, sep) == s <==> Normal(s, sep)
    ensures Sanitized(casing, Sanitized(casing, s, sep), sep) == Sanitized(casing, s, sep)
  {
    WordsJoinNormal(casing.lower(s), sep);
    NormalStays(casing, Sanitized(casing, s, sep), sep);
    if Normal(s, sep) { NormalStays(casing, s, sep); }
  }

  lemma NormalStays(casing: Casing, n: string, sep: char)
    requires Separator(sep) && Normal(n, sep)
    ensures Sanitized(casing, n, sep) == n
  {
    assert casing.lower(n) == n;
    NormalIsItsWords(n, sep);
  }

  /** Sanitising drops no letter and no digit: a name is empty only when it had neither. */
  lemma SanitizedEmptyExactly(casing: Casing, s: string, sep: char)
    requires Separator(sep)
    ensures Sanitized(casing, s, sep) == "" <==> forall c | c in casing.lower(s) :: !Alnum(c)
  {
    WordsJoinNormal(casing.lower(s), sep);
    WordsEmptyExactly(casing.lower(s));
  }

  lemma {:induction false} WordsEmptyExactly(s: string)
    ensures Words(s) == [] <==> forall c | c in s :: !Alnum(c)
  {
    if s != "" {
      WordsEmptyExactly(s[1..]);
      if Alnum(s[0]) { assert s[0] in s; }
      assert forall c :: c in s <==> c == s[0] || c in s[1..];
    }
  }

  // ----- the Apps backend -----

  const APP_NAME_MAX := 40

  function AppController(casing: CaseMaps, controller: string): string {
    var c := Sanitized(casing, controller, '-');
    if |c| > 12 then c[..12] else c
  }

  function RawAppName(casing: CaseMaps, controller: string, requested: string): string {
    Trim("garm-" + AppController(casing, controller) + "-" + Sanitized(casing, requested, '-'), Only('-'))
  }

  function AppPrefix(raw: string): string
    requires |raw| > APP_NAME_MAX
  {
    Trim(raw[..APP_NAME_MAX - 8 - 1], Only('-'))
  }

  function AppName(casing: CaseMaps, digest: string -> string, controller: string, requested: string): string {
    var raw := RawAppName(casing, controller, requested);
    if |raw| <= APP_NAME_MAX then raw else AppPrefix(raw) + "-" + digest(raw)
  }

  /** The cheap filter that decides which listed Apps are worth decoding. */
  predicate PlausibleManagedAppName(name: string) {
    && "garm-" <= name
    && match Cut(TrimPrefix(name, "garm-"), '-')
       case None => false
       case Some((controller, requested)) => !Blank(controller) && !Blank(requested)
  }

  /** An Apps controller ID or runner name the constructor and `validateBootstrap` let through. */
  predicate Nameable(casing: CaseMaps, s: string) {
    Sanitized(casing, s, '-') != ""
  }

  lemma RawAppNameShape(casing: Casing, controller: string, requested: string)
    requires Nameable(casing, controller) && Nameable(casing, requested)
    ensures var c := AppController(casing, controller);
            var r := Sanitized(casing, requested, '-');
            && RawAppName(casing, controller, requested) == "garm-" + c + "-" + r
            && 0 < |c| <= 12 && Alnum(c[0]) && Normal(r, '-') && r != ""
            && (forall x | x in c :: Alnum(x) || x == '-')
  {
    SanitizedIsNormalForm(casing, controller, '-');
    SanitizedIsNormalForm(casing, requested, '-');
    var s := "garm-" + AppController(casing, controller) + "-" + Sanitized(casing, requested, '-');
    assert s[0] == 'g';
    TrimEnds(s, Only('-'));
  }

  /** Short enough for TrueNAS, spelled in its alphabet, and kept by the listing filter. */
  predicate Discoverable(name: string) {
    && |name| <= APP_NAME_MAX
    && "garm-" <= name
    && (forall x | x in name :: Alnum(x) || x == '-')
    && Alnum(name[|name| - 1])
    && PlausibleManagedAppName(name)
  }

  /** Every name made for a nameable controller and runner fits TrueNAS and survives the listing filter. */
  lemma AppNameDiscoverable(casing: Casing, digest: Digest, controller: string, requested: string)
    requires Nameable(casing, controller) && Nameable(casing, requested)
    ensures Discoverable(AppName(casing, digest, controller, requested))
  {
    if |RawAppName(casing, controller, requested)| > APP_NAME_MAX {
      RawAppNameLetters(casing, controller, requested);
      LongNameDiscoverable(digest, RawAppName(casing, controller, requested));
    } else {
      ShortNameDiscoverable(casing, controller, requested);
    }
  }

  lemma LongNameDiscoverable(digest: Digest, raw: string)
    requires |raw| > APP_NAME_MAX && "garm-" <= raw && Alnum(raw[5])
    requires forall x | x in raw :: Alnum(x) || x == '-'
    ensures Discoverable(AppPrefix(raw) + "-" + digest(raw))
  {
    hide Discoverable;
    assert Hex8(digest(raw)) && digest(raw)[7] in digest(raw);
    AppPrefixShape(raw);
    SuffixedDiscoverable(AppPrefix(raw), digest(raw));
  }

  lemma ShortNameDiscoverable(casing: Casing, controller: string, requested: string)
    requires Nameable(casing, controller) && Nameable(casing, requested)
    requires |RawAppName(casing, controller, requested)| <= APP_NAME_MAX
    ensures Discoverable(RawAppName(casing, controller, requested))
  {
    hide Discoverable;
    RawAppNameShape(casing, controller, requested);
    var prefix := "garm-" + AppController(casing, controller);
    assert prefix[5] == AppController(casing, controller)[0];
    assert forall x | x in prefix :: Alnum(x) || x == '-';
    SuffixedDiscoverable(prefix, Sanitized(casing, requested, '-'));
  }

  lemma RawAppNameLetters(casing: Casing, controller: string, requested: string)
    requires Nameable(casing, controller) && Nameable(casing, requested)
    ensures var raw := RawAppName(casing, controller, requested);
            && |raw| > 5 && "garm-" <= raw && Alnum(raw[5])
            && forall x | x in raw :: Alnum(x) || x == '-'
  {
    RawAppNameShape(casing, controller, requested);
    var c := AppController(casing, controller);
    var r := Sanitized(casing, requested, '-');
    var raw := "garm-" + c + "-" + r;
    assert raw[5] == c[0];
    assert forall x | x in r :: Alnum(x) || x == '-';
    assert forall x | x in "garm-" + c :: Alnum(x) || x == '-';
  }

  lemma AppPrefixShape(raw: string)
    requires |raw| > APP_NAME_MAX && "garm-" <= raw && Alnum(raw[5])
    requires forall x | x in raw :: Alnum(x) || x == '-'
    ensures var prefix := AppPrefix(raw);
            && 5 < |prefix| <= 31 && "garm-" <= prefix && Alnum(prefix[5])
            && forall x | x in prefix :: Alnum(x) || x == '-'
  {
    var cut := raw[..31];
    assert cut[0] == raw[0] == 'g' && cut[5] == raw[5];
    assert TrimLeft(cut, Only('-')) == cut;
    TrimRightStops(cut, Only('-'));
    TrimRightKeeps(cut, Only('-'), 5);
    assert AppPrefix(raw) <= raw;
    forall x | x in AppPrefix(raw) ensures x in raw {
      var i :| 0 <= i < |AppPrefix(raw)| && AppPrefix(raw)[i] == x;
      assert raw[i] == x;
    }
  }

  lemma TrimRightKeeps(s: string, cut: CutSet, k: nat)
    requires k < |s| && !cut.Has(s[k])
    ensures |TrimRight(s, cut)| > k
  {
  }

  lemma SuffixedDiscoverable(prefix: string, suffix: string)
    requires |prefix| > 5 && "garm-" <= prefix && Alnum(prefix[5])
    requires (forall x | x in prefix :: Alnum(x) || x == '-') && suffix != "" && Alnum(suffix[|suffix| - 1])
    requires (forall x | x in suffix :: Alnum(x) || x == '-') && |prefix| + |suffix| < APP_NAME_MAX
    ensures Discoverable(prefix + "-" + suffix)
  {
    assert "garm-" <= prefix + "-" + suffix;
    var head := prefix[5..];
    assert (prefix + "-" + suffix)[5..] == head + "-" + suffix;
    CutsPlausibly(head, suffix);
  }

  lemma CutsPlausibly(head: string, suffix: string)
    requires head != "" && Alnum(head[0]) && suffix != "" && Alnum(suffix[|suffix| - 1])
    ensures match Cut(head + "-" + suffix, '-')
            case None => false
            case Some((controller, requested)) => !Blank(controller) && !Blank(requested)
  {
    var a, b := CutsAtFirst(head, suffix);
    AlnumNotBlank(a, 0);
    AlnumNotBlank(b, |b| - 1);
  }

  lemma CutsAtFirst(head: string, suffix: string) returns (a: string, b: string)
    requires head != "" && head[0] != '-' && suffix != ""
    ensures Cut(head + "-" + suffix, '-') == Some((a, b))
    ensures a != "" && a[0] == head[0] && b != "" && b[|b| - 1] == suffix[|suffix| - 1]
  {
    CutPieces(head, '-');
    if Cut(head, '-').None? {
      a, b := head, suffix;
    } else {
      a, b := Cut(head, '-').value.0, Cut(head, '-').value.1 + "-" + suffix;
      Reassociate(a, Cut(head, '-').value.1, suffix);
    }
    CutJoined(a, b, '-');
  }

  lemma Reassociate(a: string, b: string, c: string)
    ensures a + "-" + b + "-" + c == a + "-" + (b + "-" + c)
  {
  }

  lemma AlnumNotBlank(s: string, k: nat)
    requires k < |s| && Alnum(s[k])
    ensures !Blank(s)
  {
    NotBlank(s, k);
  }

  /** How two raw names come to share an App name. */
  predicate Collide(digest: string -> string, rawA: string, rawB: string) {
    var (longA, longB) := (|rawA| > APP_NAME_MAX, |rawB| > APP_NAME_MAX);
    || rawA == rawB
    || (longA && longB && AppPrefix(rawA) == AppPrefix(rawB) && digest(rawA) == digest(rawB))
    || (!longA && longB && rawA == AppPrefix(rawB) + "-" + digest(rawB))
    || (longA && !longB && rawB == AppPrefix(rawA) + "-" + digest(rawA))
  }

  lemma CutCollides(digest: Digest, rawA: string, rawB: string)
    ensures var nameA := if |rawA| <= APP_NAME_MAX then rawA else AppPrefix(rawA) + "-" + digest(rawA);
            var nameB := if |rawB| <= APP_NAME_MAX then rawB else AppPrefix(rawB) + "-" + digest(rawB);
            nameA == nameB <==> Collide(digest, rawA, rawB)
  {
    if |rawA| > APP_NAME_MAX && |rawB| > APP_NAME_MAX {
      SuffixSplits(AppPrefix(rawA) + "-", digest(rawA), AppPrefix(rawB) + "-", digest(rawB));
      assert (AppPrefix(rawA) + "-")[..|AppPrefix(rawA)|] == AppPrefix(rawA);
      assert (AppPrefix(rawB) + "-")[..|AppPrefix(rawB)|] == AppPrefix(rawB);
    }
    hide AppPrefix;
  }

  /** Under any two controllers two runners share an App name exactly when the controllers, cut to twelve characters,
      and the sanitised runner names spell the same text, when both are cut to the same prefix and digest, or when one
      spells out the other's prefix and digest. */
  lemma AppNameCollisionsAcross(casing: Casing, digest: Digest, ca: string, a: string, cb: string, b: string)
    requires Nameable(casing, ca) && Nameable(casing, a) && Nameable(casing, cb) && Nameable(casing, b)
    ensures AppName(casing, digest, ca, a) == AppName(casing, digest, cb, b)
       <==> Collide(digest, RawAppName(casing, ca, a), RawAppName(casing, cb, b))
    ensures RawAppName(casing, ca, a) == RawAppName(casing, cb, b)
       <==> AppController(casing, ca) + "-" + Sanitized(casing, a, '-')
            == AppController(casing, cb) + "-" + Sanitized(casing, b, '-')
  {
    CutCollides(digest, RawAppName(casing, ca, a), RawAppName(casing, cb, b));
    RawAppNameRest(casing, ca, a);
    RawAppNameRest(casing, cb, b);
    hide Collide;
    hide AppPrefix;
    hide RawAppName;
    hide AppController;
    hide Nameable;
    SamePrefix("garm-", AppController(casing, ca) + "-" + Sanitized(casing, a, '-'),
               AppController(casing, cb) + "-" + Sanitized(casing, b, '-'));
  }

  lemma RawAppNameRest(casing: Casing, controller: string, requested: string)
    requires Nameable(casing, controller) && Nameable(casing, requested)
    ensures RawAppName(casing, controller, requested)
         == "garm-" + (AppController(casing, controller) + "-" + Sanitized(casing, requested, '-'))
  {
    RawAppNameShape(casing, controller, requested);
    hide RawAppName;
    hide AppController;
    var (c, r) := (AppController(casing, controller), Sanitized(casing, requested, '-'));
    assert "garm-" + c + "-" + r == "garm-" + (c + "-" + r);
  }

  lemma SamePrefix(prefix: string, x: string, y: string)
    ensures prefix + x == prefix + y <==> x == y
  {
    assert (prefix + x)[|prefix|..] == x && (prefix + y)[|prefix|..] == y;
  }

  /** Under one controller two runners share an App name exactly when their sanitised names agree, when
      both are cut to the same prefix and digest, or when one spells out the other's prefix and digest. */
  lemma AppNameCollisionsExactly(casing: Casing, digest: Digest, controller: string, a: string, b: string)
    requires Nameable(casing, controller) && Nameable(casing, a) && Nameable(casing, b)
    ensures var (rawA, rawB) := (RawAppName(casing, controller, a), RawAppName(casing, controller, b));
            var (longA, longB) := (|rawA| > APP_NAME_MAX, |rawB| > APP_NAME_MAX);
            AppName(casing, digest, controller, a) == AppName(casing, digest, controller, b)
            <==>
            || Sanitized(casing, a, '-') == Sanitized(casing, b, '-')
            || (longA && longB && AppPrefix(rawA) == AppPrefix(rawB) && digest(rawA) == digest(rawB))
            || (!longA && longB && rawA == AppPrefix(rawB) + "-" + digest(rawB))
            || (longA && !longB && rawB == AppPrefix(rawA) + "-" + digest(rawA))
  {
    AppNameCollisionsAcross(casing, digest, controller, a, controller, b);
    SamePrefix(AppController(casing, controller) + "-", Sanitized(casing, a, '-'), Sanitized(casing, b, '-'));
    hide AppPrefix;
    hide AppName;
    hide RawAppName;
  }

  lemma SuffixSplits(p: string, s: string, q: string, t: string)
    requires |s| == |t|
    ensures p + s == q + t <==> p == q && s == t
  {
    if p + s == q + t {
      assert (p + s)[|p|..] == s && (q + t)[|q|..] == t;
      assert (p + s)[..|p|] == p && (q + t)[..|q|] == q;
    }
  }

  // ----- the container and VM backends -----

  function RawName(casing: CaseMaps, controller: string, requested: string, sep: char): string {
    Sanitized(casing, controller, sep) + [sep] + Sanitized(casing, requested, sep)
  }

  function NamePrefix(raw: string, sep: char): string {
    var prefix := Trim("garm" + [sep] + raw, Only(sep));
    if |prefix| > 48 then Trim(prefix[..48], Only(sep)) else prefix
  }

  /** `ownedName` of the container backend (separator `-`) and of the VM backend (separator `_`). */
  function DigestedName(casing: CaseMaps, digest: string -> string, controller: string, requested: string, sep: char): string {
    var raw := RawName(casing, controller, requested, sep);
    NamePrefix(raw, sep) + [sep] + digest(raw)
  }

  /** Container and VM names keep to letters, digits and the separator, at most 57 of them, for every input. */
  lemma DigestedNameAdmissible(casing: Casing, digest: Digest, controller: string, requested: string, sep: char)
    requires Separator(sep)
    ensures var name := DigestedName(casing, digest, controller, requested, sep);
            && 13 <= |name| <= 57 && "garm" <= name
            && forall x | x in name :: Alnum(x) || x == sep
  {
    SanitizedIsNormalForm(casing, controller, sep);
    SanitizedIsNormalForm(casing, requested, sep);
    var raw := RawName(casing, controller, requested, sep);
    assert forall x | x in raw :: Alnum(x) || x == sep;
    NamePrefixAdmissible(raw, sep);
    WithDigest(NamePrefix(raw, sep), digest(raw), sep);
  }

  lemma WithDigest(prefix: string, suffix: string, sep: char)
    requires Hex8(suffix) && |prefix| >= 4 && "garm" <= prefix
    requires forall x | x in prefix :: Alnum(x) || x == sep
    ensures "garm" <= prefix + [sep] + suffix
    ensures forall x | x in prefix + [sep] + suffix :: Alnum(x) || x == sep
  {
    assert (prefix + [sep] + suffix)[..4] == prefix[..4];
  }

  lemma NamePrefixAdmissible(raw: string, sep: char)
    requires Separator(sep) && forall x | x in raw :: Alnum(x) || x == sep
    ensures var prefix := NamePrefix(raw, sep);
            && 4 <= |prefix| <= 48 && "garm" <= prefix
            && forall x | x in prefix :: Alnum(x) || x == sep
  {
    var s := "garm" + [sep] + raw;
    assert s[3] == 'm' && s[0] == 'g';
    PrefixTrims(s, sep);
    var prefix := Trim(s, Only(sep));
    assert forall x | x in s :: Alnum(x) || x == sep;
    TrimEnds(s, Only(sep));
    if |prefix| > 48 {
      PrefixTrims(prefix[..48], sep);
      TrimEnds(prefix[..48], Only(sep));
      assert forall x | x in prefix[..48] :: x in prefix;
    }
  }

  lemma PrefixTrims(s: string, sep: char)
    requires Separator(sep) && |s| > 4 && "garm" <= s
    ensures Trim(s, Only(sep)) <= s && |Trim(s, Only(sep))| >= 4 && "garm" <= Trim(s, Only(sep))
  {
    assert s[0] == "garm"[0] && s[3] == "garm"[3];
    assert TrimLeft(s, Only(sep)) == s;
    TrimRightStops(s, Only(sep));
    TrimRightKeeps(s, Only(sep), 3);
  }

  /** Two requests share a container or VM name only when the digests of their raw names agree. */
  lemma DigestedNameCollisions(casing: Casing, digest: Digest, ca: string, a: string, cb: string, b: string, sep: char)
    ensures var (rawA, rawB) := (RawName(casing, ca, a, sep), RawName(casing, cb, b, sep));
            DigestedName(casing, digest, ca, a, sep) == DigestedName(casing, digest, cb, b, sep)
            <==> NamePrefix(rawA, sep) == NamePrefix(rawB, sep) && digest(rawA) == digest(rawB)
  {
    var (rawA, rawB) := (RawName(casing, ca, a, sep), RawName(casing, cb, b, sep));
    SuffixSplits(NamePrefix(rawA, sep) + [sep], digest(rawA), NamePrefix(rawB, sep) + [sep], digest(rawB));
    SuffixSplits(NamePrefix(rawA, sep), [sep], NamePrefix(rawB, sep), [sep]);
  }
}

/** Carrying a shell program through Compose, which interpolates dollars before the container starts. */
module ComposeText {
  import opened Text

  type Variables = map<string, string>

  predicate NameStart(c: char) {
    'a' <= c <= 'z' || 'A' <= c <= 'Z' || c == '_'
  }

  predicate NamePart(c: char) {
    NameStart(c) || '0' <= c <= '9'
  }

  function NameLength(s: string): (n: nat)
    ensures n <= |s|
  {
    if s != "" && NamePart(s[0]) then 1 + NameLength(s[1..]) else 0
  }

  /** The value of the inside of `${...}`: a name, optionally followed by one of the substitution operators. */
  function Substitute(inner: string, env: Variables): Option<string> {
    var n := NameLength(inner);
    var (name, operator) := (inner[..n], inner[n..]);
    if n == 0 || !NameStart(inner[0]) then None
    else
      var present := name in env;
      var filled := present && env[name] != "";
      if operator == "" then Some(if present then env[name] else "")
      else if ":-" <= operator then Some(if filled then env[name] else operator[2..])
      else if "-" <= operator then Some(if present then env[name] else operator[1..])
      else if ":?" <= operator then if filled then Some(env[name]) else None
      else if "?" <= operator then if present then Some(env[name]) else None
      else if ":+" <= operator then Some(if filled then operator[2..] else "")
      else if "+" <= operator then Some(if present then operator[1..] else "")
      else None
  }

  function Prepend(head: string, tail: Option<string>): Option<string> {
    match tail
    case None => None
    case Some(t) => Some(head + t)
  }

  /** Compose interpolation of one scalar (chapter "Interpolation" of the Compose Specification); None is a
      rejected file. */
  function Interpolate(s: string, env: Variables): Option<string>
    decreases |s|
  {
    if s == "" then Some("")
    else if s[0] != '$' then Prepend([s[0]], Interpolate(s[1..], env))
    else if |s| > 1 && s[1] == '$' then Prepend("$", Interpolate(s[2..], env))
    else if |s| > 1 && s[1] == '{' then
      CutPieces(s[2..], '}');
      match Cut(s[2..], '}')
      case None => None
      case Some((inner, rest)) =>
        match Substitute(inner, env)
        case None => None
        case Some(value) => Prepend(value, Interpolate(rest, env))
    else
      var n := NameLength(s[1..]);
      if n == 0 || !NameStart(s[1]) then None
      else
        var name := s[1..1 + n];
        Prepend(if name in env then env[name] else "", Interpolate(s[1 + n..], env))
  }

  /** `containerBootstrapCommand`, for any program text. */
  function ComposeSafe(program: string): string {
    ReplaceAll(program, "$", "$$")
  }

  lemma ComposeSafeStep(s: string)
    requires s != ""
    ensures ComposeSafe(s) == (if s[0] == '$' then "$$" else [s[0]]) + ComposeSafe(s[1..])
  {
    assert s[..1] == "$" <==> s[0] == '$';
  }

  /** Whatever the variables hold, interpolation hands the shell exactly the program that was escaped. */
  lemma {:induction false} InterpolationRestoresProgram(s: string, env: Variables)
    ensures Interpolate(ComposeSafe(s), env) == Some(s)
  {
    if s != "" {
      ComposeSafeStep(s);
      InterpolationRestoresProgram(s[1..], env);
      var t := ComposeSafe(s);
      assert [s[0]] + s[1..] == s;
      if s[0] == '$' {
        assert t[2..] == ComposeSafe(s[1..]);
      } else {
        assert t[1..] == ComposeSafe(s[1..]);
      }
    }
  }

  /** Halving the doubled dollars from the left is the inverse of escaping. */
  lemma {:induction false} UnescapeRestoresProgram(s: string)
    ensures ReplaceAll(ComposeSafe(s), "$$", "$") == s
  {
    if s != "" {
      ComposeSafeStep(s);
      UnescapeRestoresProgram(s[1..]);
      var t := ComposeSafe(s);
      assert [s[0]] + s[1..] == s;
      if s[0] == '$' {
        assert t[..2] == "$$" && t[2..] == ComposeSafe(s[1..]);
      } else {
        assert t[1..] == ComposeSafe(s[1..]);
        if |t| >= 2 { assert t[..2][0] == s[0]; }
      }
    }
  }

  /** Unescaped text survives with no variables set exactly when it holds no dollar. */
  lemma {:induction false} EscapingNeededExactly(s: string)
    ensures Interpolate(s, map[]) == Some(s) <==> '$' !in s
  {
    Shrinks(s);
  }

  lemma {:induction false} Shrinks(s: string)
    ensures var r := Interpolate(s, map[]);
            if '$' in s then r == None || |r.value| < |s| else r == Some(s)
    decreases |s|
  {
    if s != "" {
      if s[0] != '$' {
        Shrinks(s[1..]);
        assert [s[0]] + s[1..] == s;
        assert '$' in s <==> '$' in s[1..];
      } else if |s| > 1 && s[1] == '$' {
        Shrinks(s[2..]);
      } else if |s| > 1 && s[1] == '{' {
        CutPieces(s[2..], '}');
        if Cut(s[2..], '}').Some? {
          Shrinks(Cut(s[2..], '}').value.1);
        }
      } else {
        Shrinks(s[1 + NameLength(s[1..])..]);
      }
    }
  }
}

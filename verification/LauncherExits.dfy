/** With which code the launcher gives up, and on which line. */
module LauncherExits {
  import opened Text
  import opened Names
  import opened Provider
  import opened CloudInit

  /** The setting a line's key names, by its spelling. */
  function KeyNames(key: string): Option<Setting> {
    if key == "GARM_CALLBACK_URL" then Some(CallbackURL)
    else if key == "GARM_METADATA_URL" then Some(MetadataURL)
    else if key == "GARM_INSTANCE_TOKEN" then Some(InstanceToken)
    else if key == "GARM_RUNNER_DOWNLOAD_URL" then Some(DownloadURL)
    else if key == "GARM_RUNNER_FILENAME" then Some(Filename)
    else if key == "GARM_RUNNER_SHA256" then Some(SHA256)
    else None
  }

  lemma SettingIsKey(key: string)
    ensures SettingNamed(key) == KeyNames(key)
  {
  }

  /** The line gives a setting a real value. */
  predicate Sets(line: string, s: Setting) {
    match Cut(line, '=')
    case None => false
    case Some((key, value)) => KeyNames(key) == Some(s) && value != ""
  }

  predicate SetBefore(lines: seq<string>, i: nat, s: Setting)
    requires i <= |lines|
  {
    exists k | 0 <= k < i :: Sets(lines[k], s)
  }

  /** What is wrong with line `i`: no equals sign, an unknown key, or a setting that already has a value. */
  function Offence(lines: seq<string>, i: nat): Option<nat>
    requires i < |lines|
  {
    match Cut(lines[i], '=')
    case None => Some(41)
    case Some((key, _)) =>
      match KeyNames(key)
      case None => Some(43)
      case Some(s) => if SetBefore(lines, i, s) then Some(42) else None
  }

  /** A variable has a value once a line has set it, as long as no line before was out of order. */
  ghost predicate Tracks(lines: seq<string>, i: nat, vars: map<Setting, string>)
    requires i <= |lines|
  {
    forall s :: Var(vars, s) != "" <==> SetBefore(lines, i, s)
  }

  lemma LineOffends(lines: seq<string>, i: nat, vars: map<Setting, string>)
    requires i < |lines| && Tracks(lines, i, vars)
    ensures match ParseLine(lines[i], vars)
            case Bad(code) => Offence(lines, i) == Some(code)
            case Good(next) => Offence(lines, i) == None && Tracks(lines, i + 1, next)
  {
    hide SettingNamed;
    hide KeyNames;
    hide Cut;
    match Cut(lines[i], '=')
    case None =>
    case Some((key, value)) =>
      SettingIsKey(key);
      assert Tracks(lines, i, vars);
      if ParseLine(lines[i], vars).Good? { LineTracks(lines, i, vars); }
      hide Tracks;
      hide SetBefore;
  }

  lemma LineTracks(lines: seq<string>, i: nat, vars: map<Setting, string>)
    requires i < |lines| && Tracks(lines, i, vars) && ParseLine(lines[i], vars).Good?
    ensures Tracks(lines, i + 1, ParseLine(lines[i], vars).vars)
  {
    var next := ParseLine(lines[i], vars).vars;
    SettingIsKey(Cut(lines[i], '=').value.0);
    hide SettingNamed;
    hide KeyNames;
    hide Cut;
    hide SetBefore;
    forall s ensures Var(next, s) != "" <==> SetBefore(lines, i + 1, s) {
      OneMoreSet(lines, i, s);
      assert Var(vars, s) != "" <==> SetBefore(lines, i, s);
    }
  }

  lemma OneMoreSet(lines: seq<string>, i: nat, s: Setting)
    requires i < |lines|
    ensures SetBefore(lines, i + 1, s) <==> SetBefore(lines, i, s) || Sets(lines[i], s)
  {
    hide Sets;
  }

  ghost predicate FirstOffence(lines: seq<string>, from: nat, i: nat, code: nat)
    requires from <= i < |lines|
  {
    Offence(lines, i) == Some(code) && forall k | from <= k < i :: Offence(lines, k) == None
  }

  /** Of the lines from `from` on, the first one out of order is so in the way of `code`. */
  ghost predicate OffendsWith(lines: seq<string>, from: nat, code: nat) {
    exists k | from <= k < |lines| :: FirstOffence(lines, from, k, code)
  }

  lemma FirstIsNow(lines: seq<string>, i: nat, code: nat)
    requires i < |lines| && Offence(lines, i) == Some(code)
    ensures OffendsWith(lines, i, code)
  {
    hide Offence;
    assert FirstOffence(lines, i, i, code);
  }

  lemma FirstIsLater(lines: seq<string>, i: nat, next: nat, code: nat)
    requires i < |lines| && next == i + 1 && Offence(lines, i) == None
    requires OffendsWith(lines, next, code)
    ensures OffendsWith(lines, i, code)
  {
    hide Offence;
    var k :| next <= k < |lines| && FirstOffence(lines, next, k, code);
    assert FirstOffence(lines, i, k, code);
  }

  lemma {:induction false} ParseOffends(lines: seq<string>, i: nat, vars: map<Setting, string>)
    requires i <= |lines| && Tracks(lines, i, vars)
    ensures match ParseLines(lines[i..], vars)
            case Bad(code) => OffendsWith(lines, i, code)
            case Good(_) => forall k | i <= k < |lines| :: Offence(lines, k) == None
    decreases |lines| - i
  {
    hide Offence;
    hide Tracks;
    hide OffendsWith;
    hide ParseLine;
    if i < |lines| {
      assert lines[i..][0] == lines[i] && lines[i..][1..] == lines[i + 1..];
      LineOffends(lines, i, vars);
      var parsed := ParseLine(lines[i], vars);
      if parsed.Bad? {
        FirstIsNow(lines, i, parsed.code);
      } else {
        ParseOffends(lines, i + 1, parsed.vars);
        var rest := ParseLines(lines[i + 1..], parsed.vars);
        if rest.Bad? { FirstIsLater(lines, i, i + 1, rest.code); }
      }
    }
  }

  lemma OneFirst(lines: seq<string>, c: nat, d: nat)
    requires OffendsWith(lines, 0, c) && OffendsWith(lines, 0, d)
    ensures c == d
  {
    hide Offence;
    var i :| 0 <= i < |lines| && FirstOffence(lines, 0, i, c);
    var j :| 0 <= j < |lines| && FirstOffence(lines, 0, j, d);
    assert i == j;
  }

  lemma NoneOffends(lines: seq<string>, code: nat)
    requires forall k | 0 <= k < |lines| :: Offence(lines, k) == None
    ensures !OffendsWith(lines, 0, code)
  {
    hide Offence;
  }

  /** The launcher exits with 40 without a bootstrap file, with 44 on an unsafe marker, and otherwise exactly on the first
      line that is out of order: with 41 for a missing equals sign, 43 for an unknown key and 42 for a second value. The
      bootstrap file is still there then, and the marker was not shown. */
  lemma ExitsAtFirstOffence(env: Option<string>, marker: string, code: nat)
    ensures Launched(env, marker).ending == Exits(code) ==> Launched(env, marker).env == env && Launched(env, marker).console == []
    ensures Launched(env, marker).ending == Exits(code) <==>
              match env
              case None => code == 40
              case Some(text) =>
                if !MarkerSafe(marker) then code == 44
                else OffendsWith(ShellLines(text), 0, code)
  {
    if env.Some? && MarkerSafe(marker) {
      var lines := ShellLines(env.value);
      hide ShellLines;
      assert lines[0..] == lines;
      assert Tracks(lines, 0, map[]);
      ParseOffends(lines, 0, map[]);
      hide Tracks;
      hide MarkerSafe;
      hide ParseLines;
      hide Offence;
      if ParseLines(lines, map[]).Good? { NoneOffends(lines, code); }
      hide OffendsWith;
      forall c: nat, d: nat | OffendsWith(lines, 0, c) && OffendsWith(lines, 0, d) ensures c == d {
        OneFirst(lines, c, d);
      }
    }
  }
}

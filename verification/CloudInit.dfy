/** The NoCloud seed a VM boots from, the reading of its user data, and the launcher that parses the bootstrap file. */
module CloudInit {
  import opened Text
  import opened Names
  import opened Provider
  import opened LiteralBlock

  datatype SeedSpec = SeedSpec(metaData: string, userData: string, marker: string)

  datatype FileEntry = FileEntry(path: string, permissions: string, owner: string, content: string)

  // ----- printing -----

  const PATH_LABEL := "  - path: "
  const PERMISSIONS_LABEL := "    permissions: '"
  const OWNER_LABEL := "    owner: "
  const CONTENT_LABEL := "    content: |"
  const LIBEXEC := "/usr/local/libexec"
  const RUNNER_PATH := LIBEXEC + "/garm-runner-bootstrap"
  const LAUNCHER_PATH := LIBEXEC + "/garm-bootstrap"
  const ENV_PATH := "/run/garm/bootstrap.env"
  const EXECUTABLE := "0755"
  const PRIVATE := "0600"
  const ROOT := "root:root"
  const MARKER_PREFIX := "GARM_VM_BOOTSTRAP_CONSUMED_V1:"
  const HEADER := [
    "#cloud-config", "users:", "  - default", "  - name: garm-runner", "    system: true", "    no_create_home: false",
    "    homedir: /home/garm-runner", "    shell: /usr/sbin/nologin", "write_files:"]

  function EntryHead(e: FileEntry): seq<string> {
    [PATH_LABEL + e.path, PERMISSIONS_LABEL + e.permissions + "'", OWNER_LABEL + e.owner, CONTENT_LABEL]
  }

  /** What `appendCloudConfigFile` adds. */
  function EntryText(e: FileEntry): string {
    Unlines(EntryHead(e)) + BlockText(e.content)
  }

  /** The settings the launcher hands to the runner program. */
  datatype Setting = CallbackURL | MetadataURL | InstanceToken | DownloadURL | Filename | SHA256

  const SETTINGS := [CallbackURL, MetadataURL, InstanceToken, DownloadURL, Filename, SHA256]

  function Label(s: Setting): string {
    match s
    case CallbackURL => "GARM_CALLBACK_URL" case MetadataURL => "GARM_METADATA_URL"
    case InstanceToken => "GARM_INSTANCE_TOKEN" case DownloadURL => "GARM_RUNNER_DOWNLOAD_URL"
    case Filename => "GARM_RUNNER_FILENAME" case SHA256 => "GARM_RUNNER_SHA256"
  }

  function ValueOf(tool: Tool, b: Bootstrap, s: Setting): string {
    match s
    case CallbackURL => b.callbackURL case MetadataURL => b.metadataURL case InstanceToken => b.token
    case DownloadURL => tool.url case Filename => tool.filename case SHA256 => tool.sha256
  }

  function EnvLine(tool: Tool, b: Bootstrap, s: Setting): string {
    Label(s) + "=" + ValueOf(tool, b, s)
  }

  function EnvLinesOf(tool: Tool, b: Bootstrap, settings: seq<Setting>): seq<string> {
    if settings == [] then [] else [EnvLine(tool, b, settings[0])] + EnvLinesOf(tool, b, settings[1..])
  }

  function EnvLines(tool: Tool, b: Bootstrap): seq<string> {
    EnvLinesOf(tool, b, SETTINGS)
  }

  /** The texts of the two programs a seed carries; their content is not modelled. */
  datatype Programs = Programs(runner: string, launcher: string)

  function Entries(programs: Programs, tool: Tool, b: Bootstrap): seq<FileEntry> {
    [FileEntry(RUNNER_PATH, EXECUTABLE, ROOT, programs.runner),
     FileEntry(LAUNCHER_PATH, EXECUTABLE, ROOT, programs.launcher),
     FileEntry(ENV_PATH, PRIVATE, ROOT, Unlines(EnvLines(tool, b)))]
  }

  function EntriesText(entries: seq<FileEntry>): string {
    if entries == [] then "" else EntryText(entries[0]) + EntriesText(entries[1..])
  }

  function RunLine(marker: string): string {
    "  - [\"" + LAUNCHER_PATH + "\", \"" + ENV_PATH + "\", \"" + marker + "\"]"
  }

  function Footer(marker: string): seq<string> {
    ["runcmd:", RunLine(marker)]
  }

  /** `seedFor` */
  function SeedFor(programs: Programs, tool: Tool, b: Bootstrap, hostname: string): SeedSpec {
    var marker := MARKER_PREFIX + hostname;
    SeedSpec(
      Unlines(["instance-id: " + hostname, "local-hostname: " + hostname]),
      Unlines(HEADER) + EntriesText(Entries(programs, tool, b)) + Unlines(Footer(marker)),
      marker)
  }

  class Builder {
    var text: string

    constructor ()
      ensures text == ""
    {
      text := "";
    }

    method WriteString(s: string)
      modifies this
      ensures text == old(text) + s
    {
      text := text + s;
    }

    method WriteLine(line: string)
      modifies this
      ensures text == old(text) + Unlines([line])
    {
      text := text + line + "\n";
      assert Unlines([line]) == line + "\n" + "";
    }
  }

  method AppendCloudConfigFile(out: Builder, e: FileEntry)
    modifies out
    ensures out.text == old(out.text) + EntryText(e)
  {
    hide ReplaceAll;
    hide PREFIX;
    var before := out.text;
    var head := EntryHead(e);
    out.WriteLine(PATH_LABEL + e.path);
    out.WriteLine(PERMISSIONS_LABEL + e.permissions + "'");
    out.WriteLine(OWNER_LABEL + e.owner);
    out.WriteLine(CONTENT_LABEL);
    FourLines(before, head[0], head[1], head[2], head[3]);
    hide EntryHead;
    hide Unlines;
    var trimmed := TrimNewline(e.content);
    if trimmed != "" {
      out.WriteString(PREFIX);
      out.WriteString(ReplaceAll(trimmed, "\n", "\n" + PREFIX));
      out.WriteString("\n");
    }
  }

  lemma FourLines(before: string, a: string, b: string, c: string, d: string)
    ensures before + Unlines([a]) + Unlines([b]) + Unlines([c]) + Unlines([d]) == before + Unlines([a, b, c, d])
  {
    UnlinesAppend([a], [b, c, d]);
    UnlinesAppend([b], [c, d]);
    UnlinesAppend([c], [d]);
    hide Unlines;
    assert [a] + [b, c, d] == [a, b, c, d] && [b] + [c, d] == [b, c, d] && [c] + [d] == [c, d];
  }

  method BuildUserData(programs: Programs, tool: Tool, b: Bootstrap, marker: string) returns (out: Builder)
    ensures fresh(out)
    ensures out.text == Unlines(HEADER) + EntriesText(Entries(programs, tool, b)) + Unlines(Footer(marker))
  {
    hide HEADER;
    hide EntriesText;
    hide Entries;
    hide Footer;
    out := new Builder();
    WriteLines(out, HEADER);
    AppendEntries(out, Entries(programs, tool, b));
    WriteLines(out, Footer(marker));
  }

  method AppendEntries(out: Builder, entries: seq<FileEntry>)
    modifies out
    ensures out.text == old(out.text) + EntriesText(entries)
  {
    hide EntryText;
    for i := 0 to |entries|
      invariant out.text + EntriesText(entries[i..]) == old(out.text) + EntriesText(entries)
    {
      AppendCloudConfigFile(out, entries[i]);
      assert entries[i..][1..] == entries[i + 1..];
    }
  }

  method WriteLines(out: Builder, lines: seq<string>)
    modifies out
    ensures out.text == old(out.text) + Unlines(lines)
  {
    var i := 0;
    while i < |lines|
      invariant 0 <= i <= |lines|
      invariant out.text == old(out.text) + Unlines(lines[..i])
    {
      out.WriteLine(lines[i]);
      UnlinesAppend(lines[..i], [lines[i]]);
      assert lines[..i] + [lines[i]] == lines[..i + 1];
      i := i + 1;
    }
    assert lines[..i] == lines;
  }

  // ----- reading it back -----

  function EntryLines(e: FileEntry): seq<string> {
    EntryHead(e) + BlockOf(e.content)
  }

  function EntriesLines(entries: seq<FileEntry>): seq<string> {
    if entries == [] then [] else EntryLines(entries[0]) + EntriesLines(entries[1..])
  }

  function Without(tag: string, line: string): string {
    if tag <= line then line[|tag|..] else ""
  }

  function Unquoted(s: string): string {
    if s != "" && s[|s| - 1] == '\'' then s[..|s| - 1] else s
  }

  /** One entry of `write_files`: four lines of the shape above, then the literal block. */
  function ReadEntry(lines: seq<string>): Option<FileEntry> {
    if |lines| < 4 || !(PATH_LABEL <= lines[0]) || !(PERMISSIONS_LABEL <= lines[1]) || !(OWNER_LABEL <= lines[2])
       || lines[3] != CONTENT_LABEL
    then None
    else match ReadLiteral(lines[4..], PARENT)
      case None => None
      case Some(content) =>
        Some(FileEntry(Without(PATH_LABEL, lines[0]), Unquoted(Without(PERMISSIONS_LABEL, lines[1])),
                       Without(OWNER_LABEL, lines[2]), content))
  }

  function EntrySize(lines: seq<string>): (n: nat)
    requires |lines| >= 4
    ensures 4 <= n <= |lines|
  {
    4 + BlockSize(lines[4..], PARENT)
  }

  /** The entries at the head of `lines`, and the lines after the last of them. */
  function ReadEntries(lines: seq<string>): (seq<FileEntry>, seq<string>)
    decreases |lines|
  {
    match ReadEntry(lines)
    case None => ([], lines)
    case Some(e) =>
      var (more, rest) := ReadEntries(lines[EntrySize(lines)..]);
      ([e] + more, rest)
  }

  /** The files and the trailing lines of user data with the expected header. */
  function ReadUserData(text: string): Option<(seq<FileEntry>, seq<string>)> {
    var lines := Lines(text);
    if HEADER <= lines then Some(ReadEntries(lines[|HEADER|..])) else None
  }

  predicate PlainEntry(e: FileEntry) {
    OneLine(e.path) && OneLine(e.permissions) && OneLine(e.owner) && Blockable(e.content)
  }

  predicate PlainEntries(entries: seq<FileEntry>) {
    forall e | e in entries :: PlainEntry(e)
  }

  lemma Strips(tag: string, s: string)
    ensures tag <= tag + s && Without(tag, tag + s) == s
  {
  }

  lemma Unquotes(s: string)
    ensures Unquoted(s + "'") == s
  {
  }

  lemma HeadReads(e: FileEntry)
    ensures var head := EntryHead(e);
            && PATH_LABEL <= head[0] && PERMISSIONS_LABEL <= head[1] && OWNER_LABEL <= head[2]
            && head[3] == CONTENT_LABEL
            && Without(PATH_LABEL, head[0]) == e.path
            && Unquoted(Without(PERMISSIONS_LABEL, head[1])) == e.permissions
            && Without(OWNER_LABEL, head[2]) == e.owner
  {
    hide PATH_LABEL;
    hide PERMISSIONS_LABEL;
    hide OWNER_LABEL;
    hide CONTENT_LABEL;
    Strips(PATH_LABEL, e.path);
    Strips(PERMISSIONS_LABEL, e.permissions + "'");
    assert PERMISSIONS_LABEL + (e.permissions + "'") == PERMISSIONS_LABEL + e.permissions + "'";
    Unquotes(e.permissions);
    Strips(OWNER_LABEL, e.owner);
  }

  lemma EntryReads(e: FileEntry, rest: seq<string>)
    requires PlainEntry(e) && Stops(rest)
    ensures var lines := EntryLines(e) + rest;
            && ReadEntry(lines) == Some(e)
            && EntrySize(lines) == |EntryLines(e)|
            && lines[|EntryLines(e)|..] == rest
  {
    hide Blockable;
    hide BlockOf;
    hide ReadLiteral;
    hide BlockSize;
    hide Stops;
    HeadReads(e);
    hide Without;
    hide Unquoted;
    var lines := EntryLines(e) + rest;
    EntryTail(e, rest);
    BlockReads(e.content, rest);
    BlockEnds(e.content, rest);
    hide PATH_LABEL;
    hide PERMISSIONS_LABEL;
    hide OWNER_LABEL;
    hide CONTENT_LABEL;
  }

  lemma EntryTail(e: FileEntry, rest: seq<string>)
    ensures var lines := EntryLines(e) + rest;
            && (forall i | 0 <= i < 4 :: lines[i] == EntryHead(e)[i])
            && lines[4..] == BlockOf(e.content) + rest
            && lines[|EntryLines(e)|..] == rest
  {
    hide BlockOf;
    hide PATH_LABEL;
    hide PERMISSIONS_LABEL;
    hide OWNER_LABEL;
    hide CONTENT_LABEL;
  }

  /** An entry after a block ends it. */
  lemma EntryStops(e: FileEntry, rest: seq<string>)
    requires PlainEntry(e) && AllOneLine(rest)
    ensures Stops(EntryLines(e) + rest)
  {
    var head := EntryHead(e);
    BlockEnds(e.content, []);
    PathLineStops(e.path);
    HeadOneLine(e);
    assert (EntryLines(e) + rest)[0] == head[0];
    hide Blockable;
    hide BlockOf;
    hide PATH_LABEL;
    hide PERMISSIONS_LABEL;
    hide OWNER_LABEL;
    hide CONTENT_LABEL;
    hide Vacant;
    hide OneLine;
  }

  lemma PathLineStops(path: string)
    ensures !Vacant(PATH_LABEL + path) && Spaces(PATH_LABEL + path) == 2
  {
    var text := "- path: " + path;
    assert PATH_LABEL + path == " " + (" " + text);
    OneSpace(text);
    OneSpace(" " + text);
    assert text[0] == '-';
  }

  lemma HeadOneLine(e: FileEntry)
    requires PlainEntry(e)
    ensures AllOneLine(EntryHead(e))
  {
    hide Blockable;
    HeadLabels();
    hide PATH_LABEL;
    hide OWNER_LABEL;
    hide PERMISSIONS_LABEL;
    hide CONTENT_LABEL;
    JoinedLine(PATH_LABEL, e.path);
    JoinedLine(OWNER_LABEL, e.owner);
    JoinedLine(PERMISSIONS_LABEL, e.permissions);
    JoinedLine(PERMISSIONS_LABEL + e.permissions, "'");
    hide OneLine;
  }

  lemma HeadLabels()
    ensures OneLine(PATH_LABEL) && OneLine(OWNER_LABEL) && OneLine(PERMISSIONS_LABEL) && OneLine(CONTENT_LABEL)
    ensures OneLine("'")
  {
    assert OneLine(PATH_LABEL) && OneLine(OWNER_LABEL);
    assert OneLine(PERMISSIONS_LABEL) && OneLine(CONTENT_LABEL);
  }

  lemma {:induction false} EntriesRead(entries: seq<FileEntry>, rest: seq<string>)
    requires PlainEntries(entries) && Stops(rest) && ReadEntry(rest).None?
    ensures ReadEntries(EntriesLines(entries) + rest) == (entries, rest)
  {
    hide ReadEntry;
    hide EntryLines;
    hide EntrySize;
    hide Stops;
    hide PlainEntry;
    var lines := EntriesLines(entries) + rest;
    if entries == [] {
      assert lines == rest;
    } else {
      var tail := EntriesLines(entries[1..]) + rest;
      assert PlainEntry(entries[0]) && forall e | e in entries[1..] :: e in entries;
      assert lines == EntryLines(entries[0]) + tail;
      EntriesStop(entries[1..], rest);
      EntryReads(entries[0], tail);
      EntryAtLeastFour(lines);
      EntriesRead(entries[1..], rest);
      assert lines[EntrySize(lines)..] == tail;
      assert entries == [entries[0]] + entries[1..];
    }
  }

  lemma EntryAtLeastFour(lines: seq<string>)
    ensures ReadEntry(lines).Some? ==> |lines| >= 4
  {
    hide ReadLiteral;
  }

  lemma {:induction false} EntriesStop(entries: seq<FileEntry>, rest: seq<string>)
    requires PlainEntries(entries) && Stops(rest)
    ensures Stops(EntriesLines(entries) + rest)
  {
    hide EntryLines;
    hide PlainEntry;
    if entries == [] {
      assert EntriesLines(entries) + rest == rest;
    } else {
      var tail := EntriesLines(entries[1..]) + rest;
      assert PlainEntry(entries[0]) && forall e | e in entries[1..] :: e in entries;
      EntriesStop(entries[1..], rest);
      EntryStops(entries[0], tail);
      assert EntriesLines(entries) + rest == EntryLines(entries[0]) + tail;
    }
  }

  lemma EntryTextLines(e: FileEntry)
    requires PlainEntry(e)
    ensures EntryText(e) == Unlines(EntryLines(e))
  {
    hide EntryHead;
    UnlinesAppend(EntryHead(e), BlockOf(e.content));
    var t := TrimNewline(e.content);
    if t != "" { IndentedText(t); }
    hide Indented;
    hide Split;
    hide Blockable;
  }

  lemma {:induction false} EntriesTextLines(entries: seq<FileEntry>)
    requires PlainEntries(entries)
    ensures EntriesText(entries) == Unlines(EntriesLines(entries))
  {
    hide EntryText;
    hide EntryLines;
    hide PlainEntry;
    if entries != [] {
      assert PlainEntry(entries[0]) && forall e | e in entries[1..] :: e in entries;
      EntryTextLines(entries[0]);
      EntriesTextLines(entries[1..]);
      UnlinesAppend(EntryLines(entries[0]), EntriesLines(entries[1..]));
    }
  }

  /** User data made of plain entries reads back, file by file. */
  lemma UserDataReads(entries: seq<FileEntry>, footer: seq<string>)
    requires PlainEntries(entries) && Stops(footer) && ReadEntry(footer).None?
    ensures ReadUserData(Unlines(HEADER) + EntriesText(entries) + Unlines(footer)) == Some((entries, footer))
  {
    hide ReadEntries;
    hide ReadEntry;
    hide Lines;
    hide PlainEntry;
    hide HEADER;
    hide Stops;
    hide EntriesLines;
    hide EntriesText;
    hide Unlines;
    var body := EntriesLines(entries) + footer;
    EntriesRead(entries, footer);
    UserDataLines(entries, footer);
    assert (HEADER + body)[|HEADER|..] == body;
  }

  lemma UserDataLines(entries: seq<FileEntry>, footer: seq<string>)
    requires PlainEntries(entries) && Stops(footer)
    ensures Lines(Unlines(HEADER) + EntriesText(entries) + Unlines(footer)) == HEADER + (EntriesLines(entries) + footer)
  {
    HeaderOneLine();
    hide HEADER;
    hide Lines;
    hide Unlines;
    hide EntriesLines;
    hide EntriesText;
    hide PlainEntry;
    var body := EntriesLines(entries) + footer;
    EntriesTextLines(entries);
    EntriesStop(entries, footer);
    BothOneLine(HEADER, body);
    hide Stops;
    UnlinesAppend(EntriesLines(entries), footer);
    UnlinesAppend(HEADER, body);
    Associate(Unlines(HEADER), "", Unlines(EntriesLines(entries)), Unlines(footer));
    assert Unlines(HEADER) + "" == Unlines(HEADER);
    LinesOfUnlines(HEADER + body);
  }

  lemma BothOneLine(a: seq<string>, b: seq<string>)
    requires AllOneLine(a) && Stops(b)
    ensures AllOneLine(a + b)
  {
    hide OneLine;
  }

  lemma HeaderOneLine()
    ensures AllOneLine(HEADER)
  {
    TitlesOneLine();
    AccountOneLine();
    HomeOneLine();
    ShellOneLine();
    hide OneLine;
  }

  lemma TitlesOneLine()
    ensures OneLine("#cloud-config") && OneLine("users:") && OneLine("  - default") && OneLine("write_files:")
  {
  }

  lemma AccountOneLine()
    ensures OneLine("  - name: garm-runner") && OneLine("    system: true")
  {
  }

  lemma HomeOneLine()
    ensures OneLine("    no_create_home: false") && OneLine("    homedir: /home/garm-runner")
  {
    NoCreateHome();
    HomeDirectory();
    hide OneLine;
  }

  lemma NoCreateHome()
    ensures OneLine("    no_create_home: false")
  {
  }

  lemma HomeDirectory()
    ensures OneLine("    homedir: /home/garm-runner")
  {
  }

  lemma ShellOneLine()
    ensures OneLine("    shell: /usr/sbin/nologin")
  {
  }

  // ----- the launcher -----

  /** What a run of the launcher comes to: an exit of its own, a missing value, or the runner program started. */
  datatype Ending = Exits(code: nat) | Aborts | Starts(settings: map<Setting, string>)

  /** The bootstrap file, the console and the ending after a run. */
  datatype Boot = Boot(env: Option<string>, console: seq<string>, ending: Ending)

  const ALL_SETTINGS: set<Setting> := {CallbackURL, MetadataURL, InstanceToken, DownloadURL, Filename, SHA256}

  function SettingNamed(key: string): Option<Setting> {
    if key == Label(CallbackURL) then Some(CallbackURL)
    else if key == Label(MetadataURL) then Some(MetadataURL)
    else if key == Label(InstanceToken) then Some(InstanceToken)
    else if key == Label(DownloadURL) then Some(DownloadURL)
    else if key == Label(Filename) then Some(Filename)
    else if key == Label(SHA256) then Some(SHA256)
    else None
  }

  /** A shell variable of the launcher; all start out empty. */
  function Var(vars: map<Setting, string>, s: Setting): string {
    if s in vars then vars[s] else ""
  }

  datatype Parsed = Bad(code: nat) | Good(vars: map<Setting, string>)

  function ParseLine(line: string, vars: map<Setting, string>): Parsed {
    match Cut(line, '=')
    case None => Bad(41)
    case Some((key, value)) =>
      match SettingNamed(key)
      case None => Bad(43)
      case Some(s) => if Var(vars, s) != "" then Bad(42) else Good(vars[s := value])
  }

  function ParseLines(lines: seq<string>, vars: map<Setting, string>): Parsed {
    if lines == [] then Good(vars)
    else match ParseLine(lines[0], vars)
      case Bad(code) => Bad(code)
      case Good(next) => ParseLines(lines[1..], next)
  }

  /** The lines `read` hands out: line feeds end them, and a last line may lack one. */
  function ShellLines(text: string): seq<string> {
    var parts := Split(text, '\n');
    if parts[|parts| - 1] == "" then parts[..|parts| - 1] else parts
  }

  predicate MarkerChar(c: char) {
    'A' <= c <= 'Z' || 'a' <= c <= 'z' || '0' <= c <= '9' || c == '_' || c == ':'
  }

  predicate MarkerSafe(marker: string) {
    forall c | c in marker :: MarkerChar(c)
  }

  function Settled(vars: map<Setting, string>): map<Setting, string> {
    map s | s in ALL_SETTINGS :: Var(vars, s)
  }

  predicate Complete(vars: map<Setting, string>) {
    forall s | s in ALL_SETTINGS :: Var(vars, s) != ""
  }

  function Launched(env: Option<string>, marker: string): Boot {
    match env
    case None => Boot(env, [], Exits(40))
    case Some(text) =>
      if !MarkerSafe(marker) then Boot(env, [], Exits(44))
      else match ParseLines(ShellLines(text), map[])
        case Bad(code) => Boot(env, [], Exits(code))
        case Good(vars) => Boot(None, [marker], if Complete(vars) then Starts(Settled(vars)) else Aborts)
  }

  class Guest {
    var env: Option<string>
    var console: seq<string>

    constructor (env: Option<string>)
      ensures this.env == env && console == []
    {
      this.env, console := env, [];
    }

    method Launch(marker: string) returns (ending: Ending)
      modifies this
      ensures var boot := Launched(old(env), marker);
              env == boot.env && console == old(console) + boot.console && ending == boot.ending
    {
      hide ParseLine;
      hide ShellLines;
      if env.None? { return Exits(40); }
      if !MarkerSafe(marker) { return Exits(44); }
      hide MarkerSafe;
      var lines := ShellLines(env.value);
      var vars: map<Setting, string> := map[];
      var i := 0;
      assert lines[0..] == lines;
      while i < |lines|
        invariant 0 <= i <= |lines|
        invariant ParseLines(lines, map[]) == ParseLines(lines[i..], vars)
      {
        assert lines[i..][0] == lines[i] && lines[i..][1..] == lines[i + 1..];
        var parsed := ParseLine(lines[i], vars);
        if parsed.Bad? { return Exits(parsed.code); }
        vars := parsed.vars;
        i := i + 1;
      }
      env := None;
      console := console + [marker];
      ending := if Complete(vars) then Starts(Settled(vars)) else Aborts;
    }
  }

  /** The values the lines give a setting, in order. */
  function Values(lines: seq<string>, s: Setting): seq<string> {
    if lines == [] then []
    else match Cut(lines[0], '=')
      case Some((key, value)) => (if SettingNamed(key) == Some(s) then [value] else []) + Values(lines[1..], s)
      case None => Values(lines[1..], s)
  }

  predicate NamesASetting(line: string) {
    match Cut(line, '=') case None => false case Some((key, _)) => SettingNamed(key).Some?
  }

  /** All values of a variable but its last one are empty, counting the one it already has. */
  predicate OnceAtMost(first: string, values: seq<string>)
    decreases |values|
  {
    values == [] || (first == "" && OnceAtMost(values[0], values[1..]))
  }

  function Latest(first: string, values: seq<string>): string {
    if values == [] then first else values[|values| - 1]
  }

  /** Parsing goes through exactly when every line names a setting and none is given a value twice. */
  lemma {:induction false} ParsesExactly(lines: seq<string>, vars: map<Setting, string>)
    ensures ParseLines(lines, vars).Good? <==>
              (forall l | l in lines :: NamesASetting(l)) && forall s :: OnceAtMost(Var(vars, s), Values(lines, s))
    ensures ParseLines(lines, vars).Good? ==>
              forall s :: Var(ParseLines(lines, vars).vars, s) == Latest(Var(vars, s), Values(lines, s))
  {
    hide Cut;
    hide SettingNamed;
    if lines != [] {
      assert lines[0] in lines && forall l :: l in lines <==> l == lines[0] || l in lines[1..];
      match ParseLine(lines[0], vars)
      case Bad(_) => BadLine(lines, vars);
      case Good(next) =>
        ParsesExactly(lines[1..], next);
        GoodLine(lines, vars, next);
        hide OnceAtMost;
        hide Latest;
        hide Values;
    }
  }

  lemma BadLine(lines: seq<string>, vars: map<Setting, string>)
    requires lines != [] && ParseLine(lines[0], vars).Bad?
    ensures !NamesASetting(lines[0]) || exists s :: !OnceAtMost(Var(vars, s), Values(lines, s))
  {
    hide Cut;
    hide SettingNamed;
    if NamesASetting(lines[0]) {
      var s := SettingNamed(Cut(lines[0], '=').value.0).value;
      assert !OnceAtMost(Var(vars, s), Values(lines, s));
    }
  }

  lemma GoodLine(lines: seq<string>, vars: map<Setting, string>, next: map<Setting, string>)
    requires lines != [] && ParseLine(lines[0], vars) == Good(next)
    ensures NamesASetting(lines[0])
    ensures forall s :: OnceAtMost(Var(vars, s), Values(lines, s)) == OnceAtMost(Var(next, s), Values(lines[1..], s))
    ensures forall s :: Latest(Var(vars, s), Values(lines, s)) == Latest(Var(next, s), Values(lines[1..], s))
  {
    hide Cut;
    hide SettingNamed;
    forall s
      ensures OnceAtMost(Var(vars, s), Values(lines, s)) == OnceAtMost(Var(next, s), Values(lines[1..], s))
      ensures Latest(Var(vars, s), Values(lines, s)) == Latest(Var(next, s), Values(lines[1..], s))
    {
      GoodLineFor(lines, vars, next, s);
    }
    hide OnceAtMost;
    hide Latest;
    hide Values;
  }

  lemma GoodLineFor(lines: seq<string>, vars: map<Setting, string>, next: map<Setting, string>, s: Setting)
    requires lines != [] && ParseLine(lines[0], vars) == Good(next)
    ensures OnceAtMost(Var(vars, s), Values(lines, s)) == OnceAtMost(Var(next, s), Values(lines[1..], s))
    ensures Latest(Var(vars, s), Values(lines, s)) == Latest(Var(next, s), Values(lines[1..], s))
  {
    hide Cut;
    hide SettingNamed;
    var rest := Values(lines[1..], s);
    var value := Cut(lines[0], '=').value.1;
    assert ([value] + rest)[1..] == rest;
    assert [] + rest == rest;
  }

  /** A setting's values come to one real value: it is the last of them, and the others are empty. */
  predicate OneRealValue(values: seq<string>, value: string) {
    value != "" && values != [] && values[|values| - 1] == value && forall i | 0 <= i < |values| - 1 :: values[i] == ""
  }

  lemma {:induction false} OnceExactly(values: seq<string>, first: string)
    ensures OnceAtMost(first, values) <==>
              values == [] || (first == "" && forall i | 0 <= i < |values| - 1 :: values[i] == "")
  {
    if values != [] {
      OnceExactly(values[1..], values[0]);
      if |values| > 1 { assert values[1..] != []; }
      assert forall i | 0 <= i < |values| - 2 :: values[1..][i] == values[i + 1];
      if OnceAtMost(first, values) && |values| > 1 {
        forall i | 0 <= i < |values| - 1 ensures values[i] == "" {
          if i > 0 { assert values[1..][i - 1] == ""; }
        }
      }
    }
  }

  /** The launcher starts the runner with given settings exactly when the marker is safe, every line names a setting,
      and each setting has that one real value. */
  lemma LauncherStartsExactly(text: string, marker: string, settings: map<Setting, string>)
    requires settings.Keys == ALL_SETTINGS
    ensures Launched(Some(text), marker).ending == Starts(settings) <==>
              && MarkerSafe(marker) && (forall l | l in ShellLines(text) :: NamesASetting(l))
              && forall s | s in ALL_SETTINGS :: OneRealValue(Values(ShellLines(text), s), settings[s])
  {
    var lines := ShellLines(text);
    ParsesExactly(lines, map[]);
    hide ShellLines;
    hide ParseLines;
    hide OnceAtMost;
    hide Latest;
    hide Values;
    hide NamesASetting;
    hide OneRealValue;
    hide MarkerSafe;
    forall s
      ensures s in ALL_SETTINGS
      ensures OnceAtMost("", Values(lines, s)) && Latest("", Values(lines, s)) == settings[s] && settings[s] != ""
              <==> OneRealValue(Values(lines, s), settings[s])
    {
      EverySetting(s);
      RealValue(Values(lines, s), settings[s]);
    }
    hide ALL_SETTINGS;
    var parsed := ParseLines(lines, map[]);
    if parsed.Good? { SettlesExactly(parsed.vars, settings); }
    hide Settled;
    hide Complete;
    if !parsed.Good? { Unparsed(lines, settings); }
  }

  lemma Unparsed(lines: seq<string>, settings: map<Setting, string>)
    requires settings.Keys == ALL_SETTINGS && !ParseLines(lines, map[]).Good?
    ensures (forall l | l in lines :: NamesASetting(l)) ==>
              !forall s | s in ALL_SETTINGS :: OneRealValue(Values(lines, s), settings[s])
  {
    ParsesExactly(lines, map[]);
    hide ParseLines;
    hide OnceAtMost;
    hide Latest;
    hide Values;
    hide NamesASetting;
    hide OneRealValue;
    if forall l | l in lines :: NamesASetting(l) {
      var s :| !OnceAtMost(Var(map[], s), Values(lines, s));
      EverySetting(s);
      RealValue(Values(lines, s), settings[s]);
    }
  }

  lemma EverySetting(s: Setting)
    ensures s in ALL_SETTINGS
  {
  }

  lemma RealValue(values: seq<string>, value: string)
    ensures OneRealValue(values, value) <==> OnceAtMost("", values) && Latest("", values) == value && value != ""
  {
    OnceExactly(values, "");
    hide OnceAtMost;
  }

  lemma SettlesExactly(vars: map<Setting, string>, settings: map<Setting, string>)
    requires settings.Keys == ALL_SETTINGS
    ensures Complete(vars) && Settled(vars) == settings <==>
              forall s | s in ALL_SETTINGS :: Var(vars, s) == settings[s] && settings[s] != ""
  {
    hide Var;
  }

  // ----- from the request to the running program -----

  const FLAVOR := "truenas-vm-linux-general"

  /** `validateBootstrap` of the VM backend; the last check keeps line ends and NULs out of the bootstrap file. */
  predicate Accepts(b: Bootstrap) {
    CommonBootstrap(b, FLAVOR) && Unbroken(b.callbackURL) && Unbroken(b.metadataURL) && Unbroken(b.token)
  }

  predicate Unbroken(s: string) {
    Free(s, '\r') && Free(s, '\n') && Free(s, '\0')
  }

  predicate PlainTool(tool: Tool) {
    && OneLine(tool.url) && OneLine(tool.filename) && OneLine(tool.sha256)
    && tool.url != "" && tool.filename != "" && tool.sha256 != ""
  }

  lemma JoinedLine(a: string, b: string)
    requires OneLine(a) && OneLine(b)
    ensures OneLine(a + b)
  {
  }

  lemma FilenameLine()
    ensures OneLine(RUNNER_FILENAME) && RUNNER_FILENAME != ""
  {
    assert OneLine("actions-runner-linux-x64-") && OneLine(RUNNER_VERSION) && OneLine(".tar.gz");
    JoinedLine("actions-runner-linux-x64-", RUNNER_VERSION);
    JoinedLine("actions-runner-linux-x64-" + RUNNER_VERSION, ".tar.gz");
  }

  lemma URLLine()
    ensures OneLine(RUNNER_URL) && RUNNER_URL != ""
  {
    FilenameLine();
    hide RUNNER_FILENAME;
    var (a, b) := ("https://github.com/actions/", "runner/releases/download/v");
    assert OneLine(a) && OneLine(b) && OneLine(RUNNER_VERSION) && OneLine("/");
    JoinedLine(a, b);
    JoinedLine(a + b, RUNNER_VERSION);
    JoinedLine(a + b + RUNNER_VERSION, "/");
    JoinedLine(a + b + RUNNER_VERSION + "/", RUNNER_FILENAME);
  }

  lemma DigestLine()
    ensures OneLine(RUNNER_SHA256) && RUNNER_SHA256 != ""
  {
    DigestHalves();
    JoinedLine("70920811a4f8ad43" + "28818682bca5c646" + "9c1c942fab524488", "68071d0063816613");
  }

  lemma DigestHalves()
    ensures OneLine("70920811a4f8ad43" + "28818682bca5c646" + "9c1c942fab524488") && OneLine("68071d0063816613")
  {
    JoinedLine("70920811a4f8ad43", "28818682bca5c646");
    JoinedLine("70920811a4f8ad43" + "28818682bca5c646", "9c1c942fab524488");
  }

  /** The pinned tool is one the seed can carry. */
  lemma PinnedToolIsPlain()
    ensures PlainTool(RUNNER_TOOL)
  {
    FilenameLine();
    URLLine();
    DigestLine();
  }

  lemma LabelPlain(s: Setting)
    ensures Label(s) != "" && Label(s)[0] == 'G' && OneLine(Label(s)) && Free(Label(s), '=')
  {
    match s {
      case CallbackURL => CallbackURLPlain();
      case MetadataURL => MetadataURLPlain();
      case InstanceToken => InstanceTokenPlain();
      case DownloadURL => DownloadURLPlain();
      case Filename => FilenamePlain();
      case SHA256 => SHA256Plain();
    }
    hide Label;
  }

  predicate PlainLabel(l: string) {
    l != "" && l[0] == 'G' && OneLine(l) && Free(l, '=')
  }

  lemma CallbackURLPlain()
    ensures PlainLabel(Label(CallbackURL))
  {
  }

  lemma MetadataURLPlain()
    ensures PlainLabel(Label(MetadataURL))
  {
  }

  lemma InstanceTokenPlain()
    ensures PlainLabel(Label(InstanceToken))
  {
  }

  lemma DownloadURLPlain()
    ensures PlainLabel(Label(DownloadURL))
  {
  }

  lemma FilenamePlain()
    ensures PlainLabel(Label(Filename))
  {
  }

  lemma SHA256Plain()
    ensures PlainLabel(Label(SHA256))
  {
  }

  lemma LabelNames(s: Setting)
    ensures SettingNamed(Label(s)) == Some(s)
  {
    assert Label(CallbackURL)[5] != Label(MetadataURL)[5];
    assert |Label(CallbackURL)| == |Label(MetadataURL)| == 17;
    assert |Label(InstanceToken)| == 19 && |Label(DownloadURL)| == 24 && |Label(Filename)| == 20 && |Label(SHA256)| == 18;
    hide Label;
  }

  lemma ValuePlain(tool: Tool, b: Bootstrap, s: Setting)
    requires PlainTool(tool) && Accepts(b)
    ensures OneLine(ValueOf(tool, b, s)) && ValueOf(tool, b, s) != ""
  {
    hide FLAVOR;
    assert Blank("");
  }

  lemma EnvLinePlain(tool: Tool, b: Bootstrap, s: Setting)
    requires PlainTool(tool) && Accepts(b)
    ensures var line := EnvLine(tool, b, s);
            && OneLine(line) && line != "" && line[0] == 'G'
            && Cut(line, '=') == Some((Label(s), ValueOf(tool, b, s))) && NamesASetting(line)
  {
    LabelPlain(s);
    LabelNames(s);
    ValuePlain(tool, b, s);
    hide Label;
    hide ValueOf;
    hide Accepts;
    hide PlainTool;
    CutJoined(Label(s), ValueOf(tool, b, s), '=');
    assert Label(s) + ['='] + ValueOf(tool, b, s) == EnvLine(tool, b, s);
    hide Cut;
    hide SettingNamed;
  }

  lemma {:induction false} EnvLinesPlain(tool: Tool, b: Bootstrap, settings: seq<Setting>)
    requires PlainTool(tool) && Accepts(b)
    ensures var lines := EnvLinesOf(tool, b, settings);
            && |lines| == |settings| && AllOneLine(lines)
            && forall l | l in lines :: l != "" && l[0] == 'G' && NamesASetting(l)
  {
    hide EnvLine;
    hide NamesASetting;
    hide OneLine;
    hide Accepts;
    hide PlainTool;
    if settings != [] {
      EnvLinePlain(tool, b, settings[0]);
      EnvLinesPlain(tool, b, settings[1..]);
    }
  }

  /** Each setting has its value in exactly one line of the bootstrap file. */
  lemma {:induction false} EnvValues(tool: Tool, b: Bootstrap, settings: seq<Setting>, s: Setting)
    requires PlainTool(tool) && Accepts(b) && forall i, j | 0 <= i < j < |settings| :: settings[i] != settings[j]
    ensures Values(EnvLinesOf(tool, b, settings), s) == if s in settings then [ValueOf(tool, b, s)] else []
  {
    hide EnvLine;
    hide ValueOf;
    hide Label;
    hide SettingNamed;
    hide Cut;
    hide Accepts;
    hide PlainTool;
    hide NamesASetting;
    hide OneLine;
    if settings != [] {
      var (t, rest) := (settings[0], settings[1..]);
      EnvLinePlain(tool, b, t);
      LabelNames(t);
      EnvValues(tool, b, rest, s);
      assert forall u :: u in settings <==> u == t || u in rest;
      assert t !in rest;
      assert EnvLinesOf(tool, b, settings)[1..] == EnvLinesOf(tool, b, rest);
    }
  }

  lemma ShellLinesOfUnlines(lines: seq<string>)
    requires AllOneLine(lines)
    ensures ShellLines(Unlines(lines)) == lines
  {
    assert forall l | l in lines :: OneLine(l);
    UnlinesSplit(lines, "");
    assert Unlines(lines) + "" == Unlines(lines) && Split("", '\n') == [""];
  }

  lemma EnvBlockable(tool: Tool, b: Bootstrap)
    requires PlainTool(tool) && Accepts(b)
    ensures Blockable(Unlines(EnvLines(tool, b)))
  {
    EnvLinesPlain(tool, b, SETTINGS);
    hide EnvLinesOf;
    hide Accepts;
    hide PlainTool;
    hide NamesASetting;
    hide Blockable;
    LinesBlockable(EnvLines(tool, b));
  }

  lemma LinesBlockable(lines: seq<string>)
    requires AllOneLine(lines) && lines != [] && forall l | l in lines :: l != "" && l[0] == 'G'
    ensures Blockable(Unlines(lines))
  {
    UnlinesFree(lines);
    UnlinesEnds(lines);
    UnlinesJoin(lines);
    var content := Unlines(lines);
    assert content[..|content| - 1] == Join(lines, "\n");
    SplitJoin(lines, '\n');
    assert lines[0] in lines && Spaces(lines[0]) == 0;
    assert FirstText(lines) == 0;
    assert lines[|lines| - 1] in lines;
  }

  function Settings(tool: Tool, b: Bootstrap): map<Setting, string> {
    map s | s in ALL_SETTINGS :: ValueOf(tool, b, s)
  }

  /** The launcher recovers the bootstrap's two URLs and token and the three pinned values. */
  lemma LauncherRecovers(tool: Tool, b: Bootstrap, marker: string)
    requires PlainTool(tool) && Accepts(b) && MarkerSafe(marker)
    ensures Launched(Some(Unlines(EnvLines(tool, b))), marker) == Boot(None, [marker], Starts(Settings(tool, b)))
  {
    hide EnvLinesOf;
    hide Unlines;
    hide ShellLines;
    hide MarkerSafe;
    hide Accepts;
    hide PlainTool;
    hide ValueOf;
    hide Values;
    hide OneRealValue;
    hide NamesASetting;
    EnvLinesPlain(tool, b, SETTINGS);
    ShellLinesOfUnlines(EnvLines(tool, b));
    RealSettings(tool, b);
    hide EnvLines;
    hide ALL_SETTINGS;
    LauncherStartsExactly(Unlines(EnvLines(tool, b)), marker, Settings(tool, b));
    hide Launched;
    StartsConsume(Some(Unlines(EnvLines(tool, b))), marker);
    hide AllOneLine;
  }

  lemma RealSettings(tool: Tool, b: Bootstrap)
    requires PlainTool(tool) && Accepts(b)
    ensures forall s | s in ALL_SETTINGS :: OneRealValue(Values(EnvLines(tool, b), s), Settings(tool, b)[s])
  {
    hide ValueOf;
    hide Accepts;
    hide PlainTool;
    hide EnvLinesOf;
    hide Values;
    forall s | s in ALL_SETTINGS
      ensures OneRealValue(Values(EnvLines(tool, b), s), Settings(tool, b)[s])
    {
      EnvValues(tool, b, SETTINGS, s);
      ValuePlain(tool, b, s);
      EverySetting(s);
    }
  }

  /** A launch that starts the runner has removed the bootstrap file and shown the marker. */
  lemma StartsConsume(env: Option<string>, marker: string)
    ensures Launched(env, marker).ending.Starts? ==> Launched(env, marker).env.None? && Launched(env, marker).console == [marker]
  {
    hide ParseLines;
    hide ShellLines;
    hide MarkerSafe;
    hide Complete;
    hide Settled;
  }

  lemma MarkerIsSafe(hostname: string)
    requires forall c | c in hostname :: Alnum(c) || c == '_'
    ensures MarkerSafe(MARKER_PREFIX + hostname)
  {
    assert forall c | c in MARKER_PREFIX :: MarkerChar(c);
    assert forall c | c in MARKER_PREFIX + hostname :: c in MARKER_PREFIX || c in hostname;
  }

  lemma OneLineJoined(a: string, b: string)
    requires OneLine(a) && OneLine(b)
    ensures OneLine(a + b)
  {
  }

  lemma PathsOneLine()
    ensures OneLine(RUNNER_PATH) && OneLine(LAUNCHER_PATH) && OneLine(ENV_PATH)
  {
    LibexecOneLine();
    RunnerOneLine();
    OneLineJoined(LIBEXEC, "/garm-runner-bootstrap");
    OneLineJoined(LIBEXEC, "/garm-bootstrap");
    assert OneLine(ENV_PATH);
    hide OneLine;
    hide LIBEXEC;
  }

  lemma LibexecOneLine()
    ensures OneLine(LIBEXEC)
  {
  }

  lemma RunnerOneLine()
    ensures OneLine("/garm-runner-bootstrap") && OneLine("/garm-bootstrap")
  {
  }

  lemma EntriesPlain(programs: Programs, tool: Tool, b: Bootstrap)
    requires PlainTool(tool) && Accepts(b) && Blockable(programs.runner) && Blockable(programs.launcher)
    ensures PlainEntries(Entries(programs, tool, b))
  {
    hide OneLine;
    hide Blockable;
    hide RUNNER_PATH;
    hide LAUNCHER_PATH;
    hide ENV_PATH;
    hide EXECUTABLE;
    hide PRIVATE;
    hide ROOT;
    hide EnvLines;
    hide Accepts;
    hide PlainTool;
    hide Unlines;
    PathsOneLine();
    RightsOneLine();
    EnvBlockable(tool, b);
  }

  lemma RightsOneLine()
    ensures OneLine(EXECUTABLE) && OneLine(PRIVATE) && OneLine(ROOT)
  {
  }

  lemma FooterStops(marker: string)
    requires MarkerSafe(marker)
    ensures Stops(Footer(marker)) && ReadEntry(Footer(marker)).None?
  {
    assert OneLine("runcmd:") && !Vacant("runcmd:") && Spaces("runcmd:") == 0;
    RunLineOneLine(marker);
    hide OneLine;
    hide RunLine;
    hide MarkerSafe;
  }

  lemma RunLineOneLine(marker: string)
    requires MarkerSafe(marker)
    ensures OneLine(RunLine(marker))
  {
    PathsOneLine();
    assert OneLine(marker);
    assert OneLine("  - [\"") && OneLine("\", \"") && OneLine("\"]");
    hide OneLine;
    hide LAUNCHER_PATH;
    hide ENV_PATH;
    OneLineJoined("  - [\"", LAUNCHER_PATH);
    OneLineJoined("  - [\"" + LAUNCHER_PATH, "\", \"");
    OneLineJoined("  - [\"" + LAUNCHER_PATH + "\", \"", ENV_PATH);
    OneLineJoined("  - [\"" + LAUNCHER_PATH + "\", \"" + ENV_PATH, "\", \"");
    OneLineJoined("  - [\"" + LAUNCHER_PATH + "\", \"" + ENV_PATH + "\", \"", marker);
    OneLineJoined("  - [\"" + LAUNCHER_PATH + "\", \"" + ENV_PATH + "\", \"" + marker, "\"]");
  }

  /** The seed of every accepted request reads back as its three files, and its bootstrap file and marker make the
      launcher start the runner with exactly the request's URLs and token and the pinned tool, once. */
  lemma SeedBoots(programs: Programs, tool: Tool, b: Bootstrap, hostname: string)
    requires PlainTool(tool) && Accepts(b) && Blockable(programs.runner) && Blockable(programs.launcher)
    requires forall c | c in hostname :: Alnum(c) || c == '_'
    ensures var seed := SeedFor(programs, tool, b, hostname);
            var entries := Entries(programs, tool, b);
            && ReadUserData(seed.userData) == Some((entries, Footer(seed.marker)))
            && entries[2].path == ENV_PATH
            && Launched(Some(entries[2].content), seed.marker)
               == Boot(None, [seed.marker], Starts(Settings(tool, b)))
  {
    hide PlainTool;
    hide Accepts;
    hide Blockable;
    hide Launched;
    hide ReadUserData;
    hide HEADER;
    hide EntriesText;
    hide Footer;
    hide Unlines;
    hide MarkerSafe;
    hide MARKER_PREFIX;
    hide EnvLines;
    hide Settings;
    MarkerIsSafe(hostname);
    var marker := MARKER_PREFIX + hostname;
    EntriesPlain(programs, tool, b);
    FooterStops(marker);
    UserDataReads(Entries(programs, tool, b), Footer(marker));
    LauncherRecovers(tool, b, marker);
    hide PlainEntries;
    hide Stops;
    hide ReadEntry;
    hide RUNNER_PATH;
    hide LAUNCHER_PATH;
    hide ENV_PATH;
  }
}

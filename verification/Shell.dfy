/** The runner bootstrap program, command by command: its retry loops, its numbered exits, and its two traps. */
module Shell {
  import opened Text

  /** The two runner trees: the one the program installs, and the one the image brought along. */
  datatype Home = Installed | Resident

  datatype Cred = RunnerFile | CredentialsFile | RSAFile

  /** Every file, link and archive that can hold a credential or a downloaded payload. */
  datatype Path = Link(home: Home, cred: Cred) | Jit(cred: Cred) | JitTmp(cred: Cred) | Archive | ArchiveTmp

  datatype Content = Empty | Full

  /** Which of the executables the program looks for are there. */
  datatype Tree = Tree(runScript: bool, listener: bool, node: bool)

  /** What the program finds: its attempt limit, the resident tree and whether it can be written, and the runner
      versions the pinned file name and the resident listener give. */
  datatype Setup = Setup(
    maxAttempts: nat, resident: Option<Tree>, writable: bool, expected: Option<string>, actual: Option<string>)

  datatype Child = Unborn | Alive | Gone

  /** The calls of `post_json`, in the order of the program text. */
  datatype Site =
    | UsingResident | Downloading | DownloadFailed | ExtractFailed | TreeIncomplete | NodeMissing
    | FetchingMetadata | FetchFailed(cred: Cred) | RunnerExited | SystemInfo | Idle

  predicate ReportsFailure(site: Site) {
    site.DownloadFailed? || site.ExtractFailed? || site.TreeIncomplete? || site.NodeMissing? || site.FetchFailed?
    || site.RunnerExited?
  }

  /** What the run has done that others can see, or that its later steps rest on. */
  datatype Event =
    | Post(site: Site, n: nat, ok: bool)
    | Fetch(cred: Cred, n: nat, ok: bool)
    | Download(n: nat, ok: bool)
    | Matched
    | Verified
    | MoveFailed(cred: Cred)
    | Launched(home: Home)

  datatype InstallStep =
    CheckResident | SwitchHome | MakeJitDir | RemoveHome | MakeDirs | Extract | RemoveArchive | CheckTree | CheckNode
    | EnterHome

  /** `download_runner` */
  datatype DownStep = DownClear | DownTry(n: nat) | DownVerify(n: nat) | DownMove | DownDrop(n: nat) | DownSleep(n: nat)

  /** `fetch_metadata` */
  datatype FetchStep = FetchClear | FetchTry(n: nat) | FetchMove | FetchDrop(n: nat) | FetchSleep(n: nat)

  datatype RunStep =
    | MakeLink(cred: Cred) | Launch | RecordPid | ReadyWait | Probe | Reap
    | KillRunner(code: nat) | AwaitKilled(code: nat) | AwaitRunner | ClearPid(code: nat)

  /** The command about to run. */
  datatype Ctl =
    | Installing(install: InstallStep)
    | Posting(site: Site, n: nat)
    | PostSleep(site: Site, n: nat)
    | Downing(down: DownStep)
    | Fetching(cred: Cred, fetch: FetchStep)
    | Running(step: RunStep)
    | Exited(code: nat)

  /** `pid` says whether `runner_pid` is set; `made` are the paths this run has created. */
  datatype Shell = Shell(
    home: Home, files: map<Path, Content>, made: set<Path>, tree: Tree, pid: bool, child: Child, log: seq<Event>, ctl: Ctl)

  /** Everything about one command the program cannot know: whether a signal is pending, whether the command succeeds,
      what curl or tar leave behind, and whether and how the runner ends meanwhile. */
  datatype Outcome = Outcome(
    signal: bool, ok: bool, wrote: Option<Content>, matches: bool, tree: Tree, extras: set<Cred>, dies: bool, code: nat)

  // ----- files -----

  const CREDS: set<Cred> := {RunnerFile, CredentialsFile, RSAFile}

  function Links(home: Home): set<Path> {
    {Link(home, RunnerFile), Link(home, CredentialsFile), Link(home, RSAFile)}
  }

  /** What `cleanup_credentials` removes. */
  function Swept(home: Home): set<Path> {
    Links(home) + {Jit(RunnerFile), Jit(CredentialsFile), Jit(RSAFile), JitTmp(RunnerFile), JitTmp(CredentialsFile),
                   JitTmp(RSAFile), Archive, ArchiveTmp}
  }

  function Removed(st: Shell, paths: set<Path>): Shell {
    st.(files := st.files - paths)
  }

  function Created(st: Shell, path: Path, content: Content): Shell {
    st.(files := st.files[path := content], made := st.made + {path})
  }

  /** What a transfer tool leaves at `path`. */
  function Wrote(st: Shell, path: Path, wrote: Option<Content>): Shell {
    match wrote
    case None => st
    case Some(content) => Created(st, path, content)
  }

  function Unpacked(st: Shell, o: Outcome): Shell {
    var found := set c | c in o.extras && c in CREDS :: Link(Installed, c);
    st.(files := (map p | p in found :: Full) + st.files, made := st.made + found, tree := o.tree)
  }

  function Logged(st: Shell, e: Event): Shell {
    st.(log := st.log + [e])
  }

  function Goto(st: Shell, ctl: Ctl): Shell {
    st.(ctl := ctl)
  }

  /** Leaving the program, whichever way, runs the EXIT trap. */
  function Quit(st: Shell, code: nat): Shell {
    Goto(Removed(st, Swept(st.home)), Exited(code))
  }

  /** A command that `set -e` watches: going on, or exit 1. */
  function OrQuit(ok: bool, st: Shell, next: Ctl): Shell {
    if ok then Goto(st, next) else Quit(st, 1)
  }

  /** `prestaged_runner_matches` */
  predicate ResidentMatches(setup: Setup, files: map<Path, Content>) {
    && setup.resident.Some? && setup.expected.Some?
    && setup.resident.value == Tree(true, true, true) && setup.writable
    && Links(Resident) !! files.Keys
    && setup.actual == setup.expected
  }

  function CurrentTree(setup: Setup, st: Shell): Tree {
    if st.home.Resident? && setup.resident.Some? then setup.resident.value else st.tree
  }

  // ----- control -----

  /** The first command of a `post_json` call. */
  function StartPost(setup: Setup, st: Shell, site: Site): Shell {
    if setup.maxAttempts == 0 then Posted(setup, st, site, false) else Goto(st, Posting(site, 1))
  }

  /** Where a `post_json` call returns to. */
  function Posted(setup: Setup, st: Shell, site: Site, ok: bool): Shell {
    match site
    case UsingResident => if ok then Goto(st, Installing(MakeJitDir)) else Quit(st, 20)
    case Downloading => if ok then Goto(st, Downing(DownClear)) else Quit(st, 20)
    case DownloadFailed => Quit(st, 21)
    case ExtractFailed => Quit(st, 22)
    case TreeIncomplete => Quit(st, 23)
    case NodeMissing => Quit(st, 24)
    case FetchingMetadata => if ok then Goto(st, Fetching(RunnerFile, FetchClear)) else Quit(st, 25)
    case FetchFailed(cred) => Quit(st, FetchExit(cred))
    case RunnerExited => Quit(st, 29)
    case SystemInfo =>
      Goto(st, if !ok then Running(KillRunner(30))
               else if setup.maxAttempts == 0 then Running(KillRunner(31)) else Posting(Idle, 1))
    case Idle => Goto(st, Running(if ok then AwaitRunner else KillRunner(31)))
  }

  function FetchExit(cred: Cred): nat {
    match cred case RunnerFile => 26 case CredentialsFile => 27 case RSAFile => 28
  }

  /** Where a `fetch_metadata` call returns to. */
  function Fetched(setup: Setup, st: Shell, cred: Cred, ok: bool): Shell {
    if !ok then StartPost(setup, st, FetchFailed(cred))
    else Goto(st, match cred
                  case RunnerFile => Fetching(CredentialsFile, FetchClear)
                  case CredentialsFile => Fetching(RSAFile, FetchClear)
                  case RSAFile => Running(MakeLink(RunnerFile)))
  }

  /** Where `download_runner` returns to. */
  function Downloaded(setup: Setup, st: Shell, ok: bool): Shell {
    if ok then Goto(st, Installing(RemoveHome)) else StartPost(setup, st, DownloadFailed)
  }

  // ----- what a command does when no signal is pending -----

  /** Most commands at the top of the program are watched by `set -e`. */
  function Install(setup: Setup, st: Shell, step: InstallStep, o: Outcome): Shell {
    match step
    case CheckResident =>
      if ResidentMatches(setup, st.files) then Goto(Logged(st, Matched), Installing(SwitchHome))
      else StartPost(setup, st, Downloading)
    case SwitchHome => StartPost(setup, st.(home := Resident), UsingResident)
    case MakeJitDir => OrQuit(o.ok, st, Installing(CheckTree))
    case RemoveHome => OrQuit(o.ok, if o.ok then Removed(st, Links(Installed)) else st, Installing(MakeDirs))
    case MakeDirs => OrQuit(o.ok, st, Installing(Extract))
    case Extract =>
      if o.ok && Archive in st.files then Goto(Unpacked(st, o), Installing(RemoveArchive))
      else StartPost(setup, Unpacked(st, o), ExtractFailed)
    case RemoveArchive => OrQuit(o.ok, if o.ok then Removed(st, {Archive}) else st, Installing(CheckTree))
    case CheckTree =>
      if CurrentTree(setup, st).runScript && CurrentTree(setup, st).listener then Goto(st, Installing(CheckNode))
      else StartPost(setup, st, TreeIncomplete)
    case CheckNode =>
      if CurrentTree(setup, st).node then Goto(st, Installing(EnterHome)) else StartPost(setup, st, NodeMissing)
    case EnterHome => if o.ok then StartPost(setup, st, FetchingMetadata) else Quit(st, 1)
  }

  function TryPost(setup: Setup, st: Shell, site: Site, n: nat, o: Outcome): Shell {
    var posted := Logged(st, Post(site, n, o.ok));
    if o.ok then Posted(setup, posted, site, true)
    else if n < setup.maxAttempts then Goto(posted, PostSleep(site, n))
    else Posted(setup, posted, site, false)
  }

  function Obtain(setup: Setup, st: Shell, step: DownStep, o: Outcome): Shell {
    match step
    case DownClear =>
      var cleared := Removed(st, {ArchiveTmp, Archive});
      if setup.maxAttempts == 0 then Downloaded(setup, cleared, false) else Goto(cleared, Downing(DownTry(1)))
    case DownTry(n) =>
      Goto(Logged(Wrote(st, ArchiveTmp, o.wrote), Download(n, o.ok)),
           Downing(if o.ok && o.wrote.Some? then DownVerify(n) else DownDrop(n)))
    case DownVerify(n) =>
      if o.matches then Goto(Logged(st, Verified), Downing(DownMove)) else Goto(st, Downing(DownDrop(n)))
    case DownMove =>
      Downloaded(setup, if o.ok then Created(Removed(st, {ArchiveTmp}), Archive, Full) else st, true)
    case DownDrop(n) =>
      var dropped := Removed(st, {ArchiveTmp});
      if n < setup.maxAttempts then Goto(dropped, Downing(DownSleep(n))) else Downloaded(setup, dropped, false)
    case DownSleep(n) => Goto(st, Downing(DownTry(n + 1)))
  }

  function FetchOne(setup: Setup, st: Shell, cred: Cred, step: FetchStep, o: Outcome): Shell {
    match step
    case FetchClear =>
      var cleared := Removed(st, {JitTmp(cred)});
      if setup.maxAttempts == 0 then Fetched(setup, cleared, cred, false) else Goto(cleared, Fetching(cred, FetchTry(1)))
    case FetchTry(n) =>
      Goto(Logged(Wrote(st, JitTmp(cred), o.wrote), Fetch(cred, n, o.ok)),
           Fetching(cred, if o.ok && o.wrote == Some(Full) then FetchMove else FetchDrop(n)))
    case FetchMove =>
      Fetched(setup, if o.ok then Created(Removed(st, {JitTmp(cred)}), Jit(cred), Full) else Logged(st, MoveFailed(cred)),
              cred, true)
    case FetchDrop(n) =>
      var dropped := Removed(st, {JitTmp(cred)});
      if n < setup.maxAttempts then Goto(dropped, Fetching(cred, FetchSleep(n))) else Fetched(setup, dropped, cred, false)
    case FetchSleep(n) => Goto(st, Fetching(cred, FetchTry(n + 1)))
  }

  function Operate(setup: Setup, st: Shell, step: RunStep, o: Outcome): Shell {
    match step
    case MakeLink(cred) =>
      var linked := o.ok && Link(st.home, cred) !in st.files;
      OrQuit(linked, if linked then Created(st, Link(st.home, cred), Full) else st,
             Running(match cred case RunnerFile => MakeLink(CredentialsFile) case CredentialsFile => MakeLink(RSAFile)
                                case RSAFile => Launch))
    case Launch => Goto(Logged(st.(child := Alive), Launched(st.home)), Running(RecordPid))
    case RecordPid => Goto(st.(pid := true), Running(ReadyWait))
    case ReadyWait => Goto(st, Running(Probe))
    case Probe => if st.child.Alive? then StartPost(setup, st, SystemInfo) else Goto(st, Running(Reap))
    case Reap => StartPost(setup, st, RunnerExited)
    case KillRunner(code) => Goto(st, Running(AwaitKilled(code)))
    case AwaitKilled(code) => Quit(st.(child := Gone), code)
    case AwaitRunner => Goto(st.(child := Gone), Running(ClearPid(o.code)))
    case ClearPid(code) => Quit(st.(pid := false), code)
  }

  function Execute(setup: Setup, st: Shell, o: Outcome): Shell {
    match st.ctl
    case Installing(step) => Install(setup, st, step, o)
    case Posting(site, n) => TryPost(setup, st, site, n, o)
    case PostSleep(site, n) => Goto(st, Posting(site, n + 1))
    case Downing(step) => Obtain(setup, st, step, o)
    case Fetching(cred, step) => FetchOne(setup, st, cred, step, o)
    case Running(step) => Operate(setup, st, step, o)
    case Exited(_) => st
  }

  /** `terminate_runner`: the recorded runner is killed and awaited, and the program leaves with 143. */
  function Interrupted(st: Shell): Shell {
    Quit(if st.pid && st.child.Alive? then st.(child := Gone) else st, 143)
  }

  /** A running runner may end by itself at any time. */
  function Lived(st: Shell, o: Outcome): Shell {
    if o.dies && st.child.Alive? then st.(child := Gone) else st
  }

  function Step(setup: Setup, st: Shell, o: Outcome): Shell {
    if st.ctl.Exited? then Lived(st, o)
    else if o.signal then Interrupted(Lived(st, o))
    else Execute(setup, Lived(st, o), o)
  }

  /** The state at the setting of the traps; `files` is what earlier runs may have left. */
  function Started(files: map<Path, Content>): Shell {
    Shell(Installed, files, {}, Tree(false, false, false), false, Unborn, [], Installing(CheckResident))
  }

  function Run(setup: Setup, st: Shell, oracle: nat -> Outcome, i: nat, j: nat): Shell
    requires i <= j
  {
    if i == j then st else Step(setup, Run(setup, st, oracle, i, j - 1), oracle(j - 1))
  }
}

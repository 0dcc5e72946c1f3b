/** What the bootstrap program keeps at every command boundary, whatever the network does and wherever a signal falls. */
module ShellSafety {
  import opened Shell

  // ----- positions -----

  function SitePos(site: Site): nat {
    match site
    case UsingResident => 2
    case Downloading => 4
    case DownloadFailed => 6
    case ExtractFailed => 10
    case TreeIncomplete => 13
    case NodeMissing => 15
    case FetchingMetadata => 17
    case FetchFailed(cred) => CredPos(cred) + 1
    case RunnerExited => 32
    case SystemInfo => 33
    case Idle => 34
  }

  function CredPos(cred: Cred): nat {
    match cred case RunnerFile => 18 case CredentialsFile => 20 case RSAFile => 22
  }

  function LinkPos(cred: Cred): nat {
    match cred case RunnerFile => 24 case CredentialsFile => 25 case RSAFile => 26
  }

  const DOWNLOAD_POS := 5
  const LAUNCH_POS := 27
  const END_POS := 39

  function InstallPos(step: InstallStep): nat {
    match step
    case CheckResident => 0
    case SwitchHome => 1
    case MakeJitDir => 3
    case RemoveHome => 7
    case MakeDirs => 8
    case Extract => 9
    case RemoveArchive => 11
    case CheckTree => 12
    case CheckNode => 14
    case EnterHome => 16
  }

  function RunPos(step: RunStep): nat {
    match step
    case MakeLink(cred) => LinkPos(cred)
    case Launch => LAUNCH_POS
    case RecordPid => 28
    case ReadyWait => 29
    case Probe => 30
    case Reap => 31
    case KillRunner(_) => 35
    case AwaitKilled(_) => 36
    case AwaitRunner => 37
    case ClearPid(_) => 38
  }

  /** How far into the program text a command lies; a loop has one position. */
  function Pos(ctl: Ctl): (pos: nat)
    ensures pos <= END_POS
  {
    match ctl
    case Installing(step) => InstallPos(step)
    case Posting(site, _) => SitePos(site)
    case PostSleep(site, _) => SitePos(site)
    case Downing(_) => DOWNLOAD_POS
    case Fetching(cred, _) => CredPos(cred)
    case Running(step) => RunPos(step)
    case Exited(_) => END_POS
  }

  // ----- how positions move -----

  lemma PostedPos(setup: Setup, st: Shell, site: Site, ok: bool)
    ensures Pos(Posted(setup, st, site, ok).ctl) > SitePos(site)
  {
    hide Swept;
    hide Removed;
  }

  lemma StartPostPos(setup: Setup, st: Shell, site: Site)
    ensures Pos(StartPost(setup, st, site).ctl) >= SitePos(site)
  {
    PostedPos(setup, st, site, false);
    hide Posted;
  }

  lemma FetchedPos(setup: Setup, st: Shell, cred: Cred, ok: bool)
    ensures Pos(Fetched(setup, st, cred, ok).ctl) > CredPos(cred)
  {
    StartPostPos(setup, st, FetchFailed(cred));
    hide StartPost;
  }

  lemma DownloadedPos(setup: Setup, st: Shell, ok: bool)
    ensures Pos(Downloaded(setup, st, ok).ctl) > DOWNLOAD_POS
  {
    StartPostPos(setup, st, DownloadFailed);
    hide StartPost;
  }

  lemma InstallMoves(setup: Setup, st: Shell, step: InstallStep, o: Outcome)
    ensures Pos(Install(setup, st, step, o).ctl) > InstallPos(step)
  {
    hide StartPost;
    hide ResidentMatches;
    hide CurrentTree;
    hide Removed;
    hide Unpacked;
    match step
    case CheckResident => StartPostPos(setup, st, Downloading);
    case SwitchHome => StartPostPos(setup, st.(home := Resident), UsingResident);
    case Extract => StartPostPos(setup, Unpacked(st, o), ExtractFailed);
    case CheckTree => StartPostPos(setup, st, TreeIncomplete);
    case CheckNode => StartPostPos(setup, st, NodeMissing);
    case EnterHome => StartPostPos(setup, st, FetchingMetadata);
    case _ =>
  }

  lemma PostMovesOn(setup: Setup, st: Shell, site: Site, n: nat, o: Outcome)
    ensures var next := TryPost(setup, st, site, n, o).ctl;
            Pos(next) > SitePos(site) || next == PostSleep(site, n)
  {
    PostedPos(setup, Logged(st, Post(site, n, o.ok)), site, o.ok);
    hide Posted;
  }

  lemma ObtainMoves(setup: Setup, st: Shell, step: DownStep, o: Outcome)
    ensures var next := Obtain(setup, st, step, o).ctl; Pos(next) > DOWNLOAD_POS || next.Downing?
  {
    hide Downloaded;
    match step
    case DownClear => DownloadedPos(setup, Removed(st, {ArchiveTmp, Archive}), false);
    case DownMove => DownloadedPos(setup, if o.ok then Created(Removed(st, {ArchiveTmp}), Archive, Full) else st, true);
    case DownDrop(_) => DownloadedPos(setup, Removed(st, {ArchiveTmp}), false);
    case _ =>
  }

  lemma FetchMovesOn(setup: Setup, st: Shell, cred: Cred, step: FetchStep, o: Outcome)
    ensures var next := FetchOne(setup, st, cred, step, o).ctl;
            Pos(next) > CredPos(cred) || (next.Fetching? && next.cred == cred)
  {
    hide Fetched;
    match step
    case FetchClear => FetchedPos(setup, Removed(st, {JitTmp(cred)}), cred, false);
    case FetchMove =>
      FetchedPos(setup, if o.ok then Created(Removed(st, {JitTmp(cred)}), Jit(cred), Full) else Logged(st, MoveFailed(cred)),
                 cred, true);
    case FetchDrop(_) => FetchedPos(setup, Removed(st, {JitTmp(cred)}), cred, false);
    case _ =>
  }

  lemma OperateMoves(setup: Setup, st: Shell, step: RunStep, o: Outcome)
    ensures Pos(Operate(setup, st, step, o).ctl) > RunPos(step)
  {
    hide StartPost;
    StartPostPos(setup, st, SystemInfo);
    StartPostPos(setup, st, RunnerExited);
  }

  /** Positions never go back. */
  lemma PositionMoves(setup: Setup, st: Shell, o: Outcome)
    ensures Pos(st.ctl) <= Pos(Execute(setup, st, o).ctl)
  {
    hide Install;
    hide TryPost;
    hide Obtain;
    hide FetchOne;
    hide Operate;
    match st.ctl
    case Installing(step) => InstallMoves(setup, st, step, o);
    case Posting(site, n) => PostMovesOn(setup, st, site, n, o);
    case Downing(step) => ObtainMoves(setup, st, step, o);
    case Fetching(cred, step) => FetchMovesOn(setup, st, cred, step, o);
    case Running(step) => OperateMoves(setup, st, step, o);
    case _ =>
  }

  // ----- one command: its effect, then where control goes -----

  function InstallEffect(setup: Setup, st: Shell, step: InstallStep, o: Outcome): Shell {
    match step
    case CheckResident => if ResidentMatches(setup, st.files) then Logged(st, Matched) else st
    case SwitchHome => st.(home := Resident)
    case RemoveHome => if o.ok then Removed(st, Links(Installed)) else st
    case Extract => Unpacked(st, o)
    case RemoveArchive => if o.ok then Removed(st, {Archive}) else st
    case _ => st
  }

  function ObtainEffect(st: Shell, step: DownStep, o: Outcome): Shell {
    match step
    case DownClear => Removed(st, {ArchiveTmp, Archive})
    case DownTry(n) => Logged(Wrote(st, ArchiveTmp, o.wrote), Download(n, o.ok))
    case DownVerify(_) => if o.matches then Logged(st, Verified) else st
    case DownMove => if o.ok then Created(Removed(st, {ArchiveTmp}), Archive, Full) else st
    case DownDrop(_) => Removed(st, {ArchiveTmp})
    case DownSleep(_) => st
  }

  function FetchEffect(st: Shell, cred: Cred, step: FetchStep, o: Outcome): Shell {
    match step
    case FetchClear => Removed(st, {JitTmp(cred)})
    case FetchTry(n) => Logged(Wrote(st, JitTmp(cred), o.wrote), Fetch(cred, n, o.ok))
    case FetchMove =>
      if o.ok then Created(Removed(st, {JitTmp(cred)}), Jit(cred), Full) else Logged(st, MoveFailed(cred))
    case FetchDrop(_) => Removed(st, {JitTmp(cred)})
    case FetchSleep(_) => st
  }

  function OperateEffect(st: Shell, step: RunStep, o: Outcome): Shell {
    match step
    case MakeLink(cred) =>
      if o.ok && Link(st.home, cred) !in st.files then Created(st, Link(st.home, cred), Full) else st
    case Launch => Logged(st.(child := Alive), Launched(st.home))
    case RecordPid => st.(pid := true)
    case AwaitKilled(_) => st.(child := Gone)
    case AwaitRunner => st.(child := Gone)
    case ClearPid(_) => st.(pid := false)
    case _ => st
  }

  /** What a command changes besides the place in the program. */
  function Effect(setup: Setup, st: Shell, o: Outcome): Shell {
    match st.ctl
    case Installing(step) => InstallEffect(setup, st, step, o)
    case Posting(site, n) => Logged(st, Post(site, n, o.ok))
    case Downing(step) => ObtainEffect(st, step, o)
    case Fetching(cred, step) => FetchEffect(st, cred, step, o)
    case Running(step) => OperateEffect(st, step, o)
    case _ => st
  }

  /** Control moves on, or the program leaves through its EXIT trap. */
  predicate Moves(st: Shell, next: Shell) {
    next == if next.ctl.Exited? then Quit(st, next.ctl.code) else Goto(st, next.ctl)
  }

  lemma PostedMoves(setup: Setup, st: Shell, site: Site, ok: bool)
    ensures Moves(st, Posted(setup, st, site, ok)) && Moves(st, StartPost(setup, st, site))
  {
    hide Removed;
  }

  lemma FetchedMoves(setup: Setup, st: Shell, cred: Cred, ok: bool)
    ensures Moves(st, Fetched(setup, st, cred, ok)) && Moves(st, Downloaded(setup, st, ok))
  {
    PostedMoves(setup, st, FetchFailed(cred), false);
    PostedMoves(setup, st, DownloadFailed, false);
    hide StartPost;
    hide Quit;
  }

  lemma InstallIsEffect(setup: Setup, st: Shell, step: InstallStep, o: Outcome)
    ensures Moves(InstallEffect(setup, st, step, o), Install(setup, st, step, o))
  {
    hide StartPost;
    hide ResidentMatches;
    hide CurrentTree;
    hide Removed;
    hide Unpacked;
    match step
    case CheckResident => PostedMoves(setup, st, Downloading, true);
    case SwitchHome => PostedMoves(setup, st.(home := Resident), UsingResident, true);
    case Extract => PostedMoves(setup, Unpacked(st, o), ExtractFailed, true);
    case CheckTree => PostedMoves(setup, st, TreeIncomplete, true);
    case CheckNode => PostedMoves(setup, st, NodeMissing, true);
    case EnterHome => PostedMoves(setup, st, FetchingMetadata, true);
    case _ =>
  }

  lemma ObtainIsEffect(setup: Setup, st: Shell, step: DownStep, o: Outcome)
    ensures Moves(ObtainEffect(st, step, o), Obtain(setup, st, step, o))
  {
    hide Downloaded;
    hide Removed;
    hide Created;
    hide Wrote;
    var body := ObtainEffect(st, step, o);
    FetchedMoves(setup, body, RunnerFile, false);
    FetchedMoves(setup, body, RunnerFile, true);
  }

  lemma FetchIsEffect(setup: Setup, st: Shell, cred: Cred, step: FetchStep, o: Outcome)
    ensures Moves(FetchEffect(st, cred, step, o), FetchOne(setup, st, cred, step, o))
  {
    hide Fetched;
    hide Removed;
    hide Created;
    hide Wrote;
    var body := FetchEffect(st, cred, step, o);
    FetchedMoves(setup, body, cred, false);
    FetchedMoves(setup, body, cred, true);
  }

  lemma OperateIsEffect(setup: Setup, st: Shell, step: RunStep, o: Outcome)
    ensures Moves(OperateEffect(st, step, o), Operate(setup, st, step, o))
  {
    hide StartPost;
    hide Removed;
    hide Created;
    PostedMoves(setup, st, SystemInfo, true);
    PostedMoves(setup, st, RunnerExited, true);
  }

  /** Every command is its effect followed by a move of control. */
  lemma ExecuteIsEffect(setup: Setup, st: Shell, o: Outcome)
    requires !st.ctl.Exited?
    ensures Moves(Effect(setup, st, o), Execute(setup, st, o))
  {
    hide Install;
    hide Obtain;
    hide FetchOne;
    hide Operate;
    hide InstallEffect;
    hide ObtainEffect;
    hide FetchEffect;
    hide OperateEffect;
    hide Posted;
    hide Quit;
    match st.ctl
    case Installing(step) => InstallIsEffect(setup, st, step, o);
    case Posting(site, n) => PostedMoves(setup, Logged(st, Post(site, n, o.ok)), site, o.ok);
    case Downing(step) => ObtainIsEffect(setup, st, step, o);
    case Fetching(cred, step) => FetchIsEffect(setup, st, cred, step, o);
    case Running(step) => OperateIsEffect(setup, st, step, o);
    case _ =>
  }

  // ----- files -----

  /** Only paths the EXIT trap sweeps have been touched, and what the run made is among them. */
  ghost predicate Contained(files: map<Path, Content>, st: Shell) {
    && Base(files, st)
    && (Pos(st.ctl) <= 1 ==> st.home.Installed? && st.files == files && st.made == {})
    && (4 <= Pos(st.ctl) <= 11 ==> st.home.Installed?)
    && (st.ctl.Exited? ==> st.files == files - Swept(st.home))
  }

  ghost predicate Base(files: map<Path, Content>, st: Shell) {
    st.made <= Swept(st.home) && st.files - Swept(st.home) == files - Swept(st.home)
  }

  lemma RemovedBase(files: map<Path, Content>, st: Shell, paths: set<Path>)
    requires Base(files, st) && paths <= Swept(st.home)
    ensures Base(files, Removed(st, paths))
  {
    hide Swept;
    assert (st.files - paths) - Swept(st.home) == st.files - Swept(st.home);
  }

  lemma CreatedBase(files: map<Path, Content>, st: Shell, path: Path, content: Content)
    requires Base(files, st) && path in Swept(st.home)
    ensures Base(files, Created(st, path, content))
  {
    hide Swept;
    assert st.files[path := content] - Swept(st.home) == st.files - Swept(st.home);
  }

  lemma UnpackedBase(files: map<Path, Content>, st: Shell, o: Outcome)
    requires Base(files, st) && st.home.Installed?
    ensures Base(files, Unpacked(st, o))
  {
    var found := set c | c in o.extras && c in CREDS :: Link(Installed, c);
    assert found <= Swept(Installed);
    hide Swept;
    assert ((map p | p in found :: Full) + st.files) - Swept(Installed) == st.files - Swept(Installed);
  }

  lemma SweptHas(home: Home, cred: Cred)
    ensures Jit(cred) in Swept(home) && JitTmp(cred) in Swept(home) && Link(home, cred) in Swept(home)
    ensures Archive in Swept(home) && ArchiveTmp in Swept(home)
  {
    match cred case RunnerFile => case CredentialsFile => case RSAFile =>
  }

  lemma MovesContained(files: map<Path, Content>, st: Shell, next: Shell)
    requires Base(files, st) && Moves(st, next) && Pos(next.ctl) > 1
    requires 4 <= Pos(next.ctl) <= 11 ==> st.home.Installed?
    ensures Contained(files, next)
  {
    hide Swept;
    assert (st.files - Swept(st.home)) - Swept(st.home) == st.files - Swept(st.home);
  }

  lemma ObtainBase(files: map<Path, Content>, st: Shell, step: DownStep, o: Outcome)
    requires Base(files, st)
    ensures Base(files, ObtainEffect(st, step, o)) && ObtainEffect(st, step, o).home == st.home
  {
    SweptHas(st.home, RunnerFile);
    hide Swept;
    hide Base;
    RemovedBase(files, st, {ArchiveTmp, Archive});
    RemovedBase(files, st, {ArchiveTmp});
    CreatedBase(files, Removed(st, {ArchiveTmp}), Archive, Full);
    if o.wrote.Some? { CreatedBase(files, st, ArchiveTmp, o.wrote.value); }
    if step.DownTry? { LoggedBase(files, Wrote(st, ArchiveTmp, o.wrote), Download(step.n, o.ok)); }
    LoggedBase(files, st, Verified);
  }

  lemma LoggedBase(files: map<Path, Content>, st: Shell, e: Event)
    ensures Base(files, Logged(st, e)) == Base(files, st)
  {
    hide Swept;
  }

  lemma FetchBase(files: map<Path, Content>, st: Shell, cred: Cred, step: FetchStep, o: Outcome)
    requires Base(files, st)
    ensures Base(files, FetchEffect(st, cred, step, o)) && FetchEffect(st, cred, step, o).home == st.home
  {
    SweptHas(st.home, cred);
    hide Swept;
    hide Base;
    RemovedBase(files, st, {JitTmp(cred)});
    CreatedBase(files, Removed(st, {JitTmp(cred)}), Jit(cred), Full);
    if o.wrote.Some? { CreatedBase(files, st, JitTmp(cred), o.wrote.value); }
    if step.FetchTry? { LoggedBase(files, Wrote(st, JitTmp(cred), o.wrote), Fetch(cred, step.n, o.ok)); }
    LoggedBase(files, st, MoveFailed(cred));
  }

  lemma OperateBase(files: map<Path, Content>, st: Shell, step: RunStep, o: Outcome)
    requires Base(files, st)
    ensures Base(files, OperateEffect(st, step, o)) && OperateEffect(st, step, o).home == st.home
  {
    if step.MakeLink? {
      SweptHas(st.home, step.cred);
      CreatedBase(files, st, Link(st.home, step.cred), Full);
    }
    hide Swept;
    hide Created;
  }

  lemma InstallBase(files: map<Path, Content>, setup: Setup, st: Shell, step: InstallStep, o: Outcome)
    requires Contained(files, st) && st.ctl == Installing(step)
    ensures Base(files, InstallEffect(setup, st, step, o))
    ensures !step.SwitchHome? ==> InstallEffect(setup, st, step, o).home == st.home
  {
    SweptHas(st.home, RunnerFile);
    match step
    case RemoveHome => RemovedBase(files, st, Links(Installed));
    case Extract => UnpackedBase(files, st, o);
    case RemoveArchive => RemovedBase(files, st, {Archive});
    case _ =>
    hide ResidentMatches;
    hide Unpacked;
  }

  /** The branch into the resident tree, and the positions the download can be reached from. */
  lemma InstallBranch(setup: Setup, st: Shell, step: InstallStep, o: Outcome)
    ensures var next := Install(setup, st, step, o).ctl;
            && (Pos(next) <= 1 ==> step.CheckResident? && next == Installing(SwitchHome) && ResidentMatches(setup, st.files))
            && (step.SwitchHome? ==> Pos(next) == 2 || next.Exited?)
            && (step.CheckResident? ==> Pos(next) == 1 || Pos(next) == 4 || next.Exited?)
            && !next.Downing?
            && (4 <= Pos(next) <= 11 ==> step.CheckResident? || step.RemoveHome? || step.MakeDirs? || step.Extract?)
  {
    hide CurrentTree;
    hide Removed;
    hide Unpacked;
  }

  lemma PostBranch(setup: Setup, st: Shell, site: Site, n: nat, o: Outcome)
    ensures var next := TryPost(setup, st, site, n, o).ctl;
            && Pos(next) > 1
            && (4 <= Pos(next) <= 11 ==> 4 <= SitePos(site) <= 11)
            && (Pos(next) <= 3 ==> SitePos(site) == 2)
            && (7 <= Pos(next) < END_POS ==> 7 <= SitePos(site))
            && next != Downing(DownMove)
  {
    hide Removed;
  }

  lemma LaterBranch(setup: Setup, st: Shell, o: Outcome)
    requires st.ctl.Downing? || st.ctl.Fetching? || st.ctl.Running?
    ensures Pos(Execute(setup, st, o).ctl) >= Pos(st.ctl) >= DOWNLOAD_POS
    ensures !st.ctl.Downing? ==> Pos(st.ctl) >= 18
  {
    PositionMoves(setup, st, o);
    hide Execute;
  }

  lemma ExecuteContained(files: map<Path, Content>, setup: Setup, st: Shell, o: Outcome)
    requires Contained(files, st) && !st.ctl.Exited?
    ensures Contained(files, Execute(setup, st, o))
  {
    hide Swept;
    hide Install;
    hide TryPost;
    hide Obtain;
    hide FetchOne;
    hide Operate;
    hide Base;
    ExecuteIsEffect(setup, st, o);
    hide Moves;
    match st.ctl {
      case Installing(step) =>
        InstallBase(files, setup, st, step, o);
        InstallBranch(setup, st, step, o);
        if !(Pos(Execute(setup, st, o).ctl) <= 1) {
          MovesContained(files, Effect(setup, st, o), Execute(setup, st, o));
        } else {
          SwitchContained(files, setup, st, o);
        }
      case Posting(site, n) =>
        LoggedBase(files, st, Post(site, n, o.ok));
        PostBranch(setup, st, site, n, o);
        MovesContained(files, Effect(setup, st, o), Execute(setup, st, o));
      case PostSleep(site, n) =>
        PostBranch(setup, st, site, n, o);
        MovesContained(files, Effect(setup, st, o), Execute(setup, st, o));
      case Downing(step) =>
        ObtainBase(files, st, step, o);
        LaterBranch(setup, st, o);
        MovesContained(files, Effect(setup, st, o), Execute(setup, st, o));
      case Fetching(cred, step) =>
        FetchBase(files, st, cred, step, o);
        LaterBranch(setup, st, o);
        MovesContained(files, Effect(setup, st, o), Execute(setup, st, o));
      case Running(step) =>
        OperateBase(files, st, step, o);
        LaterBranch(setup, st, o);
        MovesContained(files, Effect(setup, st, o), Execute(setup, st, o));
      case _ =>
    }
    hide InstallEffect;
    hide ObtainEffect;
    hide FetchEffect;
    hide OperateEffect;
    hide Contained;
  }

  lemma SwitchContained(files: map<Path, Content>, setup: Setup, st: Shell, o: Outcome)
    requires Contained(files, st) && st.ctl.Installing? && Pos(Execute(setup, st, o).ctl) <= 1
    ensures Contained(files, Execute(setup, st, o))
  {
    InstallBranch(setup, st, st.ctl.install, o);
    hide Swept;
    hide ResidentMatches;
  }

  lemma InterruptedContained(files: map<Path, Content>, st: Shell)
    requires Contained(files, st)
    ensures Contained(files, Interrupted(st))
  {
    hide Swept;
    assert (st.files - Swept(st.home)) - Swept(st.home) == st.files - Swept(st.home);
  }

  lemma LivedContained(files: map<Path, Content>, st: Shell, o: Outcome)
    requires Contained(files, st)
    ensures Contained(files, Lived(st, o))
  {
    hide Swept;
  }

  lemma StepContained(files: map<Path, Content>, setup: Setup, st: Shell, o: Outcome)
    requires Contained(files, st)
    ensures Contained(files, Step(setup, st, o))
  {
    LivedContained(files, st, o);
    if !st.ctl.Exited? {
      if o.signal {
        InterruptedContained(files, Lived(st, o));
      } else {
        ExecuteContained(files, setup, Lived(st, o), o);
      }
    }
    hide Contained;
    hide Execute;
    hide Interrupted;
  }

  lemma {:induction false} RunContained(files: map<Path, Content>, setup: Setup, oracle: nat -> Outcome, i: nat, j: nat)
    requires i <= j
    ensures Contained(files, Run(setup, Started(files), oracle, i, j))
  {
    hide Contained;
    hide Step;
    hide Started;
    if i == j {
      StartedContained(files);
    } else {
      RunContained(files, setup, oracle, i, j - 1);
      StepContained(files, setup, Run(setup, Started(files), oracle, i, j - 1), oracle(j - 1));
    }
  }

  lemma StartedContained(files: map<Path, Content>)
    ensures Contained(files, Started(files))
  {
    hide Swept;
  }

  /** However the program ends, at whatever exit or signal, every credential file, link, temporary file and archive the
      run made is gone, in the home it ended up with; and nothing outside the swept paths has been touched. */
  lemma CredentialsAreGone(files: map<Path, Content>, setup: Setup, oracle: nat -> Outcome, i: nat, j: nat)
    requires i <= j && Run(setup, Started(files), oracle, i, j).ctl.Exited?
    ensures var end := Run(setup, Started(files), oracle, i, j);
            && end.made !! end.files.Keys
            && end.files == files - Swept(end.home)
            && end.made <= Swept(end.home)
  {
    hide Run;
    hide Swept;
    RunContained(files, setup, oracle, i, j);
  }
}

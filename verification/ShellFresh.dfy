/** Nothing an earlier run left behind is used: the archive that is unpacked and the links the runner starts with are this
    run's own. */
module ShellFresh {
  import opened Text
  import opened Shell
  import opened ShellSafety
  import opened ShellGate
  import opened ShellRuns

  /** If there is something at a path, this run has put it there. */
  predicate Own(st: Shell, path: Path) {
    path in st.files ==> path in st.made
  }

  predicate OwnLinks(st: Shell, home: Home) {
    Own(st, Link(home, RunnerFile)) && Own(st, Link(home, CredentialsFile)) && Own(st, Link(home, RSAFile))
  }

  /** The old archive has been cleared away, and the new one not yet. */
  predicate ArchiveDue(ctl: Ctl) {
    (ctl.Downing? && !ctl.down.DownClear?) || 6 <= Pos(ctl) <= 10
  }

  /** The old tree is out of the way. */
  predicate HomeDue(ctl: Ctl) {
    8 <= Pos(ctl) < END_POS
  }

  predicate Fresh(st: Shell) {
    && (ArchiveDue(st.ctl) ==> Own(st, Archive))
    && (HomeDue(st.ctl) && st.home.Installed? ==> OwnLinks(st, Installed))
    && (st.home.Resident? ==> OwnLinks(st, Resident))
    && (st.ctl == Installing(SwitchHome) ==> Links(Resident) !! st.files.Keys)
  }

  /** A command leaves a path alone, clears it, or puts its own there. */
  predicate Minds(st: Shell, body: Shell, path: Path) {
    || ((path in body.files <==> path in st.files) && st.made <= body.made)
    || path !in body.files
    || path in body.made
  }

  lemma MindsOwn(st: Shell, body: Shell, path: Path)
    requires Minds(st, body, path)
    ensures Own(st, path) ==> Own(body, path)
  {
  }

  lemma WroteMinds(st: Shell, at: Path, wrote: Option<Content>, path: Path)
    ensures Minds(st, Wrote(st, at, wrote), path)
  {
  }

  lemma UnpackedMinds(st: Shell, o: Outcome, path: Path)
    ensures Minds(st, Unpacked(st, o), path)
  {
  }

  lemma InstallMinds(setup: Setup, st: Shell, step: InstallStep, o: Outcome, path: Path)
    ensures Minds(st, InstallEffect(setup, st, step, o), path)
  {
    UnpackedMinds(st, o, path);
    hide Unpacked;
    hide ResidentMatches;
  }

  lemma ObtainMinds(st: Shell, step: DownStep, o: Outcome, path: Path)
    ensures Minds(st, ObtainEffect(st, step, o), path)
  {
    WroteMinds(st, ArchiveTmp, o.wrote, path);
    hide Wrote;
  }

  lemma FetchMinds(st: Shell, cred: Cred, step: FetchStep, o: Outcome, path: Path)
    ensures Minds(st, FetchEffect(st, cred, step, o), path)
  {
    WroteMinds(st, JitTmp(cred), o.wrote, path);
    hide Wrote;
  }

  lemma OperateMinds(st: Shell, step: RunStep, o: Outcome, path: Path)
    ensures Minds(st, OperateEffect(st, step, o), path)
  {
  }

  lemma EffectMinds(setup: Setup, st: Shell, o: Outcome, path: Path)
    requires !st.ctl.Exited?
    ensures Minds(st, Effect(setup, st, o), path)
  {
    match st.ctl
    case Installing(step) => InstallMinds(setup, st, step, o, path);
    case Downing(step) => ObtainMinds(st, step, o, path);
    case Fetching(cred, step) => FetchMinds(st, cred, step, o, path);
    case Running(step) => OperateMinds(st, step, o, path);
    case _ =>
    hide InstallEffect;
    hide ObtainEffect;
    hide FetchEffect;
    hide OperateEffect;
  }

  /** Where a path comes to be due, it has just been cleared, or control was where it was due already. */
  lemma ArchiveComesDue(setup: Setup, st: Shell, o: Outcome)
    requires !st.ctl.Exited? && ArchiveDue(Execute(setup, st, o).ctl)
    ensures ArchiveDue(st.ctl) || (st.ctl == Downing(DownClear) && Archive !in Effect(setup, st, o).files)
  {
    ExecuteFlows(setup, st, o);
    if st.ctl.Downing? { return; }
    NotDowning(setup, st, o);
    hide Execute;
    hide Effect;
  }

  /** The download is entered only at its beginning. */
  lemma NotDowning(setup: Setup, st: Shell, o: Outcome)
    requires !st.ctl.Exited? && !st.ctl.Downing?
    ensures Execute(setup, st, o).ctl.Downing? ==> Execute(setup, st, o).ctl == Downing(DownClear)
  {
    match st.ctl
    case Installing(step) => InstallBranch(setup, st, step, o); hide Install;
    case Posting(site, n) => PostingEnters(setup, st, site, n, o); hide TryPost;
    case PostSleep(_, _) =>
    case Fetching(_, _) => LaterPlace(setup, st, o); hide Execute;
    case Running(_) => LaterPlace(setup, st, o); hide Execute;
  }

  lemma PostingEnters(setup: Setup, st: Shell, site: Site, n: nat, o: Outcome)
    ensures TryPost(setup, st, site, n, o).ctl.Downing? ==> TryPost(setup, st, site, n, o).ctl == Downing(DownClear)
  {
    hide Swept;
  }

  lemma HomeComesDue(files: map<Path, Content>, setup: Setup, st: Shell, o: Outcome)
    requires !st.ctl.Exited? && Entered(files, setup, st)
    requires HomeDue(Execute(setup, st, o).ctl) && st.home.Installed?
    ensures HomeDue(st.ctl) || (st.ctl == Installing(RemoveHome) && o.ok)
  {
    ExecuteFlows(setup, st, o);
    if Pos(st.ctl) == 7 {
      assert st.ctl == Installing(RemoveHome);
      hide Swept;
    }
  }

  lemma MovesOwn(st: Shell, next: Shell, path: Path)
    requires Moves(st, next) && !next.ctl.Exited?
    ensures Own(next, path) == Own(st, path) && next.home == st.home && next.files == st.files
  {
  }

  lemma LinksMind(setup: Setup, st: Shell, o: Outcome, home: Home)
    requires !st.ctl.Exited?
    ensures OwnLinks(st, home) ==> OwnLinks(Effect(setup, st, o), home)
  {
    EffectMinds(setup, st, o, Link(home, RunnerFile));
    EffectMinds(setup, st, o, Link(home, CredentialsFile));
    EffectMinds(setup, st, o, Link(home, RSAFile));
    hide Effect;
    hide Minds;
    var body := Effect(setup, st, o);
    MindsOwn(st, body, Link(home, RunnerFile));
    MindsOwn(st, body, Link(home, CredentialsFile));
    MindsOwn(st, body, Link(home, RSAFile));
    hide Own;
  }

  /** What a command leaves is this run's where it has to be. */
  lemma EffectFresh(setup: Setup, st: Shell, o: Outcome)
    requires Fresh(st) && !st.ctl.Exited?
    ensures var body := Effect(setup, st, o);
            && (body.home.Resident? ==> OwnLinks(body, Resident))
            && (ArchiveDue(st.ctl) ==> Own(body, Archive))
            && (HomeDue(st.ctl) && st.home.Installed? ==> OwnLinks(body, Installed))
  {
    EffectMinds(setup, st, o, Archive);
    MindsOwn(st, Effect(setup, st, o), Archive);
    LinksMind(setup, st, o, Resident);
    LinksMind(setup, st, o, Installed);
    if st.ctl == Installing(SwitchHome) {
      SwitchOwns(setup, st, o);
    } else {
      HomeStays(setup, st, o);
    }
    hide Effect;
    hide Minds;
    hide OwnLinks;
    hide Own;
  }

  lemma SwitchOwns(setup: Setup, st: Shell, o: Outcome)
    requires st.ctl == Installing(SwitchHome) && Links(Resident) !! st.files.Keys
    ensures OwnLinks(Effect(setup, st, o), Resident)
  {
    assert Link(Resident, RunnerFile) in Links(Resident) && Link(Resident, CredentialsFile) in Links(Resident)
        && Link(Resident, RSAFile) in Links(Resident);
  }

  lemma HomeStays(setup: Setup, st: Shell, o: Outcome)
    requires !st.ctl.Exited? && st.ctl != Installing(SwitchHome)
    ensures Effect(setup, st, o).home == st.home
  {
    WroteHome(st, ArchiveTmp, o.wrote);
    if st.ctl.Fetching? { WroteHome(st, JitTmp(st.ctl.cred), o.wrote); }
    UnpackedKeeps(st, o);
    hide Wrote;
    hide Unpacked;
    hide ResidentMatches;
  }

  lemma RemovedOwns(setup: Setup, st: Shell, o: Outcome)
    requires st.ctl == Installing(RemoveHome) && o.ok
    ensures OwnLinks(Effect(setup, st, o), Installed)
  {
  }

  lemma MatchLeavesLinks(setup: Setup, st: Shell, o: Outcome)
    requires !st.ctl.Exited? && Execute(setup, st, o).ctl == Installing(SwitchHome)
    ensures Links(Resident) !! Execute(setup, st, o).files.Keys
  {
    assert Pos(Installing(SwitchHome)) == 1;
    ExecuteFlows(setup, st, o);
    assert Pos(st.ctl) <= 1;
    if st.ctl == Installing(CheckResident) {
      assert ResidentMatches(setup, st.files) by { hide StartPost; }
      hide ResidentMatches;
    }
  }

  lemma OwnMoves(st: Shell, next: Shell)
    requires Moves(st, next) && !next.ctl.Exited?
    ensures next.home == st.home && next.files == st.files
    ensures Own(next, Archive) == Own(st, Archive)
    ensures OwnLinks(next, Installed) == OwnLinks(st, Installed) && OwnLinks(next, Resident) == OwnLinks(st, Resident)
  {
  }

  lemma ExecuteFresh(files: map<Path, Content>, setup: Setup, st: Shell, o: Outcome)
    requires Known(files, setup, st) && Fresh(st) && !st.ctl.Exited?
    ensures var next := Execute(setup, st, o); next.ctl.Exited? || Fresh(next)
  {
    var (body, next) := (Effect(setup, st, o), Execute(setup, st, o));
    if next.ctl.Exited? { return; }
    EnteredIs(files, setup, st);
    hide Known;
    EffectFresh(setup, st, o);
    ExecuteIsEffect(setup, st, o);
    OwnMoves(body, next);
    if next.ctl == Installing(SwitchHome) { MatchLeavesLinks(setup, st, o); }
    if ArchiveDue(next.ctl) { ArchiveComesDue(setup, st, o); }
    if HomeDue(next.ctl) && next.home.Installed? {
      SwitchedAway(setup, st, o);
      HomeComesDue(files, setup, st, o);
      if st.ctl == Installing(RemoveHome) && o.ok { RemovedOwns(setup, st, o); }
    }
    hide Execute;
    hide Effect;
    hide Moves;
    hide Entered;
    hide ArchiveDue;
    hide HomeDue;
    hide OwnLinks;
    hide Links;
  }

  lemma EnteredIs(files: map<Path, Content>, setup: Setup, st: Shell)
    requires Known(files, setup, st)
    ensures Entered(files, setup, st)
  {
    hide Contained;
    hide Ordered;
    hide Entered;
    hide TreeChecked;
    hide Supplied;
    hide Attended;
    hide Announced;
  }

  /** The program never goes back to its own home. */
  lemma SwitchedAway(setup: Setup, st: Shell, o: Outcome)
    requires !st.ctl.Exited? && Effect(setup, st, o).home.Installed?
    ensures st.home.Installed?
  {
    if st.ctl != Installing(SwitchHome) { HomeStays(setup, st, o); }
  }

  lemma LivedFresh(st: Shell, o: Outcome)
    requires Fresh(st)
    ensures Fresh(Lived(st, o))
  {
    hide ArchiveDue;
    hide HomeDue;
  }

  lemma {:induction false} RunFresh(files: map<Path, Content>, setup: Setup, oracle: nat -> Outcome, j: nat)
    ensures var st := State(files, setup, oracle, j); st.ctl.Exited? || Fresh(st)
  {
    hide Fresh;
    hide Known;
    if j == 0 { StateZero(files, setup, oracle); StartedFresh(files); return; }
    RunFresh(files, setup, oracle, j - 1);
    RunKnown(files, setup, oracle, 0, j - 1);
    NextState(files, setup, oracle, j - 1);
    var (st, o) := (State(files, setup, oracle, j - 1), oracle(j - 1));
    hide Run;
    hide Started;
    assert Known(files, setup, st);
    hide State;
    LivedStays(st, o);
    if st.ctl.Exited? || o.signal { hide Swept; return; }
    LivedFresh(st, o);
    LivedKnown(files, setup, st, o);
    hide Lived;
    ExecuteFresh(files, setup, Lived(st, o), o);
    hide Execute;
  }

  lemma StartedFresh(files: map<Path, Content>)
    ensures Fresh(Started(files))
  {
  }

  /** Over whole runs, whatever lay about at the start: what is unpacked is an archive this run moved into place, and what the
      runner starts with are links this run made or unpacked. */
  lemma NothingStaleIsUsed(files: map<Path, Content>, setup: Setup, oracle: nat -> Outcome, j: nat)
    ensures var st := State(files, setup, oracle, j);
            && (st.ctl == Installing(Extract) && Archive in st.files ==> Archive in st.made)
            && (st.ctl == Running(Launch) ==> Links(st.home) <= st.made)
  {
    RunFresh(files, setup, oracle, j);
    var st := State(files, setup, oracle, j);
    if st.ctl == Running(Launch) {
      LaunchIsGated(files, setup, oracle, j);
      hide State;
      AllLinked(files, setup, st);
    }
    hide State;
    hide Gate;
    hide OwnLinks;
  }

  lemma AllLinked(files: map<Path, Content>, setup: Setup, st: Shell)
    requires Gate(files, setup, st) && Fresh(st) && st.ctl == Running(Launch)
    ensures Links(st.home) <= st.made
  {
    assert Linked(st, RunnerFile) && Linked(st, CredentialsFile) && Linked(st, RSAFile);
    hide Usable;
    hide CurrentTree;
    hide Backed;
  }
}

/** When the runner is launched, what is reported when, how often anything is tried, and what a signal leaves running. */
module ShellGate {
  import opened Text
  import opened Shell
  import opened ShellSafety

  // ----- the order of events -----

  /** Where in the program text an event comes from. */
  function EventPos(e: Event): nat {
    match e
    case Post(site, _, _) => SitePos(site)
    case Fetch(cred, _, _) => CredPos(cred)
    case Download(_, _) => DOWNLOAD_POS
    case Matched => 0
    case Verified => DOWNLOAD_POS
    case MoveFailed(cred) => CredPos(cred)
    case Launched(_) => LAUNCH_POS
  }

  ghost predicate Sorted(log: seq<Event>) {
    forall i, j | 0 <= i < j < |log| :: EventPos(log[i]) <= EventPos(log[j])
  }

  /** The log is in program order and ends before the command about to run. */
  ghost predicate Ordered(st: Shell) {
    Sorted(st.log) && forall e | e in st.log :: EventPos(e) <= Pos(st.ctl)
  }

  /** A command adds at most one event, which comes from its own place. */
  predicate LogsOwn(st: Shell, body: Shell) {
    body.log == st.log || (|body.log| == |st.log| + 1 && st.log <= body.log && EventPos(body.log[|st.log|]) == Pos(st.ctl))
  }

  lemma EffectLogs(setup: Setup, st: Shell, o: Outcome)
    requires !st.ctl.Exited?
    ensures LogsOwn(st, Effect(setup, st, o))
  {
    hide ResidentMatches;
    hide Links;
    match st.ctl
    case Installing(step) =>
    case Posting(_, _) =>
    case Downing(step) => WroteLogs(st, ArchiveTmp, o.wrote);
    case Fetching(cred, step) => WroteLogs(st, JitTmp(cred), o.wrote);
    case Running(step) =>
    case _ =>
  }

  lemma WroteLogs(st: Shell, path: Path, wrote: Option<Content>)
    ensures Wrote(st, path, wrote).log == st.log
  {
  }

  lemma MovesLog(st: Shell, next: Shell)
    requires Moves(st, next)
    ensures next.log == st.log && next.home == st.home && next.pid == st.pid && next.child == st.child && next.tree == st.tree
    ensures !next.ctl.Exited? ==> next.files == st.files && next.made == st.made
  {
    hide Swept;
  }

  lemma ExecuteOrdered(setup: Setup, st: Shell, o: Outcome)
    requires Ordered(st) && !st.ctl.Exited?
    ensures Ordered(Execute(setup, st, o))
  {
    hide Execute;
    hide Effect;
    hide Moves;
    hide EventPos;
    hide Pos;
    EffectLogs(setup, st, o);
    ExecuteIsEffect(setup, st, o);
    MovesLog(Effect(setup, st, o), Execute(setup, st, o));
    PositionMoves(setup, st, o);
    var (log, more) := (st.log, Execute(setup, st, o).log);
    if more != log { assert more == log + [more[|log|]]; }
  }

  // ----- what lies behind a position -----

  /** How the program came by its tree: by a match of the resident one, or by a verified download. */
  ghost predicate Entered(files: map<Path, Content>, setup: Setup, st: Shell) {
    && (st.home.Resident? || st.ctl == Installing(SwitchHome) ==> Matched in st.log && ResidentMatches(setup, files))
    && (2 <= Pos(st.ctl) <= 3 ==> st.home.Resident?)
    && (st.home.Installed? && (7 <= Pos(st.ctl) < END_POS || st.ctl == Downing(DownMove)) ==> Verified in st.log)
  }

  lemma InstallEntered(files: map<Path, Content>, setup: Setup, st: Shell, step: InstallStep, o: Outcome)
    requires Contained(files, st) && Entered(files, setup, st) && st.ctl == Installing(step)
    ensures Entered(files, setup, Install(setup, st, step, o))
  {
    hide ResidentMatches;
    hide CurrentTree;
    hide Unpacked;
    hide Swept;
    hide Links;
    hide Base;
    InstallIsEffect(setup, st, step, o);
    MovesLog(InstallEffect(setup, st, step, o), Install(setup, st, step, o));
    InstallMoves(setup, st, step, o);
    InstallBranch(setup, st, step, o);
    UnpackedKeeps(st, o);
    hide Moves;
    hide Install;
  }

  lemma UnpackedKeeps(st: Shell, o: Outcome)
    ensures var next := Unpacked(st, o);
            next.home == st.home && next.log == st.log && next.pid == st.pid && next.child == st.child
  {
  }

  lemma PostEntered(files: map<Path, Content>, setup: Setup, st: Shell, o: Outcome)
    requires Entered(files, setup, st) && (st.ctl.Posting? || st.ctl.PostSleep?)
    ensures Entered(files, setup, Execute(setup, st, o))
  {
    hide ResidentMatches;
    hide Swept;
    ExecuteIsEffect(setup, st, o);
    MovesLog(Effect(setup, st, o), Execute(setup, st, o));
    PostBranch(setup, st, st.ctl.site, st.ctl.n, o);
    hide Moves;
    hide TryPost;
  }

  lemma ObtainBranch(setup: Setup, st: Shell, step: DownStep, o: Outcome)
    ensures var next := Obtain(setup, st, step, o).ctl;
            && (next == Downing(DownMove) ==> step.DownVerify? && o.matches)
            && (7 <= Pos(next) < END_POS ==> step == DownMove)
  {
    hide Removed;
    hide Created;
    hide Wrote;
  }

  lemma ObtainEntered(files: map<Path, Content>, setup: Setup, st: Shell, step: DownStep, o: Outcome)
    requires Entered(files, setup, st) && st.ctl == Downing(step)
    ensures Entered(files, setup, Obtain(setup, st, step, o))
  {
    hide ResidentMatches;
    hide Swept;
    hide Moves;
    hide Obtain;
    WroteLogs(st, ArchiveTmp, o.wrote);
    ObtainIsEffect(setup, st, step, o);
    ObtainMoves(setup, st, step, o);
    ObtainBranch(setup, st, step, o);
    MovesLog(ObtainEffect(st, step, o), Obtain(setup, st, step, o));
    WroteHome(st, ArchiveTmp, o.wrote);
    hide Wrote;
  }

  lemma WroteHome(st: Shell, path: Path, wrote: Option<Content>)
    ensures Wrote(st, path, wrote).home == st.home && Wrote(st, path, wrote).child == st.child
    ensures Wrote(st, path, wrote).pid == st.pid && Wrote(st, path, wrote).tree == st.tree
  {
  }

  lemma FetchEntered(files: map<Path, Content>, setup: Setup, st: Shell, o: Outcome)
    requires Entered(files, setup, st) && (st.ctl.Fetching? || st.ctl.Running?)
    ensures Entered(files, setup, Execute(setup, st, o))
  {
    hide ResidentMatches;
    hide Swept;
    hide Moves;
    hide Execute;
    hide Effect;
    ExecuteIsEffect(setup, st, o);
    EffectLogs(setup, st, o);
    LaterBranch(setup, st, o);
    MovesLog(Effect(setup, st, o), Execute(setup, st, o));
    LateEffectKeepsTree(setup, st, o);
    LaterPlace(setup, st, o);
  }

  lemma LaterPlace(setup: Setup, st: Shell, o: Outcome)
    requires st.ctl.Fetching? || st.ctl.Running?
    ensures !Execute(setup, st, o).ctl.Downing? && !Execute(setup, st, o).ctl.Installing?
  {
    LaterBranch(setup, st, o);
    hide Execute;
  }

  lemma ExecuteEntered(files: map<Path, Content>, setup: Setup, st: Shell, o: Outcome)
    requires Contained(files, st) && Entered(files, setup, st) && !st.ctl.Exited?
    ensures Entered(files, setup, Execute(setup, st, o))
  {
    hide Entered;
    hide Contained;
    match st.ctl {
      case Installing(step) => InstallEntered(files, setup, st, step, o);
      case Posting(_, _) => PostEntered(files, setup, st, o);
      case PostSleep(_, _) => PostEntered(files, setup, st, o);
      case Downing(step) => ObtainEntered(files, setup, st, step, o);
      case Fetching(_, _) => FetchEntered(files, setup, st, o);
      case Running(_) => FetchEntered(files, setup, st, o);
      case _ =>
    }
    hide Install;
    hide Obtain;
    hide TryPost;
    hide FetchOne;
    hide Operate;
  }

  // ----- the flow of control -----

  /** From which place to which other one control can pass: the program's flow chart. */
  predicate Follows(p: nat, q: nat) {
    || q == p || q == END_POS
    || (p == 0 && (q == 1 || q == 4)) || (p == 1 && q == 2) || (p == 2 && q == 3) || (p == 3 && q == 12)
    || (p == 4 && q == 5) || (p == 5 && (q == 6 || q == 7)) || (7 <= p <= 8 && q == p + 1)
    || (p == 9 && (q == 10 || q == 11)) || (p == 11 && q == 12) || (p == 12 && (q == 13 || q == 14))
    || (p == 14 && (q == 15 || q == 16)) || (p == 16 && q == 17) || (p == 17 && q == 18)
    || (p == 18 && (q == 19 || q == 20)) || (p == 20 && (q == 21 || q == 22)) || (p == 22 && (q == 23 || q == 24))
    || (24 <= p <= 29 && q == p + 1) || (p == 30 && (q == 31 || q == 33 || q == 35)) || (p == 31 && q == 32)
    || (p == 33 && (q == 34 || q == 35)) || (p == 34 && (q == 35 || q == 37)) || (p == 35 && q == 36)
    || (p == 37 && q == 38)
  }

  lemma PostedFlows(setup: Setup, st: Shell, site: Site, ok: bool)
    ensures var q := Pos(Posted(setup, st, site, ok).ctl);
            match site
            case UsingResident => q == if ok then 3 else END_POS
            case Downloading => q == if ok then 5 else END_POS
            case FetchingMetadata => q == if ok then 18 else END_POS
            case SystemInfo => q == 34 || q == 35
            case Idle => q == 35 || q == 37
            case _ => q == END_POS
  {
    hide Swept;
    hide Removed;
  }

  lemma StartFlows(setup: Setup, st: Shell, site: Site)
    ensures var q := Pos(StartPost(setup, st, site).ctl);
            q == SitePos(site) || q == END_POS || (site == SystemInfo && q == 35) || (site == Idle && q == 35)
  {
    hide Swept;
    hide Removed;
  }

  lemma InstallFlows(setup: Setup, st: Shell, step: InstallStep, o: Outcome)
    ensures Follows(InstallPos(step), Pos(Install(setup, st, step, o).ctl))
  {
    hide StartPost;
    hide ResidentMatches;
    hide CurrentTree;
    hide Removed;
    hide Unpacked;
    match step
    case CheckResident => StartFlows(setup, st, Downloading);
    case SwitchHome => StartFlows(setup, st.(home := Resident), UsingResident);
    case Extract => StartFlows(setup, Unpacked(st, o), ExtractFailed);
    case CheckTree => StartFlows(setup, st, TreeIncomplete);
    case CheckNode => StartFlows(setup, st, NodeMissing);
    case EnterHome => StartFlows(setup, st, FetchingMetadata);
    case _ =>
  }

  lemma TryFlows(setup: Setup, st: Shell, site: Site, n: nat, o: Outcome)
    ensures Follows(SitePos(site), Pos(TryPost(setup, st, site, n, o).ctl))
  {
    hide Posted;
    PostedFlows(setup, Logged(st, Post(site, n, o.ok)), site, o.ok);
  }

  lemma ObtainFlows(setup: Setup, st: Shell, step: DownStep, o: Outcome)
    ensures Follows(DOWNLOAD_POS, Pos(Obtain(setup, st, step, o).ctl))
  {
    hide Removed;
    hide Created;
    hide Wrote;
    hide StartPost;
    match step
    case DownClear => StartFlows(setup, Removed(st, {ArchiveTmp, Archive}), DownloadFailed);
    case DownDrop(_) => StartFlows(setup, Removed(st, {ArchiveTmp}), DownloadFailed);
    case _ =>
  }

  lemma FetchFlows(setup: Setup, st: Shell, cred: Cred, step: FetchStep, o: Outcome)
    ensures Follows(CredPos(cred), Pos(FetchOne(setup, st, cred, step, o).ctl))
  {
    hide Removed;
    hide Created;
    hide Wrote;
    hide StartPost;
    StartFlows(setup, Removed(st, {JitTmp(cred)}), FetchFailed(cred));
  }

  lemma OperateFlows(setup: Setup, st: Shell, step: RunStep, o: Outcome)
    ensures Follows(RunPos(step), Pos(Operate(setup, st, step, o).ctl))
  {
    hide StartPost;
    hide Removed;
    hide Created;
    StartFlows(setup, st, SystemInfo);
    StartFlows(setup, st, RunnerExited);
  }

  lemma ExecuteFlows(setup: Setup, st: Shell, o: Outcome)
    requires !st.ctl.Exited?
    ensures Follows(Pos(st.ctl), Pos(Execute(setup, st, o).ctl))
  {
    hide Install;
    hide TryPost;
    hide Obtain;
    hide FetchOne;
    hide Operate;
    hide Follows;
    match st.ctl {
      case Installing(step) => InstallFlows(setup, st, step, o);
      case Posting(site, n) => TryFlows(setup, st, site, n, o);
      case Downing(step) => ObtainFlows(setup, st, step, o);
      case Fetching(cred, step) => FetchFlows(setup, st, cred, step, o);
      case Running(step) => OperateFlows(setup, st, step, o);
      case PostSleep(site, n) => FollowsItself(SitePos(site));
      case _ =>
    }
  }

  lemma FollowsItself(p: nat)
    ensures Follows(p, p)
  {
  }

  // ----- the tree -----

  /** Past the checks, the current tree has the executables they looked for. */
  ghost predicate TreeChecked(setup: Setup, st: Shell) {
    && (14 <= Pos(st.ctl) < END_POS ==> CurrentTree(setup, st).runScript && CurrentTree(setup, st).listener)
    && (16 <= Pos(st.ctl) < END_POS ==> CurrentTree(setup, st).node)
  }

  lemma SameTree(setup: Setup, st: Shell, next: Shell)
    requires next.home == st.home && next.tree == st.tree
    ensures CurrentTree(setup, next) == CurrentTree(setup, st)
  {
  }

  lemma LateEffectKeepsTree(setup: Setup, st: Shell, o: Outcome)
    requires Pos(st.ctl) >= 12
    ensures Effect(setup, st, o).home == st.home && Effect(setup, st, o).tree == st.tree
  {
    if st.ctl.Fetching? { WroteHome(st, JitTmp(st.ctl.cred), o.wrote); }
    hide Wrote;
  }

  lemma ExecuteChecks(setup: Setup, st: Shell, o: Outcome)
    requires TreeChecked(setup, st) && !st.ctl.Exited?
    ensures TreeChecked(setup, Execute(setup, st, o))
  {
    hide Execute;
    hide Effect;
    hide Moves;
    hide CurrentTree;
    var next := Execute(setup, st, o);
    ExecuteFlows(setup, st, o);
    ExecuteIsEffect(setup, st, o);
    MovesLog(Effect(setup, st, o), next);
    if Pos(st.ctl) >= 12 {
      LateEffectKeepsTree(setup, st, o);
      SameTree(setup, st, next);
    }
    CheckedAtTheCheck(setup, st, o);
  }

  lemma CheckedAtTheCheck(setup: Setup, st: Shell, o: Outcome)
    ensures Pos(st.ctl) == 12 && Pos(Execute(setup, st, o).ctl) == 14 ==>
              CurrentTree(setup, st).runScript && CurrentTree(setup, st).listener
    ensures Pos(st.ctl) == 14 && Pos(Execute(setup, st, o).ctl) == 16 ==> CurrentTree(setup, st).node
  {
    hide CurrentTree;
    hide TryPost;
    hide Obtain;
    hide FetchOne;
    hide Operate;
    hide Swept;
  }

  // ----- credentials and links -----

  function FileAt(files: map<Path, Content>, path: Path): Option<Content> {
    if path in files then Some(files[path]) else None
  }

  predicate Linked(st: Shell, cred: Cred) {
    Link(st.home, cred) in st.files
  }

  predicate Reached(st: Shell, pos: nat) {
    pos <= Pos(st.ctl) < END_POS
  }

  /** What lies where a credential goes: what was there at the start until the program moves past its fetch, and also
      after that if the move into place is on record as failed; otherwise a file with something in it. */
  predicate Stored(files: map<Path, Content>, st: Shell, cred: Cred) {
    && (Pos(st.ctl) < CredPos(cred) + 2 ==> MoveFailed(cred) !in st.log)
    && FileAt(st.files, Jit(cred))
       == if Pos(st.ctl) < CredPos(cred) + 2 || MoveFailed(cred) in st.log then FileAt(files, Jit(cred)) else Some(Full)
  }

  /** What has been fetched and linked by the time a place is reached. */
  predicate Supplied(files: map<Path, Content>, st: Shell, cred: Cred) {
    && (Reached(st, 0) ==> Stored(files, st, cred))
    && (Reached(st, LinkPos(cred) + 1) ==> Linked(st, cred))
  }

  predicate MovesFile(st: Shell, cred: Cred) {
    st.ctl == Fetching(cred, FetchMove)
  }

  /** The effect of a command on one credential: a move puts its file in place or is on record as failed, and no other
      command touches either. */
  predicate Delivers(st: Shell, body: Shell, cred: Cred, o: Outcome) {
    && FileAt(body.files, Jit(cred)) == (if MovesFile(st, cred) && o.ok then Some(Full) else FileAt(st.files, Jit(cred)))
    && (MoveFailed(cred) in body.log <==> MoveFailed(cred) in st.log || (MovesFile(st, cred) && !o.ok))
  }

  lemma FetchDelivers(st: Shell, cred: Cred, step: FetchStep, o: Outcome, c: Cred)
    requires st.ctl == Fetching(cred, step)
    ensures Delivers(st, FetchEffect(st, cred, step, o), c, o)
  {
  }

  lemma ObtainDelivers(st: Shell, step: DownStep, o: Outcome, c: Cred)
    requires st.ctl == Downing(step)
    ensures Delivers(st, ObtainEffect(st, step, o), c, o)
  {
  }

  lemma InstallDelivers(setup: Setup, st: Shell, step: InstallStep, o: Outcome, c: Cred)
    requires st.ctl == Installing(step)
    ensures Delivers(st, InstallEffect(setup, st, step, o), c, o)
  {
    hide ResidentMatches;
    UnpackedElsewhere(st, o, Jit(c));
    UnpackedKeeps(st, o);
    hide Unpacked;
  }

  lemma UnpackedElsewhere(st: Shell, o: Outcome, path: Path)
    requires !path.Link?
    ensures FileAt(Unpacked(st, o).files, path) == FileAt(st.files, path)
  {
  }

  lemma OperateDelivers(st: Shell, step: RunStep, o: Outcome, c: Cred)
    requires st.ctl == Running(step)
    ensures Delivers(st, OperateEffect(st, step, o), c, o)
    ensures Linked(st, c) ==> Linked(OperateEffect(st, step, o), c)
  {
  }

  lemma EffectDelivers(setup: Setup, st: Shell, o: Outcome, c: Cred)
    requires !st.ctl.Exited?
    ensures Delivers(st, Effect(setup, st, o), c, o)
    ensures st.ctl.Running? || st.ctl.Posting? || st.ctl.PostSleep? ==> Linked(st, c) ==> Linked(Effect(setup, st, o), c)
  {
    match st.ctl {
      case Installing(step) => InstallDelivers(setup, st, step, o, c);
      case Downing(step) => ObtainDelivers(st, step, o, c);
      case Fetching(cred, step) => FetchDelivers(st, cred, step, o, c);
      case Running(step) => OperateDelivers(st, step, o, c);
      case _ =>
    }
    hide InstallEffect;
    hide ObtainEffect;
    hide FetchEffect;
    hide OperateEffect;
  }

  /** A fetch is left for what comes next by its move, and by nothing else. */
  lemma FetchLeaves(setup: Setup, st: Shell, cred: Cred, step: FetchStep, o: Outcome)
    ensures Pos(FetchOne(setup, st, cred, step, o).ctl) == CredPos(cred) + 2 <==> step == FetchMove
  {
    StartFlows(setup, Removed(st, {JitTmp(cred)}), FetchFailed(cred));
    hide StartPost;
    hide Removed;
    hide Created;
    hide Wrote;
  }

  lemma LinkDelivers(setup: Setup, st: Shell, cred: Cred, o: Outcome)
    ensures Operate(setup, st, MakeLink(cred), o).ctl.Exited? || Linked(OperateEffect(st, MakeLink(cred), o), cred)
  {
    hide Swept;
  }

  /** A command that takes the program past a place is the one that stands there. */
  lemma CrossesByMove(setup: Setup, st: Shell, o: Outcome, c: Cred)
    requires !st.ctl.Exited?
    ensures Pos(st.ctl) < CredPos(c) + 2 && Reached(Execute(setup, st, o), CredPos(c) + 2) <==>
              MovesFile(st, c) && !Execute(setup, st, o).ctl.Exited?
  {
    hide Execute;
    ExecuteFlows(setup, st, o);
    if st.ctl.Fetching? { FetchCrosses(setup, st, st.ctl.cred, st.ctl.fetch, o); }
    AtCredential(st.ctl, c);
    NotEnded(Execute(setup, st, o).ctl);
    hide Pos;
  }

  lemma NotEnded(ctl: Ctl)
    ensures Pos(ctl) < END_POS <==> !ctl.Exited?
  {
  }

  lemma AtCredential(ctl: Ctl, c: Cred)
    ensures Pos(ctl) == CredPos(c) <==> ctl.Fetching? && ctl.cred == c
  {
  }

  lemma FetchCrosses(setup: Setup, st: Shell, cred: Cred, step: FetchStep, o: Outcome)
    requires st.ctl == Fetching(cred, step)
    ensures Pos(Execute(setup, st, o).ctl) == CredPos(cred) + 2 <==> step == FetchMove
  {
    FetchLeaves(setup, st, cred, step, o);
    hide FetchOne;
  }

  lemma CrossesByLink(setup: Setup, st: Shell, o: Outcome, c: Cred)
    requires !st.ctl.Exited? && Pos(st.ctl) <= LinkPos(c) && Reached(Execute(setup, st, o), LinkPos(c) + 1)
    ensures Linked(Effect(setup, st, o), c)
  {
    hide Execute;
    ExecuteFlows(setup, st, o);
    AtLink(st.ctl, c);
    NotEnded(Execute(setup, st, o).ctl);
    hide Pos;
    assert st.ctl == Running(MakeLink(c));
    LinkCrosses(setup, st, o, c);
  }

  lemma AtLink(ctl: Ctl, c: Cred)
    ensures Pos(ctl) == LinkPos(c) <==> ctl == Running(MakeLink(c))
  {
  }

  lemma LinkCrosses(setup: Setup, st: Shell, o: Outcome, c: Cred)
    requires st.ctl == Running(MakeLink(c)) && !Execute(setup, st, o).ctl.Exited?
    ensures Linked(Effect(setup, st, o), c)
  {
    LinkDelivers(setup, st, c, o);
    hide Operate;
    hide OperateEffect;
  }

  lemma StoredMoves(files: map<Path, Content>, setup: Setup, st: Shell, body: Shell, next: Shell, o: Outcome, c: Cred)
    requires Stored(files, st, c) && Delivers(st, body, c, o) && next.files == body.files && next.log == body.log
    requires Pos(st.ctl) <= Pos(next.ctl)
    requires Pos(st.ctl) < CredPos(c) + 2 <= Pos(next.ctl) <==> MovesFile(st, c)
    ensures Stored(files, next, c)
  {
    AtCredential(st.ctl, c);
    hide Pos;
    hide CredPos;
    hide FileAt;
  }

  lemma ExecuteSupplies(files: map<Path, Content>, setup: Setup, st: Shell, o: Outcome, c: Cred)
    requires Supplied(files, st, c) && !st.ctl.Exited?
    ensures Supplied(files, Execute(setup, st, o), c)
  {
    hide Execute;
    hide Effect;
    hide Moves;
    hide Delivers;
    hide Linked;
    hide Stored;
    var (body, next) := (Effect(setup, st, o), Execute(setup, st, o));
    NotEnded(st.ctl);
    NotEnded(next.ctl);
    if !next.ctl.Exited? {
      ExecuteIsEffect(setup, st, o);
      MovesLog(body, next);
      PositionMoves(setup, st, o);
      EffectDelivers(setup, st, o, c);
      CrossesByMove(setup, st, o, c);
      StoredMoves(files, setup, st, body, next, o, c);
      if Reached(next, LinkPos(c) + 1) {
        if Pos(st.ctl) <= LinkPos(c) { CrossesByLink(setup, st, o, c); } else { PastLinks(st.ctl, c); }
        SameLinks(body, next, c);
      }
    }
    hide Pos;
  }

  lemma PastLinks(ctl: Ctl, c: Cred)
    requires LinkPos(c) < Pos(ctl) < END_POS
    ensures ctl.Running? || ctl.Posting? || ctl.PostSleep?
  {
  }

  lemma SameLinks(st: Shell, next: Shell, c: Cred)
    requires next.files == st.files && next.home == st.home
    ensures Linked(st, c) ==> Linked(next, c)
  {
  }

  // ----- the runner process -----

  ghost predicate SystemInfoTaken(log: seq<Event>) {
    exists n :: Post(SystemInfo, n, true) in log
  }

  /** Where the program stands with the runner. */
  ghost predicate Attended(st: Shell) {
    && (28 <= Pos(st.ctl) < END_POS ==> Launched(st.home) in st.log)
    && (Pos(st.ctl) == 34 || 37 <= Pos(st.ctl) < END_POS ==> SystemInfoTaken(st.log))
    && (Pos(st.ctl) < END_POS ==> (st.pid <==> 29 <= Pos(st.ctl)) && (st.child.Unborn? <==> Pos(st.ctl) <= 27))
    && (31 <= Pos(st.ctl) <= 32 || Pos(st.ctl) == 38 ==> st.child.Gone?)
  }

  lemma LogGrows(setup: Setup, st: Shell, o: Outcome)
    requires !st.ctl.Exited?
    ensures st.log <= Execute(setup, st, o).log
  {
    EffectLogs(setup, st, o);
    ExecuteIsEffect(setup, st, o);
    MovesLog(Effect(setup, st, o), Execute(setup, st, o));
    hide Execute;
    hide Effect;
  }

  lemma EarlierUnattended(setup: Setup, st: Shell, o: Outcome)
    requires st.ctl.Installing? || st.ctl.Downing? || st.ctl.Fetching?
    ensures var body := Effect(setup, st, o); body.pid == st.pid && body.child == st.child
  {
    UnpackedKeeps(st, o);
    if st.ctl.Fetching? { WroteHome(st, JitTmp(st.ctl.cred), o.wrote); }
    if st.ctl.Downing? { WroteHome(st, ArchiveTmp, o.wrote); }
    hide Unpacked;
    hide Wrote;
    hide ResidentMatches;
    hide Links;
  }

  lemma EarlierAttended(setup: Setup, st: Shell, o: Outcome)
    requires Attended(st) && (st.ctl.Installing? || st.ctl.Downing? || st.ctl.Fetching?)
    ensures Attended(Execute(setup, st, o))
  {
    hide Execute;
    hide Effect;
    hide Moves;
    EarlierUnattended(setup, st, o);
    ExecuteFlows(setup, st, o);
    ExecuteIsEffect(setup, st, o);
    MovesLog(Effect(setup, st, o), Execute(setup, st, o));
  }

  lemma PostingAttended(setup: Setup, st: Shell, o: Outcome)
    requires Attended(st) && (st.ctl.Posting? || st.ctl.PostSleep?)
    ensures Attended(Execute(setup, st, o))
  {
    hide Execute;
    hide Moves;
    ExecuteFlows(setup, st, o);
    ExecuteIsEffect(setup, st, o);
    MovesLog(Effect(setup, st, o), Execute(setup, st, o));
    InfoStays(setup, st, o);
    InfoReached(setup, st, o);
    hide SystemInfoTaken;
  }

  lemma InfoStays(setup: Setup, st: Shell, o: Outcome)
    requires !st.ctl.Exited?
    ensures SystemInfoTaken(st.log) ==> SystemInfoTaken(Execute(setup, st, o).log)
  {
    LogGrows(setup, st, o);
    hide Execute;
    if n :| Post(SystemInfo, n, true) in st.log {
      assert Post(SystemInfo, n, true) in Execute(setup, st, o).log;
    }
  }

  lemma InfoReached(setup: Setup, st: Shell, o: Outcome)
    requires st.ctl.Posting? || st.ctl.PostSleep?
    ensures Pos(st.ctl) == 33 && Pos(Execute(setup, st, o).ctl) == 34 ==> SystemInfoTaken(Execute(setup, st, o).log)
  {
    hide Swept;
    var log := Execute(setup, st, o).log;
    if st.ctl.Posting? && |log| > 0 {
      assert log[|log| - 1] in log;
      assert Post(SystemInfo, st.ctl.n, o.ok) in log || log[|log| - 1] != Post(SystemInfo, st.ctl.n, o.ok);
    }
  }

  lemma RunningAttended(setup: Setup, st: Shell, step: RunStep, o: Outcome)
    requires Attended(st) && st.ctl == Running(step)
    ensures Attended(Operate(setup, st, step, o))
  {
    hide Operate;
    hide Moves;
    hide Created;
    OperateFlows(setup, st, step, o);
    OperateMoves(setup, st, step, o);
    OperateIsEffect(setup, st, step, o);
    MovesLog(OperateEffect(st, step, o), Operate(setup, st, step, o));
    InfoStays(setup, st, o);
    LogGrows(setup, st, o);
    CreatedKeeps(st, o, step);
    ProbeBranch(setup, st, o);
    if step.Launch? { assert Operate(setup, st, step, o).log[|st.log|] == Launched(st.home); }
    hide SystemInfoTaken;
  }

  lemma CreatedKeeps(st: Shell, o: Outcome, step: RunStep)
    ensures step.MakeLink? ==>
              var body := OperateEffect(st, step, o);
              body.pid == st.pid && body.child == st.child && body.log == st.log && body.home == st.home
  {
  }

  lemma ProbeBranch(setup: Setup, st: Shell, o: Outcome)
    ensures Pos(Operate(setup, st, Probe, o).ctl) == 31 ==> !st.child.Alive?
  {
    StartFlows(setup, st, SystemInfo);
    hide StartPost;
  }

  lemma ExecuteAttended(setup: Setup, st: Shell, o: Outcome)
    requires Attended(st) && !st.ctl.Exited?
    ensures Attended(Execute(setup, st, o))
  {
    hide Attended;
    match st.ctl {
      case Installing(_) => EarlierAttended(setup, st, o);
      case Downing(_) => EarlierAttended(setup, st, o);
      case Fetching(_, _) => EarlierAttended(setup, st, o);
      case Posting(_, _) => PostingAttended(setup, st, o);
      case PostSleep(_, _) => PostingAttended(setup, st, o);
      case Running(step) => RunningAttended(setup, st, step, o);
      case _ =>
    }
    hide Install;
    hide Obtain;
    hide TryPost;
    hide FetchOne;
    hide Operate;
  }

  // ----- all of it, at every command -----

  /** Everything that is known where the program stands. */
  ghost predicate Known(files: map<Path, Content>, setup: Setup, st: Shell) {
    && Contained(files, st) && Ordered(st) && Entered(files, setup, st) && TreeChecked(setup, st)
    && Supplied(files, st, RunnerFile) && Supplied(files, st, CredentialsFile) && Supplied(files, st, RSAFile)
    && Attended(st) && Announced(st.log)
  }

  /** `idle` is not reported before the runner was launched and its system information accepted. */
  ghost predicate Announced(log: seq<Event>) {
    forall e | e in log :: e.Post? && e.site == Idle ==> SystemInfoTaken(log) && exists home :: Launched(home) in log
  }

  lemma ExecuteAnnounces(setup: Setup, st: Shell, o: Outcome)
    requires Attended(st) && Announced(st.log) && !st.ctl.Exited?
    ensures Announced(Execute(setup, st, o).log)
  {
    hide Execute;
    hide Effect;
    hide Moves;
    hide Announced;
    hide Attended;
    EffectLogs(setup, st, o);
    ExecuteIsEffect(setup, st, o);
    MovesLog(Effect(setup, st, o), Execute(setup, st, o));
    InfoStays(setup, st, o);
    LogGrows(setup, st, o);
    if Pos(st.ctl) == SitePos(Idle) { IdleAttended(st); }
    hide Pos;
    hide SitePos;
    MoreAnnounces(st, Execute(setup, st, o).log);
  }

  /** Where `idle` is posted, the runner was launched and its system information taken. */
  lemma IdleAttended(st: Shell)
    requires Attended(st) && Pos(st.ctl) == SitePos(Idle)
    ensures SystemInfoTaken(st.log) && Launched(st.home) in st.log
  {
    hide SystemInfoTaken;
  }

  lemma MoreAnnounces(st: Shell, more: seq<Event>)
    requires Announced(st.log) && st.log <= more && (SystemInfoTaken(st.log) ==> SystemInfoTaken(more))
    requires LogsOwn(st, st.(log := more))
    requires Pos(st.ctl) == SitePos(Idle) ==> SystemInfoTaken(st.log) && Launched(st.home) in st.log
    ensures Announced(more)
  {
    hide SystemInfoTaken;
    hide Pos;
    hide SitePos;
    var log := st.log;
    forall e | e in more && e.Post? && e.site == Idle
      ensures SystemInfoTaken(more) && exists home :: Launched(home) in more
    {
      if e in log {
        var home :| Launched(home) in log;
        assert Launched(home) in more;
      } else {
        assert e == more[|log|] && EventPos(e) == SitePos(Idle);
        assert Launched(st.home) in log;
        assert Launched(st.home) in more;
      }
    }
  }

  lemma ExecuteKnown(files: map<Path, Content>, setup: Setup, st: Shell, o: Outcome)
    requires Known(files, setup, st) && !st.ctl.Exited?
    ensures Known(files, setup, Execute(setup, st, o))
  {
    hide Execute;
    hide Contained;
    hide Ordered;
    hide Entered;
    hide TreeChecked;
    hide Supplied;
    hide Attended;
    hide Announced;
    ExecuteContained(files, setup, st, o);
    ExecuteOrdered(setup, st, o);
    ExecuteEntered(files, setup, st, o);
    ExecuteChecks(setup, st, o);
    ExecuteSupplies(files, setup, st, o, RunnerFile);
    ExecuteSupplies(files, setup, st, o, CredentialsFile);
    ExecuteSupplies(files, setup, st, o, RSAFile);
    ExecuteAttended(setup, st, o);
    ExecuteAnnounces(setup, st, o);
  }

  lemma LivedKnown(files: map<Path, Content>, setup: Setup, st: Shell, o: Outcome)
    requires Known(files, setup, st)
    ensures Known(files, setup, Lived(st, o))
  {
    LivedContained(files, st, o);
    hide Contained;
    hide Sorted;
    hide ResidentMatches;
    hide SystemInfoTaken;
    hide Announced;
  }

  lemma InterruptedKnown(files: map<Path, Content>, setup: Setup, st: Shell)
    requires Known(files, setup, st)
    ensures Known(files, setup, Interrupted(st))
  {
    InterruptedContained(files, st);
    hide Contained;
    hide Sorted;
    hide ResidentMatches;
    hide SystemInfoTaken;
    hide Announced;
    hide Swept;
  }

  lemma StepKnown(files: map<Path, Content>, setup: Setup, st: Shell, o: Outcome)
    requires Known(files, setup, st)
    ensures Known(files, setup, Step(setup, st, o))
  {
    hide Known;
    hide Execute;
    hide Interrupted;
    hide Lived;
    LivedKnown(files, setup, st, o);
    assert Lived(st, o).ctl == st.ctl by { LivedStays(st, o); }
    if !st.ctl.Exited? {
      if o.signal {
        InterruptedKnown(files, setup, Lived(st, o));
      } else {
        ExecuteKnown(files, setup, Lived(st, o), o);
      }
    }
  }

  lemma LivedStays(st: Shell, o: Outcome)
    ensures Lived(st, o).ctl == st.ctl && Lived(st, o).log == st.log && Lived(st, o).home == st.home
  {
  }

  lemma StartedKnown(files: map<Path, Content>, setup: Setup)
    ensures Known(files, setup, Started(files))
  {
    StartedContained(files);
    hide Contained;
    hide ResidentMatches;
  }

  /** At every command boundary of every run. */
  lemma {:induction false} RunKnown(files: map<Path, Content>, setup: Setup, oracle: nat -> Outcome, i: nat, j: nat)
    requires i <= j
    ensures Known(files, setup, Run(setup, Started(files), oracle, i, j))
  {
    hide Known;
    hide Step;
    hide Started;
    if i == j {
      StartedKnown(files, setup);
    } else {
      RunKnown(files, setup, oracle, i, j - 1);
      StepKnown(files, setup, Run(setup, Started(files), oracle, i, j - 1), oracle(j - 1));
    }
  }
}

/** With which code the program leaves, and why: every code is decided by one command that fails, by the runner's own
    end, or by a signal. */
module ShellExits {
  import opened Text
  import opened Shell
  import opened ShellSafety
  import opened ShellGate
  import opened ShellRuns

  // ----- the table -----

  /** The code a failing report or post stands for. */
  function CodeOf(site: Site): nat {
    match site
    case UsingResident => 20
    case Downloading => 20
    case DownloadFailed => 21
    case ExtractFailed => 22
    case TreeIncomplete => 23
    case NodeMissing => 24
    case FetchingMetadata => 25
    case FetchFailed(RunnerFile) => 26
    case FetchFailed(CredentialsFile) => 27
    case FetchFailed(RSAFile) => 28
    case RunnerExited => 29
    case SystemInfo => 30
    case Idle => 31
  }

  function CredCode(cred: Cred): nat {
    match cred case RunnerFile => 26 case CredentialsFile => 27 case RSAFile => 28
  }

  predicate Vital(site: Site) {
    site.UsingResident? || site.Downloading? || site.FetchingMetadata? || site.SystemInfo? || site.Idle?
  }

  function If(c: bool, code: nat): Option<nat> {
    if c then Some(code) else None
  }

  /** The runner tree in use. */
  function AtHand(setup: Setup, st: Shell): Tree {
    match (st.home, setup.resident)
    case (Resident, Some(tree)) => tree
    case _ => st.tree
  }

  /** The code that this command, with this outcome and no signal pending, decides the program will leave with; None if
      the program goes on. With an attempt limit of zero every loop fails before its first attempt. */
  function Verdict(setup: Setup, st: Shell, o: Outcome): Option<nat> {
    var never := setup.maxAttempts == 0;
    match st.ctl
    case Installing(CheckResident) => If(never && !Usable(setup, st.files), 20)
    case Installing(SwitchHome) => If(never, 20)
    case Installing(MakeJitDir) => If(!o.ok, 1)
    case Installing(RemoveHome) => If(!o.ok, 1)
    case Installing(MakeDirs) => If(!o.ok, 1)
    case Installing(Extract) => If(!o.ok || Archive !in st.files, 22)
    case Installing(RemoveArchive) => If(!o.ok, 1)
    case Installing(CheckTree) => If(!AtHand(setup, st).runScript || !AtHand(setup, st).listener, 23)
    case Installing(CheckNode) => If(!AtHand(setup, st).node, 24)
    case Installing(EnterHome) => if !o.ok then Some(1) else If(never, 25)
    case Posting(site, n) =>
      if o.ok then If(site == SystemInfo && never, 31) else If(Vital(site) && n >= setup.maxAttempts, CodeOf(site))
    case Downing(DownClear) => If(never, 21)
    case Downing(DownDrop(n)) => If(n >= setup.maxAttempts, 21)
    case Fetching(cred, FetchClear) => If(never, CredCode(cred))
    case Fetching(cred, FetchDrop(n)) => If(n >= setup.maxAttempts, CredCode(cred))
    case Running(MakeLink(cred)) => If(!o.ok || Link(st.home, cred) in st.files, 1)
    case Running(Probe) => if st.child.Alive? then If(never, 30) else Some(29)
    case Running(AwaitRunner) => Some(o.code)
    case _ => None
  }

  /** The code that is already decided where control stands: what is left is a report, a kill and the traps. */
  function Decided(ctl: Ctl): Option<nat> {
    match ctl
    case Posting(site, _) => If(!Vital(site), CodeOf(site))
    case PostSleep(site, _) => If(!Vital(site), CodeOf(site))
    case Running(Reap) => Some(29)
    case Running(KillRunner(code)) => Some(code)
    case Running(AwaitKilled(code)) => Some(code)
    case Running(ClearPid(code)) => Some(code)
    case Exited(code) => Some(code)
    case _ => None
  }

  lemma StartDecides(setup: Setup, st: Shell, site: Site)
    ensures Decided(StartPost(setup, st, site).ctl) == if Vital(site) then If(setup.maxAttempts == 0, CodeOf(site)) else Some(CodeOf(site))
  {
    hide Swept;
  }

  lemma PostedDecides(setup: Setup, st: Shell, site: Site, ok: bool)
    ensures Decided(Posted(setup, st, site, ok).ctl)
         == if !Vital(site) || !ok then Some(CodeOf(site)) else If(site == SystemInfo && setup.maxAttempts == 0, 31)
  {
    hide Swept;
  }

  lemma PostDecides(setup: Setup, st: Shell, site: Site, n: nat, o: Outcome)
    requires st.ctl == Posting(site, n)
    ensures Decided(TryPost(setup, st, site, n, o).ctl) == if Decided(st.ctl).Some? then Decided(st.ctl) else Verdict(setup, st, o)
  {
    PostedDecides(setup, Logged(st, Post(site, n, o.ok)), site, o.ok);
    hide Posted;
    hide CodeOf;
  }

  lemma CheckDecides(setup: Setup, st: Shell, o: Outcome)
    requires st.ctl == Installing(CheckResident) || st.ctl == Installing(SwitchHome)
    ensures Decided(Install(setup, st, st.ctl.install, o).ctl) == Verdict(setup, st, o)
  {
    MatchIsUsable(setup, st.files);
    hide StartPost;
    hide ResidentMatches;
    hide Usable;
    StartDecides(setup, st, Downloading);
    StartDecides(setup, st.(home := Resident), UsingResident);
  }

  lemma TreeDecides(setup: Setup, st: Shell, o: Outcome)
    requires st.ctl == Installing(CheckTree) || st.ctl == Installing(CheckNode)
    ensures Decided(Install(setup, st, st.ctl.install, o).ctl) == Verdict(setup, st, o)
  {
    assert AtHand(setup, st) == CurrentTree(setup, st);
    StartDecides(setup, st, TreeIncomplete);
    StartDecides(setup, st, NodeMissing);
    hide StartPost;
    hide CurrentTree;
    hide AtHand;
    hide Unpacked;
    hide Removed;
    hide Swept;
    hide CodeOf;
  }

  lemma EnterDecides(setup: Setup, st: Shell, o: Outcome)
    requires st.ctl == Installing(EnterHome)
    ensures Decided(Install(setup, st, EnterHome, o).ctl) == Verdict(setup, st, o)
  {
    StartDecides(setup, st, FetchingMetadata);
    hide StartPost;
    hide Swept;
  }

  lemma InstallDecides(setup: Setup, st: Shell, step: InstallStep, o: Outcome)
    requires st.ctl == Installing(step)
    ensures Decided(Install(setup, st, step, o).ctl) == Verdict(setup, st, o)
  {
    if step.CheckResident? || step.SwitchHome? { CheckDecides(setup, st, o); return; }
    if step.CheckTree? || step.CheckNode? { TreeDecides(setup, st, o); return; }
    if step.EnterHome? { EnterDecides(setup, st, o); return; }
    hide StartPost;
    hide CurrentTree;
    hide AtHand;
    hide Unpacked;
    hide Removed;
    hide Swept;
    StartDecides(setup, Unpacked(st, o), ExtractFailed);
  }

  lemma ObtainDecides(setup: Setup, st: Shell, step: DownStep, o: Outcome)
    requires st.ctl == Downing(step)
    ensures Decided(Obtain(setup, st, step, o).ctl) == Verdict(setup, st, o)
  {
    hide StartPost;
    hide Wrote;
    StartDecides(setup, Removed(st, {ArchiveTmp, Archive}), DownloadFailed);
    StartDecides(setup, Removed(st, {ArchiveTmp}), DownloadFailed);
    hide Removed;
    hide Created;
  }

  lemma FetchDecides(setup: Setup, st: Shell, cred: Cred, step: FetchStep, o: Outcome)
    requires st.ctl == Fetching(cred, step)
    ensures Decided(FetchOne(setup, st, cred, step, o).ctl) == Verdict(setup, st, o)
  {
    hide StartPost;
    hide Wrote;
    StartDecides(setup, Removed(st, {JitTmp(cred)}), FetchFailed(cred));
    hide Removed;
    hide Created;
  }

  lemma OperateDecides(setup: Setup, st: Shell, step: RunStep, o: Outcome)
    requires st.ctl == Running(step)
    ensures Decided(Operate(setup, st, step, o).ctl) == if Decided(st.ctl).Some? then Decided(st.ctl) else Verdict(setup, st, o)
  {
    hide StartPost;
    hide Swept;
    StartDecides(setup, st, SystemInfo);
    StartDecides(setup, st, RunnerExited);
  }

  /** One command: what is decided stays decided, and nothing else decides than what the table says. */
  lemma ExecuteDecides(setup: Setup, st: Shell, o: Outcome)
    requires !st.ctl.Exited?
    ensures Decided(Execute(setup, st, o).ctl) == if Decided(st.ctl).Some? then Decided(st.ctl) else Verdict(setup, st, o)
    ensures Verdict(setup, st, o).Some? ==> Decided(st.ctl).None?
  {
    match st.ctl
    case Installing(step) => InstallDecides(setup, st, step, o);
    case Posting(site, n) => PostDecides(setup, st, site, n, o);
    case Downing(step) => ObtainDecides(setup, st, step, o);
    case Fetching(cred, step) => FetchDecides(setup, st, cred, step, o);
    case Running(step) => OperateDecides(setup, st, step, o);
    case PostSleep(_, _) =>
    hide Install;
    hide TryPost;
    hide Obtain;
    hide FetchOne;
    hide Operate;
    hide CodeOf;
    hide Usable;
    hide AtHand;
  }

  // ----- over whole runs -----

  /** A loop of the program. */
  datatype Loop = PostLoop(site: Site) | DownLoop | FetchLoop(cred: Cred)

  /** Attempt `n` of a loop fails: curl does, or what it brought is missing, empty or not what was expected. */
  predicate Misses(ctl: Ctl, o: Outcome, loop: Loop, n: nat) {
    match loop
    case PostLoop(site) => ctl == Posting(site, n) && !o.ok
    case DownLoop =>
      (ctl == Downing(DownTry(n)) && !(o.ok && o.wrote.Some?)) || (ctl == Downing(DownVerify(n)) && !o.matches)
    case FetchLoop(cred) => ctl == Fetching(cred, FetchTry(n)) && !(o.ok && o.wrote == Some(Full))
  }

  /** The loop control is in, and how many of its attempts have failed by now. */
  function Failures(ctl: Ctl): Option<(Loop, nat)> {
    match ctl
    case Posting(site, n) => Some((PostLoop(site), if n == 0 then 0 else n - 1))
    case PostSleep(site, n) => Some((PostLoop(site), n))
    case Downing(DownTry(n)) => Some((DownLoop, if n == 0 then 0 else n - 1))
    case Downing(DownVerify(n)) => Some((DownLoop, if n == 0 then 0 else n - 1))
    case Downing(DownDrop(n)) => Some((DownLoop, n))
    case Downing(DownSleep(n)) => Some((DownLoop, n))
    case Fetching(cred, FetchTry(n)) => Some((FetchLoop(cred), if n == 0 then 0 else n - 1))
    case Fetching(cred, FetchDrop(n)) => Some((FetchLoop(cred), n))
    case Fetching(cred, FetchSleep(n)) => Some((FetchLoop(cred), n))
    case _ => None
  }

  /** A command keeps the count, or adds the attempt it has just made, or comes to a new loop. */
  predicate Tallies(ctl: Ctl, next: Ctl, o: Outcome) {
    match Failures(next)
    case None => true
    case Some((loop, count)) =>
      count == 0 || Failures(ctl) == Some((loop, count))
      || (Failures(ctl) == Some((loop, count - 1)) && Misses(ctl, o, loop, count))
  }

  lemma StartTallies(setup: Setup, ctl: Ctl, st: Shell, site: Site, ok: bool, o: Outcome)
    ensures Tallies(ctl, StartPost(setup, st, site).ctl, o) && Tallies(ctl, Posted(setup, st, site, ok).ctl, o)
  {
    hide Swept;
    hide Misses;
  }

  lemma ExecuteTallies(setup: Setup, st: Shell, o: Outcome)
    requires !st.ctl.Exited? && WithinLimit(setup, st.ctl)
    ensures Tallies(st.ctl, Execute(setup, st, o).ctl, o)
  {
    match st.ctl
    case Installing(step) => InstallTallies(setup, st, step, o);
    case Posting(site, n) => TryTallies(setup, st, site, n, o);
    case Downing(step) => ObtainTallies(setup, st, step, o);
    case Fetching(cred, step) => FetchTallies(setup, st, cred, step, o);
    case Running(step) => OperateTallies(setup, st, step, o);
    case PostSleep(_, _) =>
    hide Install;
    hide TryPost;
    hide Obtain;
    hide FetchOne;
    hide Operate;
  }

  lemma InstallTallies(setup: Setup, st: Shell, step: InstallStep, o: Outcome)
    ensures Tallies(Installing(step), Install(setup, st, step, o).ctl, o)
  {
    StartTallies(setup, Installing(step), st, Downloading, true, o);
    StartTallies(setup, Installing(step), st.(home := Resident), UsingResident, true, o);
    StartTallies(setup, Installing(step), Unpacked(st, o), ExtractFailed, true, o);
    StartTallies(setup, Installing(step), st, TreeIncomplete, true, o);
    StartTallies(setup, Installing(step), st, NodeMissing, true, o);
    StartTallies(setup, Installing(step), st, FetchingMetadata, true, o);
    hide StartPost;
    hide Unpacked;
    hide ResidentMatches;
    hide CurrentTree;
    hide Removed;
    hide Misses;
  }

  lemma TryTallies(setup: Setup, st: Shell, site: Site, n: nat, o: Outcome)
    requires WithinLimit(setup, Posting(site, n))
    ensures Tallies(Posting(site, n), TryPost(setup, st, site, n, o).ctl, o)
  {
    StartTallies(setup, Posting(site, n), Logged(st, Post(site, n, o.ok)), site, o.ok, o);
    hide Posted;
  }

  lemma ObtainTallies(setup: Setup, st: Shell, step: DownStep, o: Outcome)
    requires WithinLimit(setup, Downing(step))
    ensures Tallies(Downing(step), Obtain(setup, st, step, o).ctl, o)
  {
    StartTallies(setup, Downing(step), Removed(st, {ArchiveTmp, Archive}), DownloadFailed, true, o);
    StartTallies(setup, Downing(step), Removed(st, {ArchiveTmp}), DownloadFailed, true, o);
    hide StartPost;
    hide Removed;
    hide Created;
    hide Wrote;
  }

  lemma FetchTallies(setup: Setup, st: Shell, cred: Cred, step: FetchStep, o: Outcome)
    requires WithinLimit(setup, Fetching(cred, step))
    ensures Tallies(Fetching(cred, step), FetchOne(setup, st, cred, step, o).ctl, o)
  {
    StartTallies(setup, Fetching(cred, step), Removed(st, {JitTmp(cred)}), FetchFailed(cred), true, o);
    hide StartPost;
    hide Removed;
    hide Created;
    hide Wrote;
  }

  lemma OperateTallies(setup: Setup, st: Shell, step: RunStep, o: Outcome)
    ensures Tallies(Running(step), Operate(setup, st, step, o).ctl, o)
  {
    StartTallies(setup, Running(step), st, SystemInfo, true, o);
    StartTallies(setup, Running(step), st, RunnerExited, true, o);
    hide StartPost;
    hide Swept;
  }

  /** Attempt `n` of a loop was made before command `j`, and failed. */
  ghost predicate Missed(files: map<Path, Content>, setup: Setup, oracle: nat -> Outcome, j: nat, loop: Loop, n: nat) {
    exists k | 0 <= k < j :: !oracle(k).signal && Misses(State(files, setup, oracle, k).ctl, oracle(k), loop, n)
  }

  /** The first `count` attempts of a loop were made and failed. */
  ghost predicate AllMissed(files: map<Path, Content>, setup: Setup, oracle: nat -> Outcome, j: nat, loop: Loop, count: nat) {
    forall n | 1 <= n <= count :: Missed(files, setup, oracle, j, loop, n)
  }

  lemma MissedLater(files: map<Path, Content>, setup: Setup, oracle: nat -> Outcome, j: nat, loop: Loop, n: nat)
    requires Missed(files, setup, oracle, j, loop, n)
    ensures Missed(files, setup, oracle, j + 1, loop, n)
  {
    var k :| 0 <= k < j && !oracle(k).signal && Misses(State(files, setup, oracle, k).ctl, oracle(k), loop, n);
    assert 0 <= k < j + 1;
    hide State;
    hide Misses;
  }

  /** Wherever control is in a loop, as many attempts of it have failed as its counter says. */
  lemma {:induction false} LoopsCount(files: map<Path, Content>, setup: Setup, oracle: nat -> Outcome, j: nat)
    ensures Counted(files, setup, oracle, j, Failures(State(files, setup, oracle, j).ctl))
  {
    hide Counted;
    if j == 0 { StateZero(files, setup, oracle); NoneCounted(files, setup, oracle, 0); return; }
    LoopsCount(files, setup, oracle, j - 1);
    NextState(files, setup, oracle, j - 1);
    ProgramEnds(files, setup, oracle, j - 1);
    var (st, o) := (State(files, setup, oracle, j - 1), oracle(j - 1));
    hide State;
    LivedStays(st, o);
    hide Lived;
    hide Failures;
    NoneCounted(files, setup, oracle, j);
    if st.ctl.Exited? || o.signal { NothingCounts(setup, st, o); return; }
    ExecuteTallies(setup, Lived(st, o), o);
    hide Execute;
    hide WithinLimit;
    hide Tallies;
    hide Left;
    TallyCounts(files, setup, oracle, j);
  }

  ghost predicate Counted(files: map<Path, Content>, setup: Setup, oracle: nat -> Outcome, j: nat, failures: Option<(Loop, nat)>) {
    failures.Some? ==> AllMissed(files, setup, oracle, j, failures.value.0, failures.value.1)
  }

  lemma NoneCounted(files: map<Path, Content>, setup: Setup, oracle: nat -> Outcome, j: nat)
    ensures Counted(files, setup, oracle, j, None)
  {
  }

  lemma NothingCounts(setup: Setup, st: Shell, o: Outcome)
    requires st.ctl.Exited? || o.signal
    ensures Failures(Step(setup, st, o).ctl) == None
  {
    hide Swept;
  }

  lemma TallyCounts(files: map<Path, Content>, setup: Setup, oracle: nat -> Outcome, j: nat)
    requires j > 0 && !oracle(j - 1).signal
    requires Tallies(State(files, setup, oracle, j - 1).ctl, State(files, setup, oracle, j).ctl, oracle(j - 1))
    requires Counted(files, setup, oracle, j - 1, Failures(State(files, setup, oracle, j - 1).ctl))
    ensures Counted(files, setup, oracle, j, Failures(State(files, setup, oracle, j).ctl))
  {
    hide State;
    hide Misses;
    match Failures(State(files, setup, oracle, j).ctl)
    case None =>
    case Some((loop, count)) => OneMoreMissed(files, setup, oracle, j, loop, count);
    hide Failures;
    hide AllMissed;
  }

  lemma OneMoreMissed(files: map<Path, Content>, setup: Setup, oracle: nat -> Outcome, j: nat, loop: Loop, count: nat)
    requires j > 0 && !oracle(j - 1).signal
    requires || count == 0 || AllMissed(files, setup, oracle, j - 1, loop, count)
             || (AllMissed(files, setup, oracle, j - 1, loop, count - 1)
                 && Misses(State(files, setup, oracle, j - 1).ctl, oracle(j - 1), loop, count))
    ensures AllMissed(files, setup, oracle, j, loop, count)
  {
    hide State;
    hide Misses;
    forall n | 1 <= n <= count ensures Missed(files, setup, oracle, j, loop, n) {
      if Missed(files, setup, oracle, j - 1, loop, n) { MissedLater(files, setup, oracle, j - 1, loop, n); }
    }
  }

  /** Command `k` runs, no signal stops it, and it decides that the program leaves with `code`. */
  ghost predicate Decides(files: map<Path, Content>, setup: Setup, oracle: nat -> Outcome, k: nat, code: nat) {
    !oracle(k).signal && Verdict(setup, Lived(State(files, setup, oracle, k), oracle(k)), oracle(k)) == Some(code)
  }

  /** If it was the last attempt of a loop that failed at command `k`, so had all the others. */
  ghost predicate AllTried(files: map<Path, Content>, setup: Setup, oracle: nat -> Outcome, k: nat) {
    match State(files, setup, oracle, k).ctl
    case Posting(site, n) => !oracle(k).ok ==> AllMissed(files, setup, oracle, k + 1, PostLoop(site), setup.maxAttempts)
    case Downing(DownDrop(_)) => AllMissed(files, setup, oracle, k, DownLoop, setup.maxAttempts)
    case Fetching(cred, FetchDrop(_)) => AllMissed(files, setup, oracle, k, FetchLoop(cred), setup.maxAttempts)
    case _ => true
  }

  ghost predicate Quiet(oracle: nat -> Outcome, i: nat, j: nat) {
    forall k | i <= k < j :: !oracle(k).signal
  }

  lemma StepDecides(files: map<Path, Content>, setup: Setup, oracle: nat -> Outcome, j: nat)
    ensures var (now, next) := (State(files, setup, oracle, j).ctl, State(files, setup, oracle, j + 1).ctl);
            if now.Exited? then next == now
            else if oracle(j).signal then next == Exited(143)
            else if Decided(now).Some? then Decided(next) == Decided(now)
            else forall code: nat :: Decided(next) == Some(code) <==> Decides(files, setup, oracle, j, code)
  {
    NextState(files, setup, oracle, j);
    var (st, o) := (State(files, setup, oracle, j), oracle(j));
    hide State;
    LivedStays(st, o);
    if st.ctl.Exited? { return; }
    if o.signal { hide Swept; return; }
    hide Lived;
    ExecuteDecides(setup, Lived(st, o), o);
    hide Execute;
    hide Verdict;
  }

  lemma {:induction false} StaysDecided(files: map<Path, Content>, setup: Setup, oracle: nat -> Outcome, i: nat, j: nat)
    requires i <= j && Quiet(oracle, i, j) && Decided(State(files, setup, oracle, i).ctl).Some?
    ensures Decided(State(files, setup, oracle, j).ctl) == Decided(State(files, setup, oracle, i).ctl)
  {
    hide State;
    hide Decides;
    if i < j {
      StaysDecided(files, setup, oracle, i, j - 1);
      StepDecides(files, setup, oracle, j - 1);
    }
  }

  lemma VerdictBeforeExit(setup: Setup, st: Shell, o: Outcome)
    requires Verdict(setup, Lived(st, o), o).Some?
    ensures !st.ctl.Exited? && Decided(st.ctl).None?
  {
    LivedStays(st, o);
    hide Lived;
    hide Usable;
    hide AtHand;
    if !st.ctl.Exited? { ExecuteDecides(setup, Lived(st, o), o); }
    hide Execute;
    hide Decided;
    hide CodeOf;
  }

  /** From failure to code: once a command has decided how the program ends and no signal comes any more, it leaves with
      that code, however the reports it still makes are received. */
  lemma FailureGivesCode(files: map<Path, Content>, setup: Setup, oracle: nat -> Outcome, k: nat, code: nat, j: nat)
    requires Decides(files, setup, oracle, k, code) && Quiet(oracle, k, j)
    requires j > k && State(files, setup, oracle, j).ctl.Exited?
    ensures State(files, setup, oracle, j).ctl == Exited(code)
  {
    VerdictBeforeExit(setup, State(files, setup, oracle, k), oracle(k));
    StepDecides(files, setup, oracle, k);
    hide State;
    hide Verdict;
    StaysDecided(files, setup, oracle, k + 1, j);
    hide Decides;
  }

  /** The code was decided by command `k`, and no signal came from then on until the program had left. */
  ghost predicate Blames(files: map<Path, Content>, setup: Setup, oracle: nat -> Outcome, k: nat, j: nat, code: nat) {
    Decides(files, setup, oracle, k, code) && AllTried(files, setup, oracle, k) && Quiet(oracle, k, j)
  }

  lemma DecidersTriedAll(files: map<Path, Content>, setup: Setup, oracle: nat -> Outcome, k: nat, code: nat)
    requires Decides(files, setup, oracle, k, code)
    ensures AllTried(files, setup, oracle, k)
  {
    LoopsCount(files, setup, oracle, k);
    ProgramEnds(files, setup, oracle, k);
    var (st, o) := (State(files, setup, oracle, k), oracle(k));
    LivedStays(st, o);
    hide Lived;
    hide Usable;
    hide AtHand;
    hide CodeOf;
    hide Left;
    if st.ctl.Posting? && !o.ok {
      var (site, n) := (st.ctl.site, st.ctl.n);
      assert n == setup.maxAttempts;
      OneMoreMissed(files, setup, oracle, k + 1, PostLoop(site), n);
    }
    hide State;
    hide Missed;
  }

  lemma NewlyDecided(files: map<Path, Content>, setup: Setup, oracle: nat -> Outcome, j: nat, code: nat)
    requires Decides(files, setup, oracle, j, code)
    ensures Blames(files, setup, oracle, j, j + 1, code)
  {
    hide State;
    hide Verdict;
    DecidersTriedAll(files, setup, oracle, j, code);
    hide AllTried;
  }

  lemma StillBlamed(files: map<Path, Content>, setup: Setup, oracle: nat -> Outcome, k: nat, j: nat, code: nat)
    requires k <= j && Blames(files, setup, oracle, k, j, code) && !oracle(j).signal
    ensures Blames(files, setup, oracle, k, j + 1, code)
  {
    hide Decides;
    hide AllTried;
  }

  /** What is decided at some point was decided by one command before it. */
  lemma {:induction false} DecidedByOne(files: map<Path, Content>, setup: Setup, oracle: nat -> Outcome, j: nat, code: nat)
    requires Decided(State(files, setup, oracle, j).ctl) == Some(code)
    requires j > 0 && !oracle(j - 1).signal && !State(files, setup, oracle, j - 1).ctl.Exited?
    ensures exists k | 0 <= k < j :: Blames(files, setup, oracle, k, j, code)
  {
    var ctl := State(files, setup, oracle, j - 1).ctl;
    StepDecides(files, setup, oracle, j - 1);
    if Decided(ctl).None? {
      hide State;
      hide Decides;
      NewlyDecided(files, setup, oracle, j - 1, code);
      hide Blames;
      return;
    }
    EarlierUndisturbed(files, setup, oracle, j - 1);
    hide State;
    hide Decides;
    DecidedByOne(files, setup, oracle, j - 1, code);
    var k :| 0 <= k < j - 1 && Blames(files, setup, oracle, k, j - 1, code);
    StillBlamed(files, setup, oracle, k, j - 1, code);
    hide Blames;
  }

  /** Control is at a place where something is decided only after an undisturbed command. */
  lemma EarlierUndisturbed(files: map<Path, Content>, setup: Setup, oracle: nat -> Outcome, j: nat)
    requires !State(files, setup, oracle, j).ctl.Exited? && Decided(State(files, setup, oracle, j).ctl).Some?
    ensures j > 0 && !oracle(j - 1).signal && !State(files, setup, oracle, j - 1).ctl.Exited?
  {
    StateZero(files, setup, oracle);
    assert Decided(Started(files).ctl) == None;
    if j > 0 { StepDecides(files, setup, oracle, j - 1); }
    hide State;
    hide Decides;
  }

  /** From code to failure: whenever the program leaves, a signal was pending and the code is 143, or one command, with no
      signal from then on, has decided that code by failing; and if that command was in a loop, every attempt of the loop
      was made and failed. */
  lemma CodeTellsFailure(files: map<Path, Content>, setup: Setup, oracle: nat -> Outcome, j: nat, code: nat)
    requires j > 0 && !State(files, setup, oracle, j - 1).ctl.Exited? && State(files, setup, oracle, j).ctl == Exited(code)
    ensures if oracle(j - 1).signal then code == 143
            else exists k | 0 <= k < j :: Blames(files, setup, oracle, k, j, code)
  {
    StepDecides(files, setup, oracle, j - 1);
    hide State;
    hide Decides;
    if !oracle(j - 1).signal { DecidedByOne(files, setup, oracle, j, code); }
    hide Blames;
  }

  /** Awaited without a signal in between, the runner's code is the program's. */
  lemma RunnersCodeIsReturned(files: map<Path, Content>, setup: Setup, oracle: nat -> Outcome, k: nat)
    requires State(files, setup, oracle, k).ctl == Running(AwaitRunner) && !oracle(k).signal && !oracle(k + 1).signal
    ensures State(files, setup, oracle, k + 2).ctl == Exited(oracle(k).code)
  {
    NextState(files, setup, oracle, k);
    NextState(files, setup, oracle, k + 1);
    hide State;
    hide Swept;
  }

  // ----- what the loops let through -----

  /** The command before hands something on: curl brought a file that is not empty, or an archive, or the checksum matched. */
  predicate HandsOn(ctl: Ctl, o: Outcome, next: Ctl) {
    match next
    case Fetching(cred, FetchMove) =>
      ctl.Fetching? && ctl.cred == cred && ctl.fetch.FetchTry? && o.ok && o.wrote == Some(Full)
    case Downing(DownVerify(n)) => ctl == Downing(DownTry(n)) && o.ok && o.wrote.Some?
    case Downing(DownMove) => ctl.Downing? && ctl.down.DownVerify? && o.matches
    case _ => true
  }

  lemma StartHandsNothing(setup: Setup, st: Shell, site: Site, ok: bool, ctl: Ctl, o: Outcome)
    ensures HandsOn(ctl, o, StartPost(setup, st, site).ctl) && HandsOn(ctl, o, Posted(setup, st, site, ok).ctl)
  {
    hide Swept;
  }

  lemma ExecuteHandsOn(setup: Setup, st: Shell, o: Outcome)
    requires !st.ctl.Exited?
    ensures HandsOn(st.ctl, o, Execute(setup, st, o).ctl)
  {
    match st.ctl
    case Installing(step) => InstallHandsNothing(setup, st, step, o);
    case Posting(site, n) => StartHandsNothing(setup, Logged(st, Post(site, n, o.ok)), site, o.ok, st.ctl, o);
    case Downing(step) => ObtainHandsOn(setup, st, step, o);
    case Fetching(cred, step) => FetchHandsOn(setup, st, cred, step, o);
    case Running(step) => OperateHandsNothing(setup, st, step, o);
    case PostSleep(_, _) =>
    hide Install;
    hide Posted;
    hide Obtain;
    hide FetchOne;
    hide Operate;
  }

  lemma InstallHandsNothing(setup: Setup, st: Shell, step: InstallStep, o: Outcome)
    ensures HandsOn(Installing(step), o, Install(setup, st, step, o).ctl)
  {
    StartHandsNothing(setup, st, Downloading, true, Installing(step), o);
    StartHandsNothing(setup, st.(home := Resident), UsingResident, true, Installing(step), o);
    StartHandsNothing(setup, Unpacked(st, o), ExtractFailed, true, Installing(step), o);
    StartHandsNothing(setup, st, TreeIncomplete, true, Installing(step), o);
    StartHandsNothing(setup, st, NodeMissing, true, Installing(step), o);
    StartHandsNothing(setup, st, FetchingMetadata, true, Installing(step), o);
    hide StartPost;
    hide Unpacked;
    hide ResidentMatches;
    hide CurrentTree;
    hide Removed;
  }

  lemma ObtainHandsOn(setup: Setup, st: Shell, step: DownStep, o: Outcome)
    ensures HandsOn(Downing(step), o, Obtain(setup, st, step, o).ctl)
  {
    StartHandsNothing(setup, Removed(st, {ArchiveTmp, Archive}), DownloadFailed, true, Downing(step), o);
    StartHandsNothing(setup, Removed(st, {ArchiveTmp}), DownloadFailed, true, Downing(step), o);
    hide StartPost;
    hide Removed;
    hide Created;
    hide Wrote;
  }

  lemma FetchHandsOn(setup: Setup, st: Shell, cred: Cred, step: FetchStep, o: Outcome)
    ensures HandsOn(Fetching(cred, step), o, FetchOne(setup, st, cred, step, o).ctl)
  {
    StartHandsNothing(setup, Removed(st, {JitTmp(cred)}), FetchFailed(cred), true, Fetching(cred, step), o);
    hide StartPost;
    hide Removed;
    hide Created;
    hide Wrote;
  }

  lemma OperateHandsNothing(setup: Setup, st: Shell, step: RunStep, o: Outcome)
    ensures HandsOn(Running(step), o, Operate(setup, st, step, o).ctl)
  {
    StartHandsNothing(setup, st, SystemInfo, true, Running(step), o);
    StartHandsNothing(setup, st, RunnerExited, true, Running(step), o);
    hide StartPost;
    hide Swept;
  }

  /** Over whole runs: a credential is moved into place only right after curl brought a file with something in it, a checksum
      is taken only of what curl has just brought, and an archive is moved into place only right after its checksum matched. */
  lemma OnlyGoodMovesOn(files: map<Path, Content>, setup: Setup, oracle: nat -> Outcome, j: nat)
    ensures var ctl := State(files, setup, oracle, j).ctl;
            (ctl.Fetching? && ctl.fetch.FetchMove?) || (ctl.Downing? && (ctl.down.DownVerify? || ctl.down.DownMove?)) ==>
              j > 0 && !oracle(j - 1).signal && HandsOn(State(files, setup, oracle, j - 1).ctl, oracle(j - 1), ctl)
  {
    if j == 0 { StateZero(files, setup, oracle); return; }
    NextState(files, setup, oracle, j - 1);
    var (st, o) := (State(files, setup, oracle, j - 1), oracle(j - 1));
    hide State;
    LivedStays(st, o);
    if st.ctl.Exited? || o.signal { LeavesPlainly(setup, st, o); return; }
    hide Lived;
    ExecuteHandsOn(setup, Lived(st, o), o);
    hide Execute;
    hide HandsOn;
  }

  lemma LeavesPlainly(setup: Setup, st: Shell, o: Outcome)
    requires st.ctl.Exited? || o.signal
    ensures Step(setup, st, o).ctl.Exited?
  {
    hide Swept;
  }
}

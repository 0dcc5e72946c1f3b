/** What the bootstrap program promises over whole runs. */
module ShellRuns {
  import opened Text
  import opened Shell
  import opened ShellSafety
  import opened ShellGate

  /** The run's state at its j-th command boundary. */
  function State(files: map<Path, Content>, setup: Setup, oracle: nat -> Outcome, j: nat): Shell {
    Run(setup, Started(files), oracle, 0, j)
  }

  // ----- launch gating -----

  /** Behind the link of a credential lies a file with something in it. */
  predicate Backed(files: map<Path, Content>, cred: Cred) {
    FileAt(files, Jit(cred)) == Some(Full)
  }

  /** The image brought along a complete tree of exactly the expected version, writable and without credentials in it. */
  predicate Usable(setup: Setup, files: map<Path, Content>) {
    && setup.resident == Some(Tree(true, true, true)) && setup.writable
    && setup.expected.Some? && setup.actual.Some? && setup.actual.value == setup.expected.value
    && Link(Resident, RunnerFile) !in files && Link(Resident, CredentialsFile) !in files && Link(Resident, RSAFile) !in files
  }

  lemma MatchIsUsable(setup: Setup, files: map<Path, Content>)
    ensures ResidentMatches(setup, files) <==> Usable(setup, files)
  {
  }

  /** What must hold when `run.sh` is about to start. */
  ghost predicate Gate(files: map<Path, Content>, setup: Setup, st: Shell) {
    && (if st.home.Resident? then Matched in st.log && Usable(setup, files) else Verified in st.log)
    && CurrentTree(setup, st) == Tree(true, true, true)
    && forall cred :: Linked(st, cred) && (Backed(st.files, cred) <==> MoveFailed(cred) !in st.log || Backed(files, cred))
  }

  /** `run.sh` starts only from a resident tree that matched exactly, or after this run's download passed its checksum;
      from a complete tree; and with all three credentials linked. Behind a link lies a non-empty file if and only if
      moving it into place did not fail, or one lay there before the program started. */
  lemma LaunchIsGated(files: map<Path, Content>, setup: Setup, oracle: nat -> Outcome, j: nat)
    requires State(files, setup, oracle, j).ctl == Running(Launch)
    ensures Gate(files, setup, State(files, setup, oracle, j))
  {
    hide Run;
    hide Started;
    RunKnown(files, setup, oracle, 0, j);
    GatedByPosition(files, setup, State(files, setup, oracle, j));
    hide Known;
  }

  lemma GatedByPosition(files: map<Path, Content>, setup: Setup, st: Shell)
    requires Known(files, setup, st) && st.ctl == Running(Launch)
    ensures Gate(files, setup, st)
  {
    MatchIsUsable(setup, files);
    hide Contained;
    hide Ordered;
    hide ResidentMatches;
    hide Usable;
    hide Attended;
    hide Announced;
    hide Supplied;
    forall cred
      ensures Linked(st, cred) && (Backed(st.files, cred) <==> MoveFailed(cred) !in st.log || Backed(files, cred))
    {
      assert Supplied(files, st, cred) by { match cred case RunnerFile => case CredentialsFile => case RSAFile => }
      SuppliedAtLaunch(files, st, cred);
    }
  }

  lemma SuppliedAtLaunch(files: map<Path, Content>, st: Shell, cred: Cred)
    requires Supplied(files, st, cred) && st.ctl == Running(Launch)
    ensures Linked(st, cred) && (Backed(st.files, cred) <==> MoveFailed(cred) !in st.log || Backed(files, cred))
  {
    hide FileAt;
  }

  /** The resident tree is used exactly when it is usable, unless a signal comes before the check. */
  lemma ResidentUsedExactly(files: map<Path, Content>, setup: Setup, oracle: nat -> Outcome, j: nat)
    requires j > 0 && !oracle(0).signal
    ensures Matched in State(files, setup, oracle, j).log <==> Usable(setup, files)
  {
    StateZero(files, setup, oracle);
    NextState(files, setup, oracle, 0);
    MatchIsUsable(setup, files);
    assert Matched in State(files, setup, oracle, 1).log <==> Usable(setup, files) by {
      CheckMatches(setup, Started(files), oracle(0));
      hide State;
      hide Step;
      hide Usable;
      hide ResidentMatches;
    }
    hide Step;
    hide Usable;
    hide ResidentMatches;
    MatchedAtOnce(files, setup, oracle, j);
    hide State;
  }

  lemma CheckMatches(setup: Setup, st: Shell, o: Outcome)
    requires st.ctl == Installing(CheckResident) && st.log == [] && !o.signal
    ensures Matched in Step(setup, st, o).log <==> ResidentMatches(setup, st.files)
    ensures Pos(Step(setup, st, o).ctl) > 0
  {
    LivedStays(st, o);
    var lived := Lived(st, o);
    assert lived.files == st.files;
    PostedMoves(setup, lived, Downloading, true);
    MovesLog(lived, StartPost(setup, lived, Downloading));
    InstallMoves(setup, lived, CheckResident, o);
    hide Lived;
    hide Moves;
    hide StartPost;
    hide ResidentMatches;
    hide Quit;
    hide Pos;
  }

  lemma {:induction false} MatchedAtOnce(files: map<Path, Content>, setup: Setup, oracle: nat -> Outcome, j: nat)
    requires j > 0 && !oracle(0).signal
    ensures Pos(State(files, setup, oracle, j).ctl) > 0
    ensures Matched in State(files, setup, oracle, j).log <==> Matched in State(files, setup, oracle, 1).log
  {
    if j == 1 {
      StateZero(files, setup, oracle);
      NextState(files, setup, oracle, 0);
      CheckMatches(setup, Started(files), oracle(0));
      hide State;
      hide Step;
      return;
    }
    MatchedAtOnce(files, setup, oracle, j - 1);
    NextState(files, setup, oracle, j - 1);
    MatchesNoMore(setup, State(files, setup, oracle, j - 1), oracle(j - 1));
    hide State;
    hide Step;
  }

  lemma MatchesNoMore(setup: Setup, st: Shell, o: Outcome)
    requires Pos(st.ctl) > 0
    ensures Pos(Step(setup, st, o).ctl) > 0
    ensures Matched in Step(setup, st, o).log <==> Matched in st.log
  {
    LivedStays(st, o);
    if !st.ctl.Exited? && !o.signal {
      var lived := Lived(st, o);
      PositionMoves(setup, lived, o);
      ExecuteIsEffect(setup, lived, o);
      EffectLogs(setup, lived, o);
      MovesLog(Effect(setup, lived, o), Execute(setup, lived, o));
      var next := Execute(setup, lived, o);
      if |next.log| > |st.log| {
        assert next.log == st.log + [next.log[|st.log|]];
        assert EventPos(Matched) == 0;
      }
    }
    hide Effect;
    hide Execute;
    hide Lived;
    hide Swept;
  }

  /** Every launch on record was made at that command. */
  lemma {:induction false} LaunchedFromThere(files: map<Path, Content>, setup: Setup, oracle: nat -> Outcome, j: nat, home: Home)
    requires Launched(home) in State(files, setup, oracle, j).log
    ensures exists k :: 0 <= k < j && State(files, setup, oracle, k).ctl == Running(Launch)
                        && State(files, setup, oracle, k).home == home && !oracle(k).signal
  {
    hide Step;
    if j > 0 {
      var k := j - 1;
      if Launched(home) in State(files, setup, oracle, k).log {
        LaunchedFromThere(files, setup, oracle, k, home);
      } else {
        LaunchStep(setup, State(files, setup, oracle, k), oracle(k), home);
      }
    }
  }

  lemma LaunchStep(setup: Setup, st: Shell, o: Outcome, home: Home)
    requires Launched(home) !in st.log && Launched(home) in Step(setup, st, o).log
    ensures st.ctl == Running(Launch) && st.home == home && !o.signal
  {
    LivedStays(st, o);
    if !st.ctl.Exited? && !o.signal {
      OnlyLaunchLaunches(setup, Lived(st, o), o, home);
    }
    hide Execute;
    hide Swept;
  }

  lemma OnlyLaunchLaunches(setup: Setup, st: Shell, o: Outcome, home: Home)
    requires !st.ctl.Exited? && Launched(home) !in st.log && Launched(home) in Execute(setup, st, o).log
    ensures st.ctl == Running(Launch) && st.home == home
  {
    hide Execute;
    hide Effect;
    hide Moves;
    ExecuteIsEffect(setup, st, o);
    MovesLog(Effect(setup, st, o), Execute(setup, st, o));
    EffectLogs(setup, st, o);
    var (log, more) := (st.log, Execute(setup, st, o).log);
    assert Launched(home) == more[|log|];
    OnlyLaunchThere(st.ctl);
    LaunchNames(setup, st, o);
  }

  lemma OnlyLaunchThere(ctl: Ctl)
    ensures Pos(ctl) == LAUNCH_POS <==> ctl == Running(Launch)
  {
  }

  lemma LaunchNames(setup: Setup, st: Shell, o: Outcome)
    ensures st.ctl == Running(Launch) ==> Effect(setup, st, o).log == st.log + [Launched(st.home)]
  {
  }

  // ----- a launch with nothing behind a link -----

  const WITNESS_SETUP := Setup(1, Some(Tree(true, true, true)), true, Some("2.337.0"), Some("2.337.0"))

  /** Everything goes well at command `k`, but for the move of one credential. */
  function AllButTheMove(cred: Cred): nat -> Outcome {
    k => Outcome(false, k != MoveTime(cred), Some(Full), true, Tree(true, true, true), {}, false, 0)
  }

  function MoveTime(cred: Cred): nat {
    match cred case RunnerFile => 10 case CredentialsFile => 13 case RSAFile => 16
  }

  /** The program has its home and its way to the credentials, none of which is linked yet. */
  predicate OnItsWay(st: Shell, ctl: Ctl) {
    st.home.Resident? && Links(Resident) !! st.files.Keys && st.ctl == ctl
  }

  lemma NextState(files: map<Path, Content>, setup: Setup, oracle: nat -> Outcome, j: nat)
    ensures State(files, setup, oracle, j + 1) == Step(setup, State(files, setup, oracle, j), oracle(j))
  {
    hide Step;
  }

  /** Where a command that goes well leads on the way to the credentials. */
  function OnwardsFrom(ctl: Ctl): Ctl {
    match ctl
    case Posting(UsingResident, _) => Installing(MakeJitDir)
    case Installing(MakeJitDir) => Installing(CheckTree)
    case Installing(CheckTree) => Installing(CheckNode)
    case Installing(CheckNode) => Installing(EnterHome)
    case Installing(EnterHome) => Posting(FetchingMetadata, 1)
    case Posting(FetchingMetadata, _) => Fetching(RunnerFile, FetchClear)
    case _ => ctl
  }

  lemma Onwards(st: Shell, ctl: Ctl, o: Outcome)
    requires OnItsWay(st, ctl) && OnwardsFrom(ctl) != ctl && !o.signal && o.ok
    ensures OnItsWay(Step(WITNESS_SETUP, st, o), OnwardsFrom(ctl))
  {
    hide Swept;
    hide Obtain;
    hide FetchOne;
    hide Operate;
    hide ResidentMatches;
  }

  lemma FirstSteps(first: Outcome, second: Outcome)
    requires !first.signal && !second.signal
    ensures OnItsWay(Step(WITNESS_SETUP, Step(WITNESS_SETUP, Started(map[]), first), second), Posting(UsingResident, 1))
  {
    hide Swept;
    hide Obtain;
    hide FetchOne;
    hide Operate;
  }

  lemma OnwardsAt(oracle: nat -> Outcome, ctl: Ctl, k: nat)
    requires OnItsWay(State(map[], WITNESS_SETUP, oracle, k), ctl) && OnwardsFrom(ctl) != ctl
    requires !oracle(k).signal && oracle(k).ok
    ensures OnItsWay(State(map[], WITNESS_SETUP, oracle, k + 1), OnwardsFrom(ctl))
  {
    hide Step;
    hide State;
    hide OnItsWay;
    NextState(map[], WITNESS_SETUP, oracle, k);
    Onwards(State(map[], WITNESS_SETUP, oracle, k), ctl, oracle(k));
  }

  lemma ReachMetadata(oracle: nat -> Outcome)
    requires forall k | 0 <= k < 8 :: !oracle(k).signal && oracle(k).ok
    ensures OnItsWay(State(map[], WITNESS_SETUP, oracle, 8), Fetching(RunnerFile, FetchClear))
  {
    hide Step;
    hide OnItsWay;
    hide WITNESS_SETUP;
    StateZero(map[], WITNESS_SETUP, oracle);
    NextState(map[], WITNESS_SETUP, oracle, 0);
    NextState(map[], WITNESS_SETUP, oracle, 1);
    FirstSteps(oracle(0), oracle(1));
    hide State;
    OnwardsAt(oracle, Posting(UsingResident, 1), 2);
    OnwardsAt(oracle, Installing(MakeJitDir), 3);
    OnwardsAt(oracle, Installing(CheckTree), 4);
    OnwardsAt(oracle, Installing(CheckNode), 5);
    OnwardsAt(oracle, Installing(EnterHome), 6);
    OnwardsAt(oracle, Posting(FetchingMetadata, 1), 7);
  }

  lemma StateZero(files: map<Path, Content>, setup: Setup, oracle: nat -> Outcome)
    ensures State(files, setup, oracle, 0) == Started(files)
  {
  }

  lemma ClearPasses(st: Shell, cred: Cred, o: Outcome)
    requires OnItsWay(st, Fetching(cred, FetchClear)) && !o.signal
    ensures var next := Step(WITNESS_SETUP, st, o); OnItsWay(next, Fetching(cred, FetchTry(1))) && next.log == st.log
  {
    hide Swept;
  }

  lemma CurlPasses(st: Shell, cred: Cred, o: Outcome)
    requires OnItsWay(st, Fetching(cred, FetchTry(1))) && !o.signal && o.ok && o.wrote == Some(Full)
    ensures var next := Step(WITNESS_SETUP, st, o);
            OnItsWay(next, Fetching(cred, FetchMove)) && next.log == st.log + [Fetch(cred, 1, true)]
  {
    hide Swept;
  }

  lemma MovePasses(st: Shell, cred: Cred, o: Outcome)
    requires OnItsWay(st, Fetching(cred, FetchMove)) && !o.signal
    ensures var next := Step(WITNESS_SETUP, st, o);
            && OnItsWay(next, AfterFetch(cred))
            && next.log == if o.ok then st.log else st.log + [MoveFailed(cred)]
  {
    hide Swept;
  }

  function AfterFetch(cred: Cred): Ctl {
    match cred
    case RunnerFile => Fetching(CredentialsFile, FetchClear)
    case CredentialsFile => Fetching(RSAFile, FetchClear)
    case RSAFile => Running(MakeLink(RunnerFile))
  }

  lemma FetchTimes(oracle: nat -> Outcome, cred: Cred, k: nat)
    requires OnItsWay(State(map[], WITNESS_SETUP, oracle, k), Fetching(cred, FetchClear))
    requires forall i | k <= i < k + 3 :: !oracle(i).signal
    requires oracle(k + 1).ok && oracle(k + 1).wrote == Some(Full)
    ensures OnItsWay(State(map[], WITNESS_SETUP, oracle, k + 3), AfterFetch(cred))
    ensures State(map[], WITNESS_SETUP, oracle, k).log <= State(map[], WITNESS_SETUP, oracle, k + 3).log
    ensures oracle(k + 2).ok || MoveFailed(cred) in State(map[], WITNESS_SETUP, oracle, k + 3).log
  {
    hide State;
    hide Step;
    hide OnItsWay;
    NextState(map[], WITNESS_SETUP, oracle, k);
    NextState(map[], WITNESS_SETUP, oracle, k + 1);
    NextState(map[], WITNESS_SETUP, oracle, k + 2);
    ClearPasses(State(map[], WITNESS_SETUP, oracle, k), cred, oracle(k));
    CurlPasses(State(map[], WITNESS_SETUP, oracle, k + 1), cred, oracle(k + 1));
    MovePasses(State(map[], WITNESS_SETUP, oracle, k + 2), cred, oracle(k + 2));
  }

  lemma LinkPasses(st: Shell, cred: Cred, o: Outcome)
    requires st.ctl == Running(MakeLink(cred)) && Link(st.home, cred) !in st.files && !o.signal && o.ok
    ensures var next := Step(WITNESS_SETUP, st, o);
            && next.home == st.home && next.log == st.log && next.files.Keys == st.files.Keys + {Link(st.home, cred)}
            && next.ctl == Running(match cred case RunnerFile => MakeLink(CredentialsFile)
                                              case CredentialsFile => MakeLink(RSAFile) case RSAFile => Launch)
  {
    hide Swept;
  }

  lemma LinksPass(st: Shell, first: Outcome, second: Outcome, third: Outcome)
    requires OnItsWay(st, Running(MakeLink(RunnerFile)))
    requires !first.signal && !second.signal && !third.signal && first.ok && second.ok && third.ok
    ensures var next := Step(WITNESS_SETUP, Step(WITNESS_SETUP, Step(WITNESS_SETUP, st, first), second), third);
            next.ctl == Running(Launch) && next.log == st.log
  {
    hide Step;
    var one := Step(WITNESS_SETUP, st, first);
    LinkPasses(st, RunnerFile, first);
    LinkPasses(one, CredentialsFile, second);
    LinkPasses(Step(WITNESS_SETUP, one, second), RSAFile, third);
  }

  lemma ReachLaunch(oracle: nat -> Outcome)
    requires forall k | 0 <= k < 20 :: !oracle(k).signal && oracle(k).wrote == Some(Full)
    requires forall k | 0 <= k < 20 && k !in {10, 13, 16} :: oracle(k).ok
    ensures var st := State(map[], WITNESS_SETUP, oracle, 20);
            st.ctl == Running(Launch) && forall cred :: !oracle(MoveTime(cred)).ok ==> MoveFailed(cred) in st.log
  {
    hide State;
    hide OnItsWay;
    hide Step;
    hide WITNESS_SETUP;
    ReachMetadata(oracle);
    FetchTimes(oracle, RunnerFile, 8);
    FetchTimes(oracle, CredentialsFile, 11);
    FetchTimes(oracle, RSAFile, 14);
    NextState(map[], WITNESS_SETUP, oracle, 17);
    NextState(map[], WITNESS_SETUP, oracle, 18);
    NextState(map[], WITNESS_SETUP, oracle, 19);
    LinksPass(State(map[], WITNESS_SETUP, oracle, 17), oracle(17), oracle(18), oracle(19));
  }

  /** A failed move is not noticed: for each credential there is a run, from an empty directory, in which nothing else
      goes wrong and which comes to the launch with nothing behind that credential's link. */
  lemma FailedMoveStillLaunches(cred: Cred)
    ensures var st := State(map[], WITNESS_SETUP, AllButTheMove(cred), 20);
            st.ctl == Running(Launch) && Linked(st, cred) && !Backed(st.files, cred)
  {
    ReachLaunch(AllButTheMove(cred));
    hide State;
    hide Backed;
    hide WITNESS_SETUP;
    LaunchIsGated(map[], WITNESS_SETUP, AllButTheMove(cred), 20);
    NothingYet(cred);
    hide AllButTheMove;
  }

  lemma NothingYet(cred: Cred)
    ensures !Backed(map[], cred)
  {
  }

  // ----- reporting -----

  lemma {:induction false} LogOrdered(files: map<Path, Content>, setup: Setup, oracle: nat -> Outcome, j: nat)
    ensures Sorted(State(files, setup, oracle, j).log) && Announced(State(files, setup, oracle, j).log)
  {
    hide Run;
    hide Started;
    hide Sorted;
    hide Announced;
    RunKnown(files, setup, oracle, 0, j);
    hide Contained;
    hide Entered;
    hide Supplied;
    hide Attended;
  }

  /** `idle` is sent only after a launch and after a post of the system information that was accepted, and no failure is
      reported after it. */
  lemma IdleComesLast(files: map<Path, Content>, setup: Setup, oracle: nat -> Outcome, j: nat, i: nat)
    requires var log := State(files, setup, oracle, j).log; i < |log| && log[i].Post? && log[i].site == Idle
    ensures var log := State(files, setup, oracle, j).log;
            && (exists a :: 0 <= a < i && log[a].Launched?)
            && (exists b :: 0 <= b < i && log[b].Post? && log[b].site == SystemInfo && log[b].ok)
            && forall k | i < k < |log| :: log[k].Post? ==> !ReportsFailure(log[k].site)
  {
    hide State;
    LogOrdered(files, setup, oracle, j);
    IdleInOrder(State(files, setup, oracle, j).log, i);
    hide Sorted;
    hide Announced;
  }

  lemma IdleInOrder(log: seq<Event>, i: nat)
    requires Sorted(log) && Announced(log) && i < |log| && log[i].Post? && log[i].site == Idle
    ensures exists a :: 0 <= a < i && log[a].Launched?
    ensures exists b :: 0 <= b < i && log[b].Post? && log[b].site == SystemInfo && log[b].ok
    ensures forall k | i < k < |log| :: log[k].Post? ==> !ReportsFailure(log[k].site)
  {
    assert log[i] in log;
    var home :| Launched(home) in log;
    var a :| 0 <= a < |log| && log[a] == Launched(home);
    var n :| Post(SystemInfo, n, true) in log;
    var b :| 0 <= b < |log| && log[b] == Post(SystemInfo, n, true);
    assert EventPos(log[i]) == 34 && EventPos(log[a]) == LAUNCH_POS && EventPos(log[b]) == 33;
    assert a < i && b < i;
    forall k | i < k < |log| && log[k].Post?
      ensures !ReportsFailure(log[k].site)
    {
      assert EventPos(log[i]) <= EventPos(log[k]);
    }
  }

  // ----- retries -----

  /** An attempt's loop, told by its place, and its number. */
  function Attempt(e: Event): Option<nat> {
    match e
    case Post(_, n, _) => Some(n)
    case Fetch(_, n, _) => Some(n)
    case Download(n, _) => Some(n)
    case _ => None
  }

  /** The number the loop at the current place will give its next attempt. */
  function NextAttempt(setup: Setup, ctl: Ctl): nat {
    match ctl
    case Posting(_, n) => n
    case PostSleep(_, n) => n + 1
    case Downing(step) =>
      (match step
       case DownClear => 1
       case DownTry(n) => n
       case DownVerify(n) => n + 1
       case DownDrop(n) => n + 1
       case DownSleep(n) => n + 1
       case DownMove => setup.maxAttempts + 1)
    case Fetching(_, step) =>
      (match step
       case FetchClear => 1
       case FetchTry(n) => n
       case FetchDrop(n) => n + 1
       case FetchSleep(n) => n + 1
       case FetchMove => setup.maxAttempts + 1)
    case _ => setup.maxAttempts + 1
  }

  /** The loop counter of a command in a loop stays within the limit. */
  predicate WithinLimit(setup: Setup, ctl: Ctl) {
    match ctl
    case Posting(_, n) => 1 <= n <= setup.maxAttempts
    case PostSleep(_, n) => 1 <= n < setup.maxAttempts
    case Downing(step) =>
      (match step
       case DownTry(n) => 1 <= n <= setup.maxAttempts
       case DownVerify(n) => 1 <= n <= setup.maxAttempts
       case DownDrop(n) => 1 <= n <= setup.maxAttempts
       case DownSleep(n) => 1 <= n < setup.maxAttempts
       case _ => true)
    case Fetching(_, step) =>
      (match step
       case FetchTry(n) => 1 <= n <= setup.maxAttempts
       case FetchDrop(n) => 1 <= n <= setup.maxAttempts
       case FetchSleep(n) => 1 <= n < setup.maxAttempts
       case _ => true)
    case _ => true
  }

  /** One command against the loop counters: the loop is left for a later place with its counter in range, or goes on
      with a counter that has moved past any attempt just made. */
  predicate Counts(setup: Setup, ctl: Ctl, next: Ctl, made: Option<nat>) {
    && WithinLimit(setup, next)
    && (made.Some? ==> made.value == NextAttempt(setup, ctl) && 1 <= made.value <= setup.maxAttempts)
    && (Pos(next) > Pos(ctl) || NextAttempt(setup, next) >= NextAttempt(setup, ctl) + (if made.Some? then 1 else 0))
  }

  /** The attempt a command makes, if it makes one. */
  function Makes(ctl: Ctl): Option<nat> {
    match ctl
    case Posting(_, n) => Some(n)
    case Downing(DownTry(n)) => Some(n)
    case Fetching(_, FetchTry(n)) => Some(n)
    case _ => None
  }

  lemma PostedWithin(setup: Setup, st: Shell, site: Site, ok: bool)
    ensures WithinLimit(setup, Posted(setup, st, site, ok).ctl) && WithinLimit(setup, StartPost(setup, st, site).ctl)
  {
    hide Swept;
  }

  lemma InstallCounts(setup: Setup, st: Shell, step: InstallStep, o: Outcome)
    ensures Counts(setup, Installing(step), Install(setup, st, step, o).ctl, None)
  {
    InstallMoves(setup, st, step, o);
    hide StartPost;
    hide ResidentMatches;
    hide CurrentTree;
    hide Removed;
    hide Unpacked;
    hide InstallPos;
    match step
    case CheckResident => PostedWithin(setup, st, Downloading, true);
    case SwitchHome => PostedWithin(setup, st.(home := Resident), UsingResident, true);
    case Extract => PostedWithin(setup, Unpacked(st, o), ExtractFailed, true);
    case CheckTree => PostedWithin(setup, st, TreeIncomplete, true);
    case CheckNode => PostedWithin(setup, st, NodeMissing, true);
    case EnterHome => PostedWithin(setup, st, FetchingMetadata, true);
    case _ =>
  }

  lemma TryCounts(setup: Setup, st: Shell, site: Site, n: nat, o: Outcome)
    requires WithinLimit(setup, Posting(site, n))
    ensures Counts(setup, Posting(site, n), TryPost(setup, st, site, n, o).ctl, Some(n))
  {
    hide Posted;
    var posted := Logged(st, Post(site, n, o.ok));
    PostedWithin(setup, posted, site, o.ok);
    PostedPos(setup, posted, site, o.ok);
  }

  lemma ObtainCounts(setup: Setup, st: Shell, step: DownStep, o: Outcome)
    requires WithinLimit(setup, Downing(step))
    ensures Counts(setup, Downing(step), Obtain(setup, st, step, o).ctl, Makes(Downing(step)))
  {
    hide Removed;
    hide Created;
    hide Wrote;
    hide StartPost;
    match step
    case DownClear =>
      PostedWithin(setup, Removed(st, {ArchiveTmp, Archive}), DownloadFailed, true);
      DownloadedPos(setup, Removed(st, {ArchiveTmp, Archive}), false);
    case DownDrop(_) =>
      PostedWithin(setup, Removed(st, {ArchiveTmp}), DownloadFailed, true);
      DownloadedPos(setup, Removed(st, {ArchiveTmp}), false);
    case _ =>
  }

  lemma FetchCounts(setup: Setup, st: Shell, cred: Cred, step: FetchStep, o: Outcome)
    requires WithinLimit(setup, Fetching(cred, step))
    ensures Counts(setup, Fetching(cred, step), FetchOne(setup, st, cred, step, o).ctl, Makes(Fetching(cred, step)))
  {
    hide Removed;
    hide Created;
    hide Wrote;
    hide StartPost;
    PostedWithin(setup, Removed(st, {JitTmp(cred)}), FetchFailed(cred), true);
    FetchedPos(setup, Removed(st, {JitTmp(cred)}), cred, false);
  }

  lemma OperateCounts(setup: Setup, st: Shell, step: RunStep, o: Outcome)
    ensures Counts(setup, Running(step), Operate(setup, st, step, o).ctl, None)
  {
    OperateMoves(setup, st, step, o);
    hide StartPost;
    hide Removed;
    hide Created;
    hide RunPos;
    PostedWithin(setup, st, SystemInfo, true);
    PostedWithin(setup, st, RunnerExited, true);
  }

  lemma ExecuteCounts(setup: Setup, st: Shell, o: Outcome)
    requires WithinLimit(setup, st.ctl) && !st.ctl.Exited?
    ensures Counts(setup, st.ctl, Execute(setup, st, o).ctl, Makes(st.ctl))
  {
    hide Install;
    hide TryPost;
    hide Obtain;
    hide FetchOne;
    hide Operate;
    match st.ctl {
      case Installing(step) => InstallCounts(setup, st, step, o);
      case Posting(site, n) => TryCounts(setup, st, site, n, o);
      case PostSleep(site, n) =>
      case Downing(step) => ObtainCounts(setup, st, step, o);
      case Fetching(cred, step) => FetchCounts(setup, st, cred, step, o);
      case Running(step) => OperateCounts(setup, st, step, o);
      case _ =>
    }
  }

  /** The attempts on record are numbered upwards within each loop, from 1 to at most the limit. */
  ghost predicate Numbered(setup: Setup, st: Shell) {
    && WithinLimit(setup, st.ctl)
    && Limited(setup, st.log)
    && forall e | e in st.log && EventPos(e) == Pos(st.ctl) && Attempt(e).Some? :: Attempt(e).value < NextAttempt(setup, st.ctl)
  }

  ghost predicate Limited(setup: Setup, log: seq<Event>) {
    && (forall e | e in log && Attempt(e).Some? :: 1 <= Attempt(e).value <= setup.maxAttempts)
    && forall i, j | 0 <= i < j < |log| && EventPos(log[i]) == EventPos(log[j]) && Attempt(log[i]).Some? && Attempt(log[j]).Some? ::
         Attempt(log[i]).value < Attempt(log[j]).value
  }

  /** The event a command adds records the attempt it makes. */
  lemma EffectAttempts(setup: Setup, st: Shell, o: Outcome)
    requires !st.ctl.Exited?
    ensures var body := Effect(setup, st, o);
            |body.log| > |st.log| ==> Attempt(body.log[|st.log|]) == Makes(st.ctl)
    ensures Effect(setup, st, o).log == st.log ==> Makes(st.ctl).None?
  {
    hide InstallEffect;
    hide ObtainEffect;
    hide FetchEffect;
    hide OperateEffect;
    match st.ctl {
      case Installing(step) => InstallAttempts(setup, st, step, o);
      case Downing(step) => ObtainAttempts(st, step, o);
      case Fetching(cred, step) => FetchAttempts(st, cred, step, o);
      case Running(step) => OperateAttempts(st, step, o);
      case _ =>
    }
  }

  /** What a command adds to the log, told by its attempt. */
  predicate Records(st: Shell, body: Shell) {
    && (|body.log| > |st.log| ==> Attempt(body.log[|st.log|]) == Makes(st.ctl))
    && (body.log == st.log ==> Makes(st.ctl).None?)
  }

  lemma InstallAttempts(setup: Setup, st: Shell, step: InstallStep, o: Outcome)
    requires st.ctl == Installing(step)
    ensures Records(st, InstallEffect(setup, st, step, o))
  {
    UnpackedKeeps(st, o);
    hide Unpacked;
    hide ResidentMatches;
    hide Links;
  }

  lemma ObtainAttempts(st: Shell, step: DownStep, o: Outcome)
    requires st.ctl == Downing(step)
    ensures Records(st, ObtainEffect(st, step, o))
  {
    WroteLogs(st, ArchiveTmp, o.wrote);
    hide Wrote;
  }

  lemma FetchAttempts(st: Shell, cred: Cred, step: FetchStep, o: Outcome)
    requires st.ctl == Fetching(cred, step)
    ensures Records(st, FetchEffect(st, cred, step, o))
  {
    WroteLogs(st, JitTmp(cred), o.wrote);
    hide Wrote;
  }

  lemma OperateAttempts(st: Shell, step: RunStep, o: Outcome)
    requires st.ctl == Running(step)
    ensures Records(st, OperateEffect(st, step, o))
  {
  }

  lemma ExecuteNumbers(setup: Setup, st: Shell, o: Outcome)
    requires Numbered(setup, st) && Ordered(st) && !st.ctl.Exited?
    ensures Numbered(setup, Execute(setup, st, o))
  {
    hide Execute;
    hide Effect;
    hide Moves;
    hide EventPos;
    hide Pos;
    hide NextAttempt;
    hide WithinLimit;
    hide Attempt;
    hide Makes;
    hide Sorted;
    EffectLogs(setup, st, o);
    EffectAttempts(setup, st, o);
    ExecuteIsEffect(setup, st, o);
    MovesLog(Effect(setup, st, o), Execute(setup, st, o));
    ExecuteCounts(setup, st, o);
    PositionMoves(setup, st, o);
    NumbersGrow(setup, st, Execute(setup, st, o));
  }

  lemma NumbersGrow(setup: Setup, st: Shell, next: Shell)
    requires Numbered(setup, st) && Ordered(st) && Counts(setup, st.ctl, next.ctl, Makes(st.ctl))
    requires LogsOwn(st, next) && Pos(st.ctl) <= Pos(next.ctl)
    requires |next.log| > |st.log| ==> Attempt(next.log[|st.log|]) == Makes(st.ctl)
    requires next.log == st.log ==> Makes(st.ctl).None?
    ensures Numbered(setup, next)
  {
    hide EventPos;
    hide Pos;
    hide NextAttempt;
    hide WithinLimit;
    hide Attempt;
    hide Makes;
    hide Sorted;
    if next.log != st.log {
      assert next.log == st.log + [next.log[|st.log|]];
      assert forall e :: e in next.log <==> e in st.log || e == next.log[|st.log|];
      assert forall i | 0 <= i < |st.log| :: next.log[i] == st.log[i] && st.log[i] in st.log;
    }
  }

  lemma StepNumbers(files: map<Path, Content>, setup: Setup, st: Shell, o: Outcome)
    requires Numbered(setup, st) && Known(files, setup, st)
    ensures Numbered(setup, Step(setup, st, o))
  {
    LivedStays(st, o);
    var lived := Lived(st, o);
    if !st.ctl.Exited? {
      if o.signal {
        InterruptedNumbers(setup, lived);
      } else {
        ExecuteNumbers(setup, lived, o);
      }
    }
    hide Execute;
    hide Interrupted;
    hide Lived;
    hide Contained;
    hide Entered;
    hide Supplied;
    hide Attended;
    hide Announced;
    hide Limited;
    hide WithinLimit;
    hide EventPos;
    hide Pos;
  }

  lemma InterruptedNumbers(setup: Setup, st: Shell)
    requires Numbered(setup, st)
    ensures Numbered(setup, Interrupted(st))
  {
    hide Swept;
    hide EventPos;
  }

  /** Every retry loop makes at most `MAX_ATTEMPTS` attempts: on record they are numbered upwards from 1 to the limit. */
  lemma {:induction false} AttemptsAreLimited(files: map<Path, Content>, setup: Setup, oracle: nat -> Outcome, j: nat)
    ensures Numbered(setup, State(files, setup, oracle, j)) && Limited(setup, State(files, setup, oracle, j).log)
  {
    hide Step;
    hide Known;
    hide Limited;
    hide WithinLimit;
    if j == 0 {
      StartedNumbers(files, setup);
    } else {
      AttemptsAreLimited(files, setup, oracle, j - 1);
      RunKnown(files, setup, oracle, 0, j - 1);
      hide Numbered;
      StepNumbers(files, setup, State(files, setup, oracle, j - 1), oracle(j - 1));
      NumberedLimits(setup, State(files, setup, oracle, j));
    }
  }

  lemma NumberedLimits(setup: Setup, st: Shell)
    requires Numbered(setup, st)
    ensures Limited(setup, st.log)
  {
    hide Limited;
  }

  lemma StartedNumbers(files: map<Path, Content>, setup: Setup)
    ensures Numbered(setup, Started(files)) && Limited(setup, Started(files).log)
  {
  }

  // ----- termination -----

  /** How much a loop at this counter can still do. */
  function LoopLeft(setup: Setup, ctl: Ctl): (left: nat)
    requires WithinLimit(setup, ctl)
    ensures left <= 4 * setup.maxAttempts + 4
  {
    match ctl
    case Posting(_, n) => 2 * (setup.maxAttempts - n) + 2
    case PostSleep(_, n) => 2 * (setup.maxAttempts - n) + 1
    case Downing(step) =>
      (match step
       case DownClear => 4 * setup.maxAttempts + 4
       case DownTry(n) => 4 * (setup.maxAttempts - n) + 4
       case DownVerify(n) => 4 * (setup.maxAttempts - n) + 3
       case DownDrop(n) => 4 * (setup.maxAttempts - n) + 2
       case DownSleep(n) => 4 * (setup.maxAttempts - n) + 1
       case DownMove => 1)
    case Fetching(_, step) =>
      (match step
       case FetchClear => 4 * setup.maxAttempts + 4
       case FetchTry(n) => 4 * (setup.maxAttempts - n) + 4
       case FetchDrop(n) => 4 * (setup.maxAttempts - n) + 2
       case FetchSleep(n) => 4 * (setup.maxAttempts - n) + 1
       case FetchMove => 1)
    case _ => 0
  }

  /** The places still ahead, each with room for a whole loop, and what is left of the loop at hand. */
  function Left(setup: Setup, ctl: Ctl): nat
    requires WithinLimit(setup, ctl)
  {
    (END_POS - Pos(ctl)) * (4 * setup.maxAttempts + 5) + LoopLeft(setup, ctl)
  }

  lemma {:induction false} Further(a: nat, b: nat, u: nat)
    requires a > b
    ensures a * u >= b * u + u
  {
    Distribute(a - 1, u);
    if a > b + 1 { Further(a - 1, b, u); }
  }

  lemma Distribute(a: nat, u: nat)
    ensures (a + 1) * u == a * u + u
  {
  }

  lemma LaterHasLessLeft(setup: Setup, ctl: Ctl, next: Ctl)
    requires WithinLimit(setup, ctl) && WithinLimit(setup, next) && Pos(next) > Pos(ctl)
    ensures Left(setup, next) < Left(setup, ctl)
  {
    Further(END_POS - Pos(ctl), END_POS - Pos(next), 4 * setup.maxAttempts + 5);
    hide Pos;
    hide WithinLimit;
  }

  /** Staying at one place, a loop comes closer to its end. */
  lemma LoopAdvances(setup: Setup, st: Shell, o: Outcome)
    requires WithinLimit(setup, st.ctl) && !st.ctl.Exited?
    ensures var next := Execute(setup, st, o).ctl;
            WithinLimit(setup, next) && (Pos(next) > Pos(st.ctl) || LoopLeft(setup, next) < LoopLeft(setup, st.ctl))
  {
    ExecuteCounts(setup, st, o);
    hide Install;
    hide TryPost;
    hide Obtain;
    hide FetchOne;
    hide Operate;
    hide NextAttempt;
    match st.ctl {
      case Installing(step) => InstallMoves(setup, st, step, o);
      case Posting(site, n) => TryEnds(setup, st, site, n, o);
      case PostSleep(site, n) =>
      case Downing(step) => ObtainEnds(setup, st, step, o);
      case Fetching(cred, step) => FetchEnds(setup, st, cred, step, o);
      case Running(step) => OperateMoves(setup, st, step, o);
      case _ =>
    }
  }

  lemma TryEnds(setup: Setup, st: Shell, site: Site, n: nat, o: Outcome)
    requires WithinLimit(setup, Posting(site, n)) && WithinLimit(setup, TryPost(setup, st, site, n, o).ctl)
    ensures var next := TryPost(setup, st, site, n, o).ctl;
            Pos(next) > SitePos(site) || LoopLeft(setup, next) < LoopLeft(setup, Posting(site, n))
  {
    PostMovesOn(setup, st, site, n, o);
    hide TryPost;
  }

  lemma ObtainEnds(setup: Setup, st: Shell, step: DownStep, o: Outcome)
    requires WithinLimit(setup, Downing(step)) && WithinLimit(setup, Obtain(setup, st, step, o).ctl)
    ensures var next := Obtain(setup, st, step, o).ctl;
            Pos(next) > DOWNLOAD_POS || LoopLeft(setup, next) < LoopLeft(setup, Downing(step))
  {
    hide Downloaded;
    match step
    case DownClear => DownloadedPos(setup, Removed(st, {ArchiveTmp, Archive}), false);
    case DownMove => DownloadedPos(setup, if o.ok then Created(Removed(st, {ArchiveTmp}), Archive, Full) else st, true);
    case DownDrop(_) => DownloadedPos(setup, Removed(st, {ArchiveTmp}), false);
    case _ =>
  }

  lemma FetchEnds(setup: Setup, st: Shell, cred: Cred, step: FetchStep, o: Outcome)
    requires WithinLimit(setup, Fetching(cred, step)) && WithinLimit(setup, FetchOne(setup, st, cred, step, o).ctl)
    ensures var next := FetchOne(setup, st, cred, step, o).ctl;
            Pos(next) > CredPos(cred) || LoopLeft(setup, next) < LoopLeft(setup, Fetching(cred, step))
  {
    hide Fetched;
    match step
    case FetchClear => FetchedPos(setup, Removed(st, {JitTmp(cred)}), cred, false);
    case FetchMove =>
      FetchedPos(setup, if o.ok then Created(Removed(st, {JitTmp(cred)}), Jit(cred), Full) else Logged(st, MoveFailed(cred)),
                 cred, true);
    case FetchDrop(_) => FetchedPos(setup, Removed(st, {JitTmp(cred)}), cred, false);
    case _ =>
  }

  lemma StepUsesUp(setup: Setup, st: Shell, o: Outcome)
    requires WithinLimit(setup, st.ctl) && !st.ctl.Exited?
    ensures var next := Step(setup, st, o).ctl; WithinLimit(setup, next) && Left(setup, next) < Left(setup, st.ctl)
  {
    LivedStays(st, o);
    var (lived, next) := (Lived(st, o), Step(setup, st, o));
    if o.signal {
      ExitIsLast(setup, st.ctl, next.ctl);
    } else {
      LoopAdvances(setup, lived, o);
      PositionMoves(setup, lived, o);
      if Pos(next.ctl) > Pos(st.ctl) { LaterHasLessLeft(setup, st.ctl, next.ctl); }
    }
    hide Execute;
    hide Lived;
    hide Swept;
    hide LoopLeft;
    hide WithinLimit;
  }

  lemma ExitIsLast(setup: Setup, ctl: Ctl, next: Ctl)
    requires WithinLimit(setup, ctl) && !ctl.Exited? && next.Exited?
    ensures WithinLimit(setup, next) && Pos(next) > Pos(ctl) && Left(setup, next) < Left(setup, ctl)
  {
    NotAtEnd(ctl);
    assert WithinLimit(setup, next) && Pos(next) == END_POS;
    LaterHasLessLeft(setup, ctl, next);
    hide Left;
    hide Pos;
  }

  lemma NotAtEnd(ctl: Ctl)
    requires !ctl.Exited?
    ensures Pos(ctl) < END_POS
  {
  }

  /** The program ends: whatever the network does, it has left within a number of commands fixed by the limit. */
  lemma {:induction false} ProgramEnds(files: map<Path, Content>, setup: Setup, oracle: nat -> Outcome, j: nat)
    ensures var ctl := State(files, setup, oracle, j).ctl;
            WithinLimit(setup, ctl) && (ctl.Exited? || j + Left(setup, ctl) <= Left(setup, Installing(CheckResident)))
    ensures j > Left(setup, Installing(CheckResident)) ==> State(files, setup, oracle, j).ctl.Exited?
  {
    hide WithinLimit;
    hide Left;
    hide Step;
    assert WithinLimit(setup, Installing(CheckResident)) by { StartedNumbers(files, setup); AtStart(setup); }
    if j > 0 {
      ProgramEnds(files, setup, oracle, j - 1);
      var st := State(files, setup, oracle, j - 1);
      if st.ctl.Exited? {
        StaysOut(setup, st, oracle(j - 1));
      } else {
        StepUsesUp(setup, st, oracle(j - 1));
      }
    }
  }

  lemma AtStart(setup: Setup)
    ensures WithinLimit(setup, Installing(CheckResident))
  {
  }

  lemma StaysOut(setup: Setup, st: Shell, o: Outcome)
    requires st.ctl.Exited?
    ensures Step(setup, st, o).ctl == st.ctl && WithinLimit(setup, st.ctl)
  {
  }

  // ----- what a signal leaves running -----

  /** The command that takes the program out leaves the runner alive exactly when it was a signal that fell between the
      start of the runner and the recording of its process ID. */
  lemma ExitLeavesRunnerExactly(files: map<Path, Content>, setup: Setup, oracle: nat -> Outcome, j: nat)
    requires !State(files, setup, oracle, j).ctl.Exited? && State(files, setup, oracle, j + 1).ctl.Exited?
    ensures var (st, o) := (State(files, setup, oracle, j), oracle(j));
            State(files, setup, oracle, j + 1).child.Alive? <==>
              st.ctl == Running(RecordPid) && o.signal && st.child.Alive? && !o.dies
  {
    hide Started;
    hide Contained;
    hide Ordered;
    hide Entered;
    hide TreeChecked;
    hide Supplied;
    hide Announced;
    RunKnown(files, setup, oracle, 0, j);
    var st := State(files, setup, oracle, j);
    assert State(files, setup, oracle, j + 1) == Step(setup, st, oracle(j)) by { hide Step; }
    hide Run;
    hide State;
    LivedAttended(st, oracle(j));
    OnlyRecordingThere(st.ctl);
    hide Attended;
    if oracle(j).signal {
      SignalLeaves(Lived(st, oracle(j)));
    } else {
      LeavingLeaves(setup, Lived(st, oracle(j)), oracle(j));
    }
    hide Execute;
    hide Interrupted;
  }

  lemma LivedAttended(st: Shell, o: Outcome)
    requires Attended(st)
    ensures Attended(Lived(st, o)) && Lived(st, o).ctl == st.ctl
    ensures Lived(st, o).child.Alive? <==> st.child.Alive? && !o.dies
  {
    hide SystemInfoTaken;
  }

  lemma OnlyRecordingThere(ctl: Ctl)
    ensures Pos(ctl) == 28 <==> ctl == Running(RecordPid)
  {
  }

  lemma SignalLeaves(st: Shell)
    requires Attended(st) && !st.ctl.Exited?
    ensures Interrupted(st).child.Alive? <==> st.child.Alive? && Pos(st.ctl) == 28
  {
    NotAtEnd(st.ctl);
    hide Swept;
    hide SystemInfoTaken;
    hide Pos;
  }

  lemma LeavingLeaves(setup: Setup, st: Shell, o: Outcome)
    requires Attended(st) && !st.ctl.Exited? && Execute(setup, st, o).ctl.Exited?
    ensures !Execute(setup, st, o).child.Alive?
  {
    NotAtEnd(st.ctl);
    ExecuteFlows(setup, st, o);
    ExecuteIsEffect(setup, st, o);
    MovesLog(Effect(setup, st, o), Execute(setup, st, o));
    LeavesFrom(setup, st, o);
    hide Execute;
    hide Moves;
    hide SystemInfoTaken;
    if st.ctl.Installing? || st.ctl.Downing? || st.ctl.Fetching? { EarlierUnattended(setup, st, o); }
    if st.ctl.Running? { OperateChild(st, st.ctl.step, o); }
    hide Effect;
    hide OperateEffect;
  }

  /** Past the launch, the program leaves only where the runner has been awaited. */
  lemma LeavesFrom(setup: Setup, st: Shell, o: Outcome)
    requires !st.ctl.Exited? && Execute(setup, st, o).ctl.Exited?
    ensures Pos(st.ctl) <= 27 || Pos(st.ctl) == 31 || Pos(st.ctl) == 32 || Pos(st.ctl) == 36 || Pos(st.ctl) == 38
  {
    hide Swept;
    hide Install;
    hide Obtain;
    hide FetchOne;
  }

  lemma OperateChild(st: Shell, step: RunStep, o: Outcome)
    ensures var body := OperateEffect(st, step, o);
            body.child == if step.Launch? then Alive else if step.AwaitKilled? || step.AwaitRunner? then Gone else st.child
  {
    hide Created;
    if step.MakeLink? { CreatedKeeps(st, o, step); }
  }

  /** Everything goes well, and a signal falls right after the start of the runner. */
  function SignalAfterLaunch(): nat -> Outcome {
    k => Outcome(k == 21, true, Some(Full), true, Tree(true, true, true), {}, false, 0)
  }

  lemma LaunchPasses(st: Shell, launch: Outcome, signal: Outcome)
    requires st.ctl == Running(Launch) && !launch.signal && signal.signal && !signal.dies && !st.pid
    ensures var next := Step(WITNESS_SETUP, Step(WITNESS_SETUP, st, launch), signal);
            next.ctl == Exited(143) && next.child.Alive?
  {
    hide Swept;
  }

  /** It happens: a run in which everything goes well leaves with 143 and the runner alive, because of one signal. */
  lemma SignalLeavesRunner()
    ensures var end := State(map[], WITNESS_SETUP, SignalAfterLaunch(), 22); end.ctl == Exited(143) && end.child.Alive?
  {
    var oracle := SignalAfterLaunch();
    ReachLaunch(oracle);
    NextState(map[], WITNESS_SETUP, oracle, 20);
    NextState(map[], WITNESS_SETUP, oracle, 21);
    var st := State(map[], WITNESS_SETUP, oracle, 20);
    assert !st.pid by {
      RunKnown(map[], WITNESS_SETUP, oracle, 0, 20);
      AttendedAtLaunch(map[], WITNESS_SETUP, st);
      hide Known;
    }
    hide State;
    hide Step;
    LaunchPasses(st, oracle(20), oracle(21));
  }

  lemma AttendedAtLaunch(files: map<Path, Content>, setup: Setup, st: Shell)
    requires Known(files, setup, st) && st.ctl == Running(Launch)
    ensures !st.pid
  {
    hide Contained;
    hide Ordered;
    hide Entered;
    hide Supplied;
    hide Announced;
  }
}

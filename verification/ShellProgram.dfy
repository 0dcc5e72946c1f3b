/** The bootstrap program as it is written, with its functions, loops and early exits. The place in the program is ghost:
    the methods name each command themselves, and may only name the one that the account command by command is at. */
module ShellProgram {
  import opened Text
  import opened Shell
  import opened ShellGate
  import opened ShellRuns

  const NOTHING_DONE := Started(map[])

  /** Where a `post_json` call begins: at its first attempt, or straight behind it when no attempt is allowed. */
  function StartCtl(setup: Setup, site: Site): Ctl {
    StartPost(setup, NOTHING_DONE, site).ctl
  }

  function PostedCtl(setup: Setup, site: Site, ok: bool): Ctl {
    Posted(setup, NOTHING_DONE, site, ok).ctl
  }

  function FetchedCtl(setup: Setup, cred: Cred, ok: bool): Ctl {
    Fetched(setup, NOTHING_DONE, cred, ok).ctl
  }

  /** Where calls begin and return to does not depend on the rest of the state. */
  lemma PostedIs(setup: Setup, st: Shell, site: Site, ok: bool)
    ensures Posted(setup, st, site, ok).ctl == PostedCtl(setup, site, ok)
    ensures StartPost(setup, st, site).ctl == StartCtl(setup, site)
  {
    hide Swept;
    hide NOTHING_DONE;
  }

  lemma FetchedIs(setup: Setup, st: Shell, cred: Cred, ok: bool)
    ensures Fetched(setup, st, cred, ok).ctl == FetchedCtl(setup, cred, ok)
  {
    PostedIs(setup, st, FetchFailed(cred), false);
    PostedIs(setup, NOTHING_DONE, FetchFailed(cred), false);
    hide StartPost;
    hide StartCtl;
    hide NOTHING_DONE;
  }

  // ----- where single commands lead -----

  lemma PostGoes(setup: Setup, st: Shell, site: Site, n: nat, o: Outcome)
    requires st.ctl == Posting(site, n)
    ensures Execute(setup, st, o).ctl
         == if o.ok || n >= setup.maxAttempts then PostedCtl(setup, site, o.ok) else PostSleep(site, n)
  {
    hide Posted;
    hide PostedCtl;
    PostedIs(setup, Logged(st, Post(site, n, o.ok)), site, o.ok);
  }

  lemma ClearTmpGoes(setup: Setup, st: Shell, cred: Cred, o: Outcome)
    requires st.ctl == Fetching(cred, FetchClear)
    ensures Execute(setup, st, o).ctl
         == if setup.maxAttempts == 0 then FetchedCtl(setup, cred, false) else Fetching(cred, FetchTry(1))
  {
    hide Fetched;
    hide FetchedCtl;
    hide Removed;
    FetchedIs(setup, Removed(st, {JitTmp(cred)}), cred, false);
  }

  lemma MoveGoes(setup: Setup, st: Shell, cred: Cred, o: Outcome)
    requires st.ctl == Fetching(cred, FetchMove)
    ensures Execute(setup, st, o).ctl == FetchedCtl(setup, cred, true)
  {
    hide Fetched;
    hide FetchedCtl;
    hide Removed;
    hide Created;
    FetchedIs(setup, if o.ok then Created(Removed(st, {JitTmp(cred)}), Jit(cred), Full) else Logged(st, MoveFailed(cred)),
              cred, true);
  }

  lemma DropTmpGoes(setup: Setup, st: Shell, cred: Cred, n: nat, o: Outcome)
    requires st.ctl == Fetching(cred, FetchDrop(n))
    ensures Execute(setup, st, o).ctl
         == if n < setup.maxAttempts then Fetching(cred, FetchSleep(n)) else FetchedCtl(setup, cred, false)
  {
    hide Fetched;
    hide FetchedCtl;
    hide Removed;
    FetchedIs(setup, Removed(st, {JitTmp(cred)}), cred, false);
  }

  lemma ClearArchiveGoes(setup: Setup, st: Shell, o: Outcome)
    requires st.ctl == Downing(DownClear)
    ensures Execute(setup, st, o).ctl
         == if setup.maxAttempts == 0 then StartCtl(setup, DownloadFailed) else Downing(DownTry(1))
  {
    hide StartPost;
    hide StartCtl;
    hide Removed;
    PostedIs(setup, Removed(st, {ArchiveTmp, Archive}), DownloadFailed, false);
  }

  lemma DropArchiveGoes(setup: Setup, st: Shell, n: nat, o: Outcome)
    requires st.ctl == Downing(DownDrop(n))
    ensures Execute(setup, st, o).ctl
         == if n < setup.maxAttempts then Downing(DownSleep(n)) else StartCtl(setup, DownloadFailed)
  {
    hide StartPost;
    hide StartCtl;
    hide Removed;
    PostedIs(setup, Removed(st, {ArchiveTmp}), DownloadFailed, false);
  }

  lemma FindGoes(setup: Setup, st: Shell, o: Outcome)
    requires st.ctl == Installing(CheckResident)
    ensures Execute(setup, st, o).ctl
         == if ResidentMatches(setup, st.files) then Installing(SwitchHome) else StartCtl(setup, Downloading)
  {
    hide ResidentMatches;
    hide StartPost;
    hide StartCtl;
    PostedIs(setup, st, Downloading, false);
  }

  lemma EnterGoes(setup: Setup, st: Shell, o: Outcome)
    requires st.ctl == Installing(SwitchHome)
    ensures Execute(setup, st, o).ctl == StartCtl(setup, UsingResident)
  {
    hide StartPost;
    hide StartCtl;
    PostedIs(setup, st.(home := Resident), UsingResident, false);
  }

  lemma UnpackGoes(setup: Setup, st: Shell, o: Outcome)
    requires st.ctl == Installing(Extract)
    ensures Execute(setup, st, o).ctl
         == if o.ok && Archive in st.files then Installing(RemoveArchive) else StartCtl(setup, ExtractFailed)
  {
    hide Unpacked;
    hide StartPost;
    hide StartCtl;
    PostedIs(setup, Unpacked(st, o), ExtractFailed, false);
  }

  lemma TreeGoes(setup: Setup, st: Shell, o: Outcome)
    ensures st.ctl == Installing(CheckTree) ==>
              Execute(setup, st, o).ctl
              == if CurrentTree(setup, st).runScript && CurrentTree(setup, st).listener then Installing(CheckNode)
                 else StartCtl(setup, TreeIncomplete)
    ensures st.ctl == Installing(CheckNode) ==>
              Execute(setup, st, o).ctl
              == if CurrentTree(setup, st).node then Installing(EnterHome) else StartCtl(setup, NodeMissing)
  {
    hide CurrentTree;
    hide StartPost;
    hide StartCtl;
    PostedIs(setup, st, TreeIncomplete, false);
    PostedIs(setup, st, NodeMissing, false);
  }

  lemma HomeGoes(setup: Setup, st: Shell, o: Outcome)
    requires st.ctl == Installing(EnterHome)
    ensures var ctl := Execute(setup, st, o).ctl; ctl.Exited? || ctl == StartCtl(setup, FetchingMetadata)
  {
    hide StartPost;
    hide StartCtl;
    hide Swept;
    PostedIs(setup, st, FetchingMetadata, false);
  }

  lemma ProbeGoes(setup: Setup, st: Shell, o: Outcome)
    requires st.ctl == Running(Probe)
    ensures Execute(setup, st, o).ctl == if st.child.Alive? then StartCtl(setup, SystemInfo) else Running(Reap)
    ensures Execute(setup, st, o).child == st.child
  {
    hide StartPost;
    hide StartCtl;
    PostedIs(setup, st, SystemInfo, false);
    StartKeepsChild(setup, st, SystemInfo);
  }

  lemma StartKeepsChild(setup: Setup, st: Shell, site: Site)
    ensures StartPost(setup, st, site).child == st.child
  {
    hide Swept;
  }

  lemma ReapGoes(setup: Setup, st: Shell, o: Outcome)
    requires st.ctl == Running(Reap)
    ensures Execute(setup, st, o).ctl == StartCtl(setup, RunnerExited)
  {
    hide StartPost;
    hide StartCtl;
    PostedIs(setup, st, RunnerExited, false);
  }

  class Session {
    const setup: Setup
    const oracle: nat -> Outcome
    ghost const before: map<Path, Content>
    var home: Home
    var files: map<Path, Content>
    var made: set<Path>
    var tree: Tree
    var pid: bool
    var child: Child
    var log: seq<Event>
    var left: bool
    var clock: nat
    ghost var ctl: Ctl

    constructor (setup: Setup, oracle: nat -> Outcome, files: map<Path, Content>)
      ensures Following() && ctl == Installing(CheckResident) && clock == 0
      ensures this.setup == setup && this.oracle == oracle && this.before == files
    {
      var st := Started(files);
      this.setup, this.oracle, this.before := setup, oracle, files;
      this.home, this.files, made, tree, pid, child, log := st.home, st.files, st.made, st.tree, st.pid, st.child, st.log;
      left, clock := false, 0;
      ctl := st.ctl;
    }

    function Snapshot(cmd: Ctl): Shell
      reads this
    {
      Shell(home, files, made, tree, pid, child, log, cmd)
    }

    ghost function Now(): Shell
      reads this
    {
      Snapshot(ctl)
    }

    /** The program's state is what the run of its commands so far comes to. */
    ghost predicate Following()
      reads this
    {
      Now() == State(before, setup, oracle, clock) && (left <==> ctl.Exited?)
    }

    /** Following, and due to run `cmd`. */
    ghost predicate At(cmd: Ctl)
      reads this
    {
      Following() && ctl == cmd
    }

    /** One command of the program; a signal, if one is pending, goes first. */
    method Command(cmd: Ctl) returns (o: Outcome)
      requires At(cmd) && !left
      modifies this
      ensures Following() && clock == old(clock) + 1 && o == oracle(old(clock))
      ensures Now() == Step(setup, old(Now()), o)
      ensures Lived(old(Now()), o).ctl == cmd
      ensures left || ctl == Execute(setup, Lived(old(Now()), o), o).ctl
    {
      hide Execute;
      hide Interrupted;
      hide Lived;
      o := oracle(clock);
      SignalEnds(Lived(Now(), o));
      LivedStays(Now(), o);
      var next := Step(setup, Snapshot(cmd), o);
      home, files, made, tree, pid, child, log :=
        next.home, next.files, next.made, next.tree, next.pid, next.child, next.log;
      left := next.ctl.Exited?;
      ctl := next.ctl;
      clock := clock + 1;
    }

    static lemma SignalEnds(st: Shell)
      ensures Interrupted(st).ctl.Exited?
    {
    }

    // ----- post_json -----

    /** The body of its loop, up to the verdict of curl. */
    method Post(site: Site, n: nat) returns (delivered: bool)
      requires At(Posting(site, n)) && !left
      modifies this
      ensures Following()
      ensures left || ctl == if delivered || n >= setup.maxAttempts then PostedCtl(setup, site, delivered) else PostSleep(site, n)
    {
      hide Step;
      hide State;
      hide Execute;
      hide PostedCtl;
      var o := Command(Posting(site, n));
      PostGoes(setup, Lived(old(Now()), o), site, n, o);
      delivered := o.ok;
    }

    method SleepBeforePost(site: Site, n: nat)
      requires At(PostSleep(site, n)) && !left
      modifies this
      ensures Following() && (left || ctl == Posting(site, n + 1))
    {
      hide Step;
      hide State;
      var _ := Command(PostSleep(site, n));
    }

    method PostJson(site: Site) returns (ok: bool)
      requires At(StartCtl(setup, site)) && !left
      modifies this
      ensures Following()
      ensures left || ctl == PostedCtl(setup, site, ok)
    {
      hide State;
      hide Now;
      hide PostedCtl;
      var attempt := 1;
      StartIs(setup, site);
      while attempt <= setup.maxAttempts
        invariant 1 <= attempt <= setup.maxAttempts + 1
        invariant Following() && !left
        invariant ctl == if attempt <= setup.maxAttempts then Posting(site, attempt) else PostedCtl(setup, site, false)
      {
        ok := Post(site, attempt);
        if left || ok { return ok; }
        if attempt < setup.maxAttempts {
          SleepBeforePost(site, attempt);
          if left { return false; }
        }
        attempt := attempt + 1;
      }
      ok := false;
    }

    static lemma StartIs(setup: Setup, site: Site)
      ensures StartCtl(setup, site) == if setup.maxAttempts > 0 then Posting(site, 1) else PostedCtl(setup, site, false)
    {
      hide Posted;
    }

    // ----- fetch_metadata -----

    method ClearTmp(cred: Cred)
      requires At(Fetching(cred, FetchClear)) && !left
      modifies this
      ensures Following()
      ensures left || ctl == if setup.maxAttempts == 0 then FetchedCtl(setup, cred, false) else Fetching(cred, FetchTry(1))
    {
      hide Step;
      hide State;
      hide Execute;
      hide FetchedCtl;
      var o := Command(Fetching(cred, FetchClear));
      ClearTmpGoes(setup, Lived(old(Now()), o), cred, o);
    }

    /** curl, and the look at the size of what it left. */
    method CurlCredential(cred: Cred, n: nat) returns (full: bool)
      requires At(Fetching(cred, FetchTry(n))) && !left
      modifies this
      ensures Following() && (left || ctl == Fetching(cred, if full then FetchMove else FetchDrop(n)))
    {
      hide Step;
      hide State;
      hide Wrote;
      var o := Command(Fetching(cred, FetchTry(n)));
      full := o.ok && o.wrote == Some(Full);
    }

    method MoveCredential(cred: Cred)
      requires At(Fetching(cred, FetchMove)) && !left
      modifies this
      ensures Following() && (left || ctl == FetchedCtl(setup, cred, true))
    {
      hide Step;
      hide State;
      hide Execute;
      hide FetchedCtl;
      var o := Command(Fetching(cred, FetchMove));
      MoveGoes(setup, Lived(old(Now()), o), cred, o);
    }

    method DropTmp(cred: Cred, n: nat)
      requires At(Fetching(cred, FetchDrop(n))) && !left
      modifies this
      ensures Following()
      ensures left || ctl == if n < setup.maxAttempts then Fetching(cred, FetchSleep(n)) else FetchedCtl(setup, cred, false)
    {
      hide Step;
      hide State;
      hide Execute;
      hide FetchedCtl;
      var o := Command(Fetching(cred, FetchDrop(n)));
      DropTmpGoes(setup, Lived(old(Now()), o), cred, n, o);
    }

    method SleepBeforeFetch(cred: Cred, n: nat)
      requires At(Fetching(cred, FetchSleep(n))) && !left
      modifies this
      ensures Following() && (left || ctl == Fetching(cred, FetchTry(n + 1)))
    {
      hide Step;
      hide State;
      var _ := Command(Fetching(cred, FetchSleep(n)));
    }

    method FetchMetadata(cred: Cred) returns (ok: bool)
      requires At(Fetching(cred, FetchClear)) && !left
      modifies this
      ensures Following()
      ensures left || ctl == FetchedCtl(setup, cred, ok)
    {
      hide State;
      hide Now;
      hide FetchedCtl;
      ClearTmp(cred);
      if left { return false; }
      var attempt := 1;
      while attempt <= setup.maxAttempts
        invariant 1 <= attempt <= setup.maxAttempts + 1
        invariant Following() && !left
        invariant ctl == if attempt <= setup.maxAttempts then Fetching(cred, FetchTry(attempt)) else FetchedCtl(setup, cred, false)
      {
        var full := CurlCredential(cred, attempt);
        if left { return false; }
        if full {
          MoveCredential(cred);
          return true;
        }
        DropTmp(cred, attempt);
        if left { return false; }
        if attempt < setup.maxAttempts {
          SleepBeforeFetch(cred, attempt);
          if left { return false; }
        }
        attempt := attempt + 1;
      }
      ok := false;
    }

    // ----- download_runner -----

    method ClearArchive()
      requires At(Downing(DownClear)) && !left
      modifies this
      ensures Following()
      ensures left || ctl == if setup.maxAttempts == 0 then StartCtl(setup, DownloadFailed) else Downing(DownTry(1))
    {
      hide Step;
      hide State;
      hide Execute;
      hide StartCtl;
      var o := Command(Downing(DownClear));
      ClearArchiveGoes(setup, Lived(old(Now()), o), o);
    }

    method CurlArchive(n: nat) returns (there: bool)
      requires At(Downing(DownTry(n))) && !left
      modifies this
      ensures Following() && (left || ctl == Downing(if there then DownVerify(n) else DownDrop(n)))
    {
      hide Step;
      hide State;
      hide Wrote;
      var o := Command(Downing(DownTry(n)));
      there := o.ok && o.wrote.Some?;
    }

    method VerifyArchive(n: nat) returns (matches: bool)
      requires At(Downing(DownVerify(n))) && !left
      modifies this
      ensures Following() && (left || ctl == Downing(if matches then DownMove else DownDrop(n)))
    {
      hide Step;
      hide State;
      var o := Command(Downing(DownVerify(n)));
      matches := o.matches;
    }

    method MoveArchive()
      requires At(Downing(DownMove)) && !left
      modifies this
      ensures Following() && (left || ctl == Installing(RemoveHome))
    {
      hide Step;
      hide State;
      hide Removed;
      hide Created;
      var _ := Command(Downing(DownMove));
    }

    method DropArchive(n: nat)
      requires At(Downing(DownDrop(n))) && !left
      modifies this
      ensures Following()
      ensures left || ctl == if n < setup.maxAttempts then Downing(DownSleep(n)) else StartCtl(setup, DownloadFailed)
    {
      hide Step;
      hide State;
      hide Execute;
      hide StartCtl;
      var o := Command(Downing(DownDrop(n)));
      DropArchiveGoes(setup, Lived(old(Now()), o), n, o);
    }

    method SleepBeforeDownload(n: nat)
      requires At(Downing(DownSleep(n))) && !left
      modifies this
      ensures Following() && (left || ctl == Downing(DownTry(n + 1)))
    {
      hide Step;
      hide State;
      var _ := Command(Downing(DownSleep(n)));
    }

    method DownloadRunner() returns (ok: bool)
      requires At(Downing(DownClear)) && !left
      modifies this
      ensures Following()
      ensures left || ctl == if ok then Installing(RemoveHome) else StartCtl(setup, DownloadFailed)
    {
      hide State;
      hide Now;
      hide StartCtl;
      ClearArchive();
      if left { return false; }
      var attempt := 1;
      while attempt <= setup.maxAttempts
        invariant 1 <= attempt <= setup.maxAttempts + 1
        invariant Following() && !left
        invariant ctl == if attempt <= setup.maxAttempts then Downing(DownTry(attempt)) else StartCtl(setup, DownloadFailed)
      {
        var there := CurlArchive(attempt);
        if left { return false; }
        if there {
          var matches := VerifyArchive(attempt);
          if left { return false; }
          if matches {
            MoveArchive();
            return true;
          }
        }
        DropArchive(attempt);
        if left { return false; }
        if attempt < setup.maxAttempts {
          SleepBeforeDownload(attempt);
          if left { return false; }
        }
        attempt := attempt + 1;
      }
      ok := false;
    }

    // ----- the main program -----

    /** The look at the resident tree, which decides between the two branches. */
    method FindResident() returns (matches: bool)
      requires At(Installing(CheckResident)) && !left
      modifies this
      ensures Following()
      ensures left || ctl == if matches then Installing(SwitchHome) else StartCtl(setup, Downloading)
    {
      hide Step;
      hide State;
      hide Execute;
      hide StartCtl;
      hide ResidentMatches;
      matches := ResidentMatches(setup, files);
      var o := Command(Installing(CheckResident));
      FindGoes(setup, Lived(old(Now()), o), o);
    }

    method EnterResident()
      requires At(Installing(SwitchHome)) && !left
      modifies this
      ensures Following()
      ensures left || ctl == StartCtl(setup, UsingResident)
    {
      hide Step;
      hide State;
      hide Execute;
      hide StartCtl;
      var o := Command(Installing(SwitchHome));
      EnterGoes(setup, Lived(old(Now()), o), o);
    }

    /** A command of the installation that `set -e` watches, and the one after it. */
    static predicate Watched(step: InstallStep, next: InstallStep) {
      (step == MakeJitDir && next == CheckTree) || (step == RemoveHome && next == MakeDirs)
      || (step == MakeDirs && next == Extract) || (step == RemoveArchive && next == CheckTree)
    }

    method Watch(step: InstallStep, ghost next: InstallStep)
      requires At(Installing(step)) && !left && Watched(step, next)
      modifies this
      ensures Following() && (left || ctl == Installing(next))
    {
      hide Step;
      hide State;
      hide Removed;
      hide Swept;
      var _ := Command(Installing(step));
    }

    method Unpack() returns (ok: bool)
      requires At(Installing(Extract)) && !left
      modifies this
      ensures Following()
      ensures left || ctl == if ok then Installing(RemoveArchive) else StartCtl(setup, ExtractFailed)
    {
      hide Step;
      hide State;
      hide Execute;
      hide StartCtl;
      var there := Archive in files;
      var o := Command(Installing(Extract));
      ok := o.ok && there;
      UnpackGoes(setup, Lived(old(Now()), o), o);
    }

    method LookAtTree() returns (ok: bool)
      requires At(Installing(CheckTree)) && !left
      modifies this
      ensures Following()
      ensures left || ctl == if ok then Installing(CheckNode) else StartCtl(setup, TreeIncomplete)
    {
      hide Step;
      hide State;
      hide Execute;
      hide StartCtl;
      hide CurrentTree;
      var found := CurrentTree(setup, Snapshot(Installing(CheckTree)));
      ok := found.runScript && found.listener;
      var o := Command(Installing(CheckTree));
      LivedTree(setup, old(Now()), o);
      TreeGoes(setup, Lived(old(Now()), o), o);
    }

    method LookAtNode() returns (ok: bool)
      requires At(Installing(CheckNode)) && !left
      modifies this
      ensures Following()
      ensures left || ctl == if ok then Installing(EnterHome) else StartCtl(setup, NodeMissing)
    {
      hide Step;
      hide State;
      hide Execute;
      hide StartCtl;
      hide CurrentTree;
      ok := CurrentTree(setup, Snapshot(Installing(CheckNode))).node;
      var o := Command(Installing(CheckNode));
      LivedTree(setup, old(Now()), o);
      TreeGoes(setup, Lived(old(Now()), o), o);
    }

    static lemma LivedTree(setup: Setup, st: Shell, o: Outcome)
      ensures CurrentTree(setup, Lived(st, o)) == CurrentTree(setup, st)
    {
    }

    method ChangeDirectory()
      requires At(Installing(EnterHome)) && !left
      modifies this
      ensures Following() && (left || ctl == StartCtl(setup, FetchingMetadata))
    {
      hide Step;
      hide State;
      hide Execute;
      hide StartCtl;
      var o := Command(Installing(EnterHome));
      HomeGoes(setup, Lived(old(Now()), o), o);
    }

    /** From the resident tree or by download to a tree to be looked at. */
    method ProvideTree()
      requires At(Installing(CheckResident)) && !left
      modifies this
      ensures Following() && (left || ctl == Installing(CheckTree))
    {
      hide State;
      hide Now;
      var matches := FindResident();
      if left { return; }
      if matches {
        EnterResident();
        if left { return; }
        var posted := PostJson(UsingResident);
        if left { return; }
        Watch(MakeJitDir, CheckTree);
      } else {
        var posted := PostJson(Downloading);
        if left { return; }
        var downloaded := DownloadRunner();
        if left { return; }
        if !downloaded {
          posted := PostJson(DownloadFailed);
          return;
        }
        InstallTree();
      }
    }

    method InstallTree()
      requires At(Installing(RemoveHome)) && !left
      modifies this
      ensures Following() && (left || ctl == Installing(CheckTree))
    {
      hide State;
      hide Now;
      Watch(RemoveHome, MakeDirs);
      if left { return; }
      Watch(MakeDirs, Extract);
      if left { return; }
      var unpacked := Unpack();
      if left { return; }
      if !unpacked {
        var posted := PostJson(ExtractFailed);
        return;
      }
      Watch(RemoveArchive, CheckTree);
    }

    /** The looks at the tree, and the three credentials. */
    method FetchCredentials()
      requires At(Installing(CheckTree)) && !left
      modifies this
      ensures Following() && (left || ctl == Running(MakeLink(RunnerFile)))
    {
      hide State;
      hide Now;
      var complete := LookAtTree();
      if left { return; }
      if !complete {
        var posted := PostJson(TreeIncomplete);
        return;
      }
      var node := LookAtNode();
      if left { return; }
      if !node {
        var posted := PostJson(NodeMissing);
        return;
      }
      ChangeDirectory();
      if left { return; }
      var announced := PostJson(FetchingMetadata);
      if left { return; }
      FetchOrFail(RunnerFile);
      if left { return; }
      FetchOrFail(CredentialsFile);
      if left { return; }
      FetchOrFail(RSAFile);
    }

    method FetchOrFail(cred: Cred)
      requires At(Fetching(cred, FetchClear)) && !left
      modifies this
      ensures Following() && (left || ctl == FetchedCtl(setup, cred, true))
    {
      hide State;
      hide Now;
      var fetched := FetchMetadata(cred);
      if left || fetched { return; }
      var posted := PostJson(FetchFailed(cred));
    }

    method MakeOneLink(cred: Cred)
      requires At(Running(MakeLink(cred))) && !left
      modifies this
      ensures Following()
      ensures left || ctl == Running(match cred case RunnerFile => MakeLink(CredentialsFile)
                                                case CredentialsFile => MakeLink(RSAFile) case RSAFile => Launch)
    {
      hide Step;
      hide State;
      hide Created;
      hide Swept;
      var _ := Command(Running(MakeLink(cred)));
    }

    /** The start of the runner in the background, the note of its process ID, and the pause. */
    method StartRunner()
      requires At(Running(Launch)) && !left
      modifies this
      ensures Following() && (left || ctl == Running(Probe))
    {
      hide Step;
      hide State;
      var _ := Command(Running(Launch));
      if left { return; }
      var _ := Command(Running(RecordPid));
      if left { return; }
      var _ := Command(Running(ReadyWait));
    }

    method ProbeRunner() returns (alive: bool)
      requires At(Running(Probe)) && !left
      modifies this
      ensures Following()
      ensures left || ctl == if alive then StartCtl(setup, SystemInfo) else Running(Reap)
    {
      hide State;
      hide Execute;
      hide StartCtl;
      hide Interrupted;
      var o := Command(Running(Probe));
      alive := child.Alive?;
      ProbeGoes(setup, Lived(old(Now()), o), o);
      SignalEnds(Lived(old(Now()), o));
    }

    method ReapRunner()
      requires At(Running(Reap)) && !left
      modifies this
      ensures Following() && (left || ctl == StartCtl(setup, RunnerExited))
    {
      hide Step;
      hide State;
      hide Execute;
      hide StartCtl;
      var o := Command(Running(Reap));
      ReapGoes(setup, Lived(old(Now()), o), o);
    }

    /** The links, the launch, and the first look at the runner. */
    method LaunchRunner()
      requires At(Running(MakeLink(RunnerFile))) && !left
      modifies this
      ensures Following() && (left || ctl == StartCtl(setup, SystemInfo))
    {
      hide State;
      hide Now;
      hide StartCtl;
      MakeOneLink(RunnerFile);
      if left { return; }
      MakeOneLink(CredentialsFile);
      if left { return; }
      MakeOneLink(RSAFile);
      if left { return; }
      StartRunner();
      if left { return; }
      var alive := ProbeRunner();
      if left || alive { return; }
      ReapRunner();
      if left { return; }
      var posted := PostJson(RunnerExited);
    }

    /** The runner is killed and awaited, and the program leaves with this code. */
    method KillAndExit(code: nat)
      requires At(Running(KillRunner(code))) && !left
      modifies this
      ensures Following() && left
    {
      hide Step;
      hide State;
      hide Swept;
      var _ := Command(Running(KillRunner(code)));
      if left { return; }
      var _ := Command(Running(AwaitKilled(code)));
    }

    /** The two reports, and the wait for the runner's end. */
    method ReportAndWait()
      requires At(StartCtl(setup, SystemInfo)) && !left
      modifies this
      ensures Following() && left
    {
      hide State;
      hide Now;
      var informed := PostJson(SystemInfo);
      if left { return; }
      if !informed {
        KillAndExit(30);
        return;
      }
      var idle := PostJson(Idle);
      if left { return; }
      if !idle {
        KillAndExit(31);
        return;
      }
      AwaitAndExit();
    }

    method AwaitAndExit()
      requires At(Running(AwaitRunner)) && !left
      modifies this
      ensures Following() && left
    {
      hide Step;
      hide State;
      hide Swept;
      var o := Command(Running(AwaitRunner));
      if left { return; }
      var _ := Command(Running(ClearPid(o.code)));
    }

    /** The whole program, from the setting of the traps: it ends, and its commands are those of a run. */
    method Bootstrap()
      requires At(Installing(CheckResident)) && !left
      modifies this
      ensures Following() && left
    {
      hide State;
      hide Now;
      ProvideTree();
      if left { return; }
      FetchCredentials();
      if left { return; }
      LaunchRunner();
      if left { return; }
      ReportAndWait();
    }
  }
}

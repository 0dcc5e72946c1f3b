/** What `Create` of the VM backend makes, spelled out: the VM it asks for and the seed it stages, when it asks at all, and
    that a `Create` whose calls are served succeeds. */
module VmServed {
  import opened Text
  import opened Names
  import opened Provider
  import opened LiteralBlock
  import opened CloudInit
  import opened Vm
  import opened VmSafety
  import opened VmRespect
  import opened VmCreate
  import opened VmAnswers

  // ----- in words -----

  function NameOf(s: Site, b: Bootstrap): string {
    DigestedName(s.p.casing, s.p.digest, s.controllerID, b.name, '_')
  }

  /** The VM is the one asked for, whatever state it is in and whatever seed hangs on it. */
  predicate Ordered(s: Site, b: Bootstrap, c: Machine) {
    && c.name == NameOf(s, b)
    && c.description == Some(Ownership("semper-supra.garm-vm-owner/1", "garm-provider-truenas", s.controllerID, b.poolID,
                                       b.name, "truenas-vm-linux-general"))
    && !c.autostart && c.vcpus == 4 && c.memoryBytes == 8 * 1024 * 1024 * 1024 && Cloned(c.template)
  }

  lemma MineOrdered(s: Site, b: Bootstrap, c: Machine)
    requires Mine(s, b, c)
    ensures Ordered(s, b, c)
  {
    TemplateCloned(c.template);
    hide ExactTemplate;
    hide Cloned;
    hide DigestedName;
  }

  /** A request without line ends or NULs in what goes into the bootstrap file, and otherwise a supported one. */
  predicate Takes(b: Bootstrap) {
    && Supported(b, "truenas-vm-linux-general")
    && forall text, c | text in {b.callbackURL, b.metadataURL, b.token} && c in text :: c !in {'\r', '\n', '\0'}
  }

  lemma AcceptsTakes(b: Bootstrap)
    ensures Accepts(b) <==> Takes(b)
  {
    CommonIsSupported(b, "truenas-vm-linux-general");
    hide CommonBootstrap;
    hide Supported;
    var texts := {b.callbackURL, b.metadataURL, b.token};
    assert b.callbackURL in texts && b.metadataURL in texts && b.token in texts;
  }

  // ----- the seed -----

  /** What the bootstrap file says, line by line. */
  function BootstrapLines(tool: Tool, b: Bootstrap): seq<string> {
    ["GARM_CALLBACK_URL" + "=" + b.callbackURL, "GARM_METADATA_URL" + "=" + b.metadataURL,
     "GARM_INSTANCE_TOKEN" + "=" + b.token, "GARM_RUNNER_DOWNLOAD_URL" + "=" + tool.url,
     "GARM_RUNNER_FILENAME" + "=" + tool.filename, "GARM_RUNNER_SHA256" + "=" + tool.sha256]
  }

  lemma OneLineMore(tool: Tool, b: Bootstrap, s: Setting, rest: seq<Setting>)
    ensures EnvLinesOf(tool, b, [s] + rest) == [EnvLine(tool, b, s)] + EnvLinesOf(tool, b, rest)
  {
    assert ([s] + rest)[1..] == rest;
  }

  lemma LastInOrder(tool: Tool, b: Bootstrap)
    ensures EnvLinesOf(tool, b, [DownloadURL, Filename, SHA256])
         == [EnvLine(tool, b, DownloadURL), EnvLine(tool, b, Filename), EnvLine(tool, b, SHA256)]
  {
    hide EnvLine;
    OneLineMore(tool, b, SHA256, []);
    OneLineMore(tool, b, Filename, [SHA256]);
    OneLineMore(tool, b, DownloadURL, [Filename, SHA256]);
    assert EnvLinesOf(tool, b, []) == [];
    hide EnvLinesOf;
    assert [SHA256] == [SHA256] + [];
    assert [Filename, SHA256] == [Filename] + [SHA256];
    assert [DownloadURL, Filename, SHA256] == [DownloadURL] + [Filename, SHA256];
  }

  lemma InOrder(tool: Tool, b: Bootstrap)
    ensures EnvLines(tool, b)
         == [EnvLine(tool, b, CallbackURL), EnvLine(tool, b, MetadataURL), EnvLine(tool, b, InstanceToken),
             EnvLine(tool, b, DownloadURL), EnvLine(tool, b, Filename), EnvLine(tool, b, SHA256)]
  {
    hide EnvLine;
    LastInOrder(tool, b);
    OneLineMore(tool, b, InstanceToken, [DownloadURL, Filename, SHA256]);
    OneLineMore(tool, b, MetadataURL, [InstanceToken, DownloadURL, Filename, SHA256]);
    OneLineMore(tool, b, CallbackURL, [MetadataURL, InstanceToken, DownloadURL, Filename, SHA256]);
    hide EnvLinesOf;
    assert SETTINGS == [CallbackURL] + [MetadataURL, InstanceToken, DownloadURL, Filename, SHA256];
    assert [InstanceToken, DownloadURL, Filename, SHA256] == [InstanceToken] + [DownloadURL, Filename, SHA256];
    assert [MetadataURL, InstanceToken, DownloadURL, Filename, SHA256]
        == [MetadataURL] + [InstanceToken, DownloadURL, Filename, SHA256];
  }

  lemma LinesAre(tool: Tool, b: Bootstrap)
    ensures EnvLines(tool, b) == BootstrapLines(tool, b)
  {
    InOrder(tool, b);
    hide EnvLines;
  }

  /** The three files of a seed: the runner program and the launcher, executable, and the bootstrap file for root alone. */
  function SeedFiles(s: Site, b: Bootstrap): seq<FileEntry> {
    [FileEntry("/usr/local/libexec" + "/garm-runner-bootstrap", "0755", "root:root", s.programs.runner),
     FileEntry("/usr/local/libexec" + "/garm-bootstrap", "0755", "root:root", s.programs.launcher),
     FileEntry("/run/garm/bootstrap.env", "0600", "root:root", Unlines(BootstrapLines(s.p.contract.tool, b)))]
  }

  function MarkerOf(s: Site, b: Bootstrap): string {
    "GARM_VM_BOOTSTRAP_CONSUMED_V1:" + NameOf(s, b)
  }

  /** The command run at first boot: the launcher, told of the bootstrap file and the marker. */
  function BootCommand(s: Site, b: Bootstrap): seq<string> {
    ["runcmd:", "  - [\"" + ("/usr/local/libexec" + "/garm-bootstrap") + "\", \"" + "/run/garm/bootstrap.env" + "\", \""
                + MarkerOf(s, b) + "\"]"]
  }

  /** What the user data begins with. */
  const OPENING := [
    "#cloud-config", "users:", "  - default", "  - name: garm-runner", "    system: true", "    no_create_home: false",
    "    homedir: /home/garm-runner", "    shell: /usr/sbin/nologin", "write_files:"]

  /** What the runner is started with. */
  function RunnerSettings(tool: Tool, b: Bootstrap): map<Setting, string> {
    map[CallbackURL := b.callbackURL, MetadataURL := b.metadataURL, InstanceToken := b.token,
        DownloadURL := tool.url, Filename := tool.filename, SHA256 := tool.sha256]
  }

  /** What the seed is made of. */
  lemma SeedParts(s: Site, b: Bootstrap)
    ensures var (seed, name) := (Seed(s, b), NameOf(s, b));
            && seed.metaData == Unlines(["instance-id: " + name, "local-hostname: " + name])
            && seed.marker == MarkerOf(s, b)
  {
    hide DigestedName;
    hide EntriesText;
    hide Entries;
    hide Footer;
    hide HEADER;
    hide Unlines;
  }

  lemma Opens(s: Site, b: Bootstrap)
    ensures Unlines(OPENING) <= Seed(s, b).userData
  {
    assert HEADER == OPENING;
    hide HEADER;
    hide OPENING;
    hide DigestedName;
    hide EntriesText;
    hide Entries;
    hide Footer;
    hide Unlines;
  }

  lemma FilesAre(s: Site, b: Bootstrap)
    ensures Entries(s.programs, s.p.contract.tool, b) == SeedFiles(s, b)
  {
    LinesAre(s.p.contract.tool, b);
    hide EnvLines;
    hide BootstrapLines;
    hide Unlines;
  }

  lemma SettingsAre(tool: Tool, b: Bootstrap)
    ensures Settings(tool, b) == RunnerSettings(tool, b)
  {
    assert Settings(tool, b).Keys == RunnerSettings(tool, b).Keys;
  }

  lemma CommandIs(s: Site, b: Bootstrap)
    ensures Footer(MARKER_PREFIX + Named(s, b)) == BootCommand(s, b)
  {
    hide DigestedName;
  }

  /** The seed `Create` stages, whenever it stages one: its user data reads back as exactly the three files and the one boot
      command, its metadata names the VM, and its launcher, given the bootstrap file and the marker, consumes the file, shows
      the marker and starts the runner with the request's URLs and token and the pinned tool. */
  lemma SeedSaysTheRequest(s: Site, b: Bootstrap)
    requires s.Valid() && Takes(b) && PlainTool(s.p.contract.tool)
    requires Blockable(s.programs.runner) && Blockable(s.programs.launcher)
    ensures var (seed, name) := (Seed(s, b), NameOf(s, b));
            && seed.metaData == Unlines(["instance-id: " + name, "local-hostname: " + name])
            && seed.marker == MarkerOf(s, b)
            && Unlines(OPENING) <= seed.userData && ReadUserData(seed.userData) == Some((SeedFiles(s, b), BootCommand(s, b)))
            && Launched(Some(SeedFiles(s, b)[2].content), seed.marker)
               == Boot(None, [seed.marker], Starts(RunnerSettings(s.p.contract.tool, b)))
  {
    AcceptsTakes(b);
    DigestedNameAdmissible(s.p.casing, s.p.digest, s.controllerID, b.name, '_');
    hide DigestedName;
    hide Takes;
    hide Accepts;
    hide PlainTool;
    hide Blockable;
    hide Launched;
    hide ReadUserData;
    SeedBoots(s.programs, s.p.contract.tool, b, Named(s, b));
    FilesAre(s, b);
    SettingsAre(s.p.contract.tool, b);
    CommandIs(s, b);
    Opens(s, b);
    hide OPENING;
    hide SeedFor;
    SeedParts(s, b);
    hide Entries;
    hide SeedFiles;
    hide Settings;
    hide RunnerSettings;
    hide Footer;
    hide BootCommand;
    hide EntriesText;
    hide HEADER;
    hide Unlines;
  }

  // ----- refusals and checks -----

  lemma {:induction false} RunRests(s: Site, m: Moment, oracle: nat -> Outcome, i: nat, j: nat)
    requires i <= j && m.proc.Finished?
    ensures Run(s, m, oracle, i, j) == m
  {
    hide Step;
    if i < j {
      RunRests(s, m, oracle, i, j - 1);
      Rests(s, m, oracle(j - 1));
    }
  }

  /** A request that is not one to take is refused before any call, and one that is is not. */
  lemma RefusesExactly(s: Site, b: Bootstrap, before: World, oracle: nat -> Outcome, i: nat, j: nat)
    requires i <= j
    ensures if Takes(b) then !Creation(s, b, before, oracle, i, i).proc.Finished?
            else Creation(s, b, before, oracle, i, j) == Moment(before, Finished(Single(Err(Unsupported))))
  {
    AcceptsTakes(b);
    hide Takes;
    if !Accepts(b) { RunRests(s, Moment(before, Begin(CreateOp(b))), oracle, i, j); }
    hide Accepts;
  }

  predicate Unused(w: World, name: string) {
    forall id | id in w.machines :: w.machines[id].name != name
  }

  /** The reported version was the configured one up to outer space, and the name was free. */
  predicate Checked(s: Site, b: Bootstrap, before: World, o: Outcome) {
    TrimSpace(o.text) == TrimSpace(s.systemVersion) && Unused(before, Named(s, b))
  }

  /** How many calls `Create` has made when it comes to a step, and what they have told by then. */
  ghost predicate Passed(s: Site, b: Bootstrap, before: World, oracle: nat -> Outcome, i: nat, j: nat, m: Moment) {
    match m.proc
    case Early(_, AskVersion) => j == i
    case Early(_, AskName) => j == i + 1 && TrimSpace(oracle(i).text) == TrimSpace(s.systemVersion)
    case Early(_, AskTemplate) => j == i + 2 && Checked(s, b, before, oracle(i))
    case Early(_, AskClone(template)) => j == i + 3 && Checked(s, b, before, oracle(i)) && template == oracle(i + 2).template
    case Finished(_) => m.world.machines == before.machines || Checked(s, b, before, oracle(i))
    case _ => Checked(s, b, before, oracle(i))
  }

  lemma VersionPasses(s: Site, b: Bootstrap, w: World, o: Outcome)
    ensures var m := Step(s, Moment(w, Early(b, AskVersion)), o);
            && m.world.machines == w.machines
            && (m.proc.Finished? || (m.proc == Early(b, AskName) && TrimSpace(o.text) == TrimSpace(s.systemVersion)))
  {
    QuietCall(s.p.casing, w, SystemVersion, o);
    assert Serve(s.p.casing, w, SystemVersion, o).1.Text? ==> Serve(s.p.casing, w, SystemVersion, o).1.text == o.text;
    hide Serve;
    hide TrimSpace;
    hide Trouble;
  }

  lemma NamePasses(s: Site, b: Bootstrap, w: World, o: Outcome)
    ensures var m := Step(s, Moment(w, Early(b, AskName)), o);
            m.world.machines == w.machines && (m.proc.Finished? || (m.proc == Early(b, AskTemplate) && Unused(w, Named(s, b))))
  {
    LookupTells(s.p.casing, w, Named(s, b), o);
    hide Serve;
    hide Named;
    hide VerifyOwnership;
    hide ToInstance;
    hide Trouble;
  }

  lemma TemplatePasses(s: Site, b: Bootstrap, w: World, o: Outcome)
    ensures var m := Step(s, Moment(w, Early(b, AskTemplate)), o);
            m.world.machines == w.machines && (m.proc.Finished? || m.proc == Early(b, AskClone(o.template)))
  {
    QuietCall(s.p.casing, w, ResolveTemplate(TEMPLATE_FAMILY), o);
    assert Serve(s.p.casing, w, ResolveTemplate(TEMPLATE_FAMILY), o).1.TemplateIs? ==>
             Serve(s.p.casing, w, ResolveTemplate(TEMPLATE_FAMILY), o).1.template == o.template;
    hide Serve;
    hide ExactTemplate;
    hide Trouble;
  }

  lemma LateResumes(s: Site, b: Bootstrap, id: int, step: LateStep, r: Reply)
    ensures var p := ResumeLate(s, b, id, step, r); p.Late? || p.Finished?
  {
    hide VerifyOwnership;
    hide ToInstance;
    hide Trouble;
    hide SafeRef;
  }

  lemma CloneResumes(s: Site, b: Bootstrap, template: Template, r: Reply)
    ensures var p := ResumeEarly(s, b, AskClone(template), r); p.Late? || p.Finished?
  {
    hide VerifyOwnership;
    hide Trouble;
  }

  lemma LaterStays(s: Site, m: Moment, o: Outcome)
    requires m.proc.Late? || (m.proc.Early? && m.proc.early.AskClone?)
    ensures var p := Step(s, m, o).proc; p.Late? || p.Finished?
  {
    var r := Serve(s.p.casing, m.world, Wants(s, m.proc), o).1;
    hide Serve;
    hide Wants;
    if m.proc.Late? {
      LateResumes(s, m.proc.b, m.proc.id, m.proc.late, r);
    } else {
      CloneResumes(s, m.proc.b, m.proc.early.template, r);
    }
    hide ResumeLate;
    hide ResumeEarly;
  }

  lemma EarlyUnchanged(s: Site, b: Bootstrap, before: World, m: Moment)
    requires CreateHolds(s, b, before, m.world, m.proc)
    ensures m.proc.Early? ==> m.proc.b == b && m.world.machines == before.machines
    ensures m.proc.Early? || m.proc.Late? || m.proc.Finished?
  {
    hide LateHolds;
    hide Mine;
    hide Delivered;
    hide Adopted;
    hide OnlyNew;
    hide SeedsKept;
  }

  lemma EarlyPasses(s: Site, b: Bootstrap, before: World, oracle: nat -> Outcome, i: nat, j: nat, m: Moment)
    requires m.proc.Early? && m.proc.b == b && m.world.machines == before.machines
    requires i <= j && Passed(s, b, before, oracle, i, j, m)
    ensures Passed(s, b, before, oracle, i, j + 1, Step(s, m, oracle(j)))
  {
    hide Step;
    hide Named;
    hide TrimSpace;
    match m.proc.early
    case AskVersion => VersionPasses(s, b, m.world, oracle(j));
    case AskName => NamePasses(s, b, m.world, oracle(j));
    case AskTemplate => TemplatePasses(s, b, m.world, oracle(j));
    case AskClone(_) => LaterStays(s, m, oracle(j));
  }

  lemma PassingStep(s: Site, b: Bootstrap, before: World, oracle: nat -> Outcome, i: nat, j: nat, m: Moment)
    requires i <= j && CreateHolds(s, b, before, m.world, m.proc) && Passed(s, b, before, oracle, i, j, m)
    ensures Passed(s, b, before, oracle, i, j + 1, Step(s, m, oracle(j)))
  {
    EarlyUnchanged(s, b, before, m);
    hide CreateHolds;
    if m.proc.Finished? {
      Rests(s, m, oracle(j));
    } else if m.proc.Early? {
      EarlyPasses(s, b, before, oracle, i, j, m);
    } else {
      LaterStays(s, m, oracle(j));
    }
    hide Step;
    hide Checked;
  }

  lemma NextCreation(s: Site, b: Bootstrap, before: World, oracle: nat -> Outcome, i: nat, j: nat)
    requires i < j
    ensures Creation(s, b, before, oracle, i, j) == Step(s, Creation(s, b, before, oracle, i, j - 1), oracle(j - 1))
  {
    hide Step;
  }

  lemma RunHolds(s: Site, b: Bootstrap, before: World, oracle: nat -> Outcome, i: nat, j: nat)
    requires i <= j
    ensures var m := Creation(s, b, before, oracle, i, j); CreateHolds(s, b, before, m.world, m.proc)
  {
    CreateRunHolds(s, b, before, oracle, i, j);
    hide CreateHolds;
    hide Run;
  }

  lemma {:induction false} RunPasses(s: Site, b: Bootstrap, before: World, oracle: nat -> Outcome, i: nat, j: nat)
    requires i <= j && Accepts(b)
    ensures Passed(s, b, before, oracle, i, j, Creation(s, b, before, oracle, i, j))
  {
    hide Accepts;
    hide Step;
    hide Checked;
    hide CreateHolds;
    if i < j {
      RunPasses(s, b, before, oracle, i, j - 1);
      RunHolds(s, b, before, oracle, i, j - 1);
      PassingStep(s, b, before, oracle, i, j - 1, Creation(s, b, before, oracle, i, j - 1));
      NextCreation(s, b, before, oracle, i, j);
      hide Creation;
    }
    hide Passed;
  }

  /** A `Create` that changes the inventory at all was asked by a request to take, under the configured version, and for a
      name that no VM had. */
  lemma MadeOnlyAfterChecks(s: Site, b: Bootstrap, before: World, oracle: nat -> Outcome, i: nat, j: nat)
    requires i <= j && Creation(s, b, before, oracle, i, j).world.machines != before.machines
    ensures Takes(b) && TrimSpace(oracle(i).text) == TrimSpace(s.systemVersion) && Unused(before, NameOf(s, b))
  {
    RefusesExactly(s, b, before, oracle, i, j);
    AcceptsTakes(b);
    hide Takes;
    hide Accepts;
    hide TrimSpace;
    RunPasses(s, b, before, oracle, i, j);
    RunHolds(s, b, before, oracle, i, j);
    var m := Creation(s, b, before, oracle, i, j);
    hide Creation;
    EarlyUnchanged(s, b, before, m);
    hide CreateHolds;
    hide Unused;
    hide DigestedName;
  }

  /** The VM asked for, before TrueNAS has chosen its state and before a seed hangs on it. */
  predicate Asked(s: Site, b: Bootstrap, template: Template, c: Machine) {
    && c.name == NameOf(s, b)
    && c.description == Some(Ownership("semper-supra.garm-vm-owner/1", "garm-provider-truenas", s.controllerID, b.poolID,
                                       b.name, "truenas-vm-linux-general"))
    && !c.autostart && c.vcpus == 4 && c.memoryBytes == 8 * 1024 * 1024 * 1024 && c.template == template
  }

  lemma RequestedIsAsked(s: Site, b: Bootstrap, template: Template)
    ensures Asked(s, b, template, Requested(s, b, template))
  {
    hide DigestedName;
  }

  /** The first four calls of a `Create` that has not ended: the version, the name, the template of the family, and a clone of
      the template just resolved, as the VM asked for. */
  lemma AsksInOrder(s: Site, b: Bootstrap, before: World, oracle: nat -> Outcome, i: nat, j: nat)
    requires i <= j < i + 4 && Accepts(b) && Creation(s, b, before, oracle, i, j).proc.Early?
    ensures var call := Wants(s, Creation(s, b, before, oracle, i, j).proc);
            match j - i
            case 0 => call == SystemVersion
            case 1 => call == GetByName(NameOf(s, b))
            case 2 => call == ResolveTemplate("ubuntu-24.04-amd64-template")
            case _ =>
              var template := oracle(i + 2).template;
              call.Clone? && call.templateID == template.id && Asked(s, b, template, call.spec)
  {
    hide Accepts;
    RunPasses(s, b, before, oracle, i, j);
    RunHolds(s, b, before, oracle, i, j);
    var m := Creation(s, b, before, oracle, i, j);
    hide Creation;
    EarlyUnchanged(s, b, before, m);
    hide CreateHolds;
    if m.proc.early.AskClone? { RequestedIsAsked(s, b, m.proc.early.template); }
    hide Requested;
    hide Asked;
    hide Checked;
    hide DigestedName;
  }

  /** No VM is ever stopped by force. */
  lemma NeverForced(s: Site, p: Proc)
    requires !p.Finished?
    ensures Wants(s, p).Stop? ==> !Wants(s, p).force
  {
    hide Requested;
    hide Named;
    hide Seed;
  }

  // ----- failures -----

  /** The reply to the call a process makes next. */
  function ReplyTo(s: Site, m: Moment, o: Outcome): Reply
    requires !m.proc.Finished?
  {
    Serve(s.p.casing, m.world, Wants(s, m.proc), o).1
  }

  /** The reply is of the kind asked for and says what `Create` must not accept: another version, another template, a
      reference that is blank or holds the token, a VM that is not up or carries another seed. */
  predicate Objectionable(s: Site, p: Proc, r: Reply) {
    match p
    case Early(_, AskVersion) => r.Text? && TrimSpace(r.text) != TrimSpace(s.systemVersion)
    case Early(_, AskTemplate) => r.TemplateIs? && !Cloned(r.template)
    case Late(b, _, StageIt) => r.Ref? && (TrimSpace(r.ref) == "" || Contains(r.ref, b.token))
    case Late(b, _, ReadBack(ref)) =>
      && r.One? && VerifyOwnership(s, r.item.machine, b.poolID).Ok?
      && (!s.p.casing.EqualFold(r.item.machine.state, "RUNNING") || r.item.machine.seedRef != ref)
    case _ => false
  }

  /** A `Create` gives up with drift on what it must not accept, and with the error of the call on every error but a name that
      is not found; it never cleans up. */
  lemma GivesUpExactly(s: Site, m: Moment, o: Outcome)
    requires m.proc.Early? || m.proc.Late?
    ensures Objectionable(s, m.proc, ReplyTo(s, m, o)) ==> Step(s, m, o).proc == Finished(Single(Err(ManagedDrift)))
    ensures var r := ReplyTo(s, m, o);
            r.Failed? && !(m.proc.Early? && m.proc.early.AskName? && r.error == NotFound) ==>
              Step(s, m, o).proc == Finished(Single(Err(r.error)))
  {
    var r := ReplyTo(s, m, o);
    hide Serve;
    hide Wants;
    if m.proc.Early? {
      EarlyGivesUp(s, m.proc.b, m.proc.early, r);
    } else {
      LateGivesUp(s, m.proc.b, m.proc.id, m.proc.late, r);
    }
    hide ResumeEarly;
    hide ResumeLate;
    hide Objectionable;
  }

  lemma EarlyGivesUp(s: Site, b: Bootstrap, step: EarlyStep, r: Reply)
    ensures Objectionable(s, Early(b, step), r) ==> ResumeEarly(s, b, step, r) == Finished(Single(Err(ManagedDrift)))
    ensures r.Failed? && !(step.AskName? && r.error == NotFound) ==>
              ResumeEarly(s, b, step, r) == Finished(Single(Err(r.error)))
  {
    if r.TemplateIs? { TemplateCloned(r.template); }
    hide ExactTemplate;
    hide Cloned;
    hide VerifyOwnership;
    hide ToInstance;
    hide Admitted;
    hide TrimSpace;
  }

  lemma LateGivesUp(s: Site, b: Bootstrap, id: int, step: LateStep, r: Reply)
    ensures Objectionable(s, Late(b, id, step), r) ==> ResumeLate(s, b, id, step, r) == Finished(Single(Err(ManagedDrift)))
    ensures r.Failed? ==> ResumeLate(s, b, id, step, r) == Finished(Single(Err(r.error)))
  {
    hide VerifyOwnership;
    hide ToInstance;
    hide TrimSpace;
    hide Contains;
  }

  // ----- a name that is taken -----

  lemma NameTells(s: Site, b: Bootstrap, w: World, o: Outcome, id: int)
    requires Answered(o) && o.id == id && id in w.machines && w.machines[id].name == Named(s, b)
    ensures Step(s, Moment(w, Early(b, AskName)), o).proc
         == Finished(Single(match VerifyOwnership(s, w.machines[id], b.poolID)
                            case Err(e) => Err(e)
                            case Ok(_) => Ok(ToInstance(s, Item(id, w.machines[id]), b.poolID))))
  {
    hide InState;
    hide Named;
    hide VerifyOwnership;
    hide ToInstance;
  }

  lemma TwoCreations(s: Site, b: Bootstrap, before: World, oracle: nat -> Outcome, i: nat)
    requires Accepts(b)
    ensures Creation(s, b, before, oracle, i, i + 2)
         == Step(s, Step(s, Moment(before, Early(b, AskVersion)), oracle(i)), oracle(i + 1))
  {
    hide Step;
    hide Accepts;
    NextCreation(s, b, before, oracle, i, i + 1);
    NextCreation(s, b, before, oracle, i, i + 2);
    assert Creation(s, b, before, oracle, i, i) == Moment(before, Early(b, AskVersion));
  }

  /** A request for a name that a VM has is answered by that VM: foreign if it is not this manager's or not of the pool,
      drift if it is not settled, and otherwise the VM field by field; nothing is made. */
  lemma RepeatExactly(s: Site, b: Bootstrap, before: World, oracle: nat -> Outcome, i: nat, id: int)
    requires FindsItsName(s, b, before, oracle, i, id) && b.poolID != ""
    ensures var (m, c) := (Creation(s, b, before, oracle, i, i + 2), before.machines[id]);
            && m.world.machines == before.machines
            && m.proc == Finished(Single(match Looked(s, id, c)
                                         case Err(e) => Err(e)
                                         case Ok(_) => if c.description.value.poolID == b.poolID
                                                       then Ok(Shown(s, id, c, b.poolID)) else Err(Foreign)))
  {
    AdoptionExactly(s, b, before, oracle, i, id);
    var c := before.machines[id];
    VersionAnswers(s, b, before, oracle(i));
    TwoCreations(s, b, before, oracle, i);
    var m := Step(s, Moment(before, Early(b, AskVersion)), oracle(i));
    hide Step;
    hide Creation;
    NameTells(s, b, m.world, oracle(i + 1), id);
    OwnerLooked(s, id, c);
    InstanceShown(s, Item(id, c), b.poolID);
    hide Owner;
    hide Accepts;
    hide TrimSpace;
    hide Bears;
    hide VmAnswers.Settled;
    hide Sound;
    hide Identified;
    hide ToInstance;
    hide Shown;
    hide Named;
  }

  // ----- what is asked for -----

  /** Whenever a run of `Create` is about to start its VM: the VM is there, stopped, the one asked for, and the seed that
      hangs on it is the request's. */
  lemma StartsAsPlanned(s: Site, b: Bootstrap, before: World, oracle: nat -> Outcome, i: nat, j: nat)
    requires i <= j
    requires var p := Creation(s, b, before, oracle, i, j).proc; p.Late? && p.late.StartIt?
    ensures var Moment(w, p) := Creation(s, b, before, oracle, i, j);
            && p.id !in before.machines && p.id in w.machines
            && HasState(s, w.machines[p.id], "STOPPED") && Ordered(s, b, w.machines[p.id])
            && w.machines[p.id].seedRef in w.seeds && w.seeds[w.machines[p.id].seedRef] == Seed(s, b)
  {
    RunHolds(s, b, before, oracle, i, j);
    var m := Creation(s, b, before, oracle, i, j);
    hide Creation;
    AtStart(s, b, before, m);
    hide CreateHolds;
    MineOrdered(s, b, m.world.machines[m.proc.id]);
    hide Mine;
    hide Ordered;
    hide Seed;
  }

  lemma AtStart(s: Site, b: Bootstrap, before: World, m: Moment)
    requires CreateHolds(s, b, before, m.world, m.proc) && m.proc.Late? && m.proc.late.StartIt?
    ensures var Moment(w, p) := m;
            && p.id !in before.machines && p.id in w.machines && IsStopped(s, w.machines[p.id])
            && Mine(s, b, w.machines[p.id]) && w.machines[p.id].seedRef in w.seeds
            && w.seeds[w.machines[p.id].seedRef] == Seed(s, b)
  {
    hide Mine;
    hide IsStopped;
    hide SeedsKept;
    hide NameTaken;
    hide Seed;
    hide SafeRef;
  }

  // ----- success -----

  /** The next call is served, and what TrueNAS chooses is what an honest one would choose: the configured version, the
      template release, a fresh ID, a fresh reference that can be used, and a VM that is stopped until it is started and
      running from then on. */
  predicate Kind(s: Site, b: Bootstrap, m: Moment, o: Outcome) {
    && o.fate == Served
    && match m.proc
       case Early(_, AskVersion) => TrimSpace(o.text) == TrimSpace(s.systemVersion)
       case Early(_, AskTemplate) => Cloned(o.template)
       case Early(_, AskClone(_)) => o.id !in m.world.machines && o.state == STOPPED
       case Late(_, _, StageIt) => o.ref !in m.world.refs && SafeRef(o.ref, b.token)
       case Late(_, _, StartIt(_)) => o.state == RUNNING
       case _ => true
  }

  /** On the way to success, with `n` calls still to make. */
  predicate OnTrack(b: Bootstrap, m: Moment, n: nat) {
    match m.proc
    case Early(b', AskVersion) => b' == b && n == 8
    case Early(b', AskName) => b' == b && n == 7
    case Early(b', AskTemplate) => b' == b && n == 6
    case Early(b', AskClone(_)) => b' == b && n == 5
    case Late(b', _, StageIt) => b' == b && n == 4
    case Late(b', _, AttachIt(_)) => b' == b && n == 3
    case Late(b', _, StartIt(_)) => b' == b && n == 2
    case Late(b', id, ReadBack(_)) => b' == b && n == 1 && id in m.world.machines && m.world.machines[id].state == RUNNING
    case Finished(Single(Ok(_))) => n == 0
    case _ => false
  }

  lemma VersionTracks(s: Site, b: Bootstrap, w: World, o: Outcome)
    requires Kind(s, b, Moment(w, Early(b, AskVersion)), o)
    ensures OnTrack(b, Step(s, Moment(w, Early(b, AskVersion)), o), 7)
  {
    VersionAnswers(s, b, w, o);
    hide Step;
    hide TrimSpace;
  }

  lemma NameReply(s: Site, w: World, name: string, o: Outcome)
    requires o.fate == Served && Unused(w, name)
    ensures Serve(s.p.casing, w, GetByName(name), o).1 == Failed(NotFound)
  {
    hide InState;
  }

  lemma NameTracks(s: Site, b: Bootstrap, w: World, o: Outcome)
    requires o.fate == Served && Unused(w, Named(s, b))
    ensures OnTrack(b, Step(s, Moment(w, Early(b, AskName)), o), 6)
  {
    NameReply(s, w, Named(s, b), o);
    hide Named;
    hide VerifyOwnership;
    hide Serve;
    hide Unused;
  }

  lemma TemplateTracks(s: Site, b: Bootstrap, w: World, o: Outcome)
    requires Kind(s, b, Moment(w, Early(b, AskTemplate)), o)
    ensures OnTrack(b, Step(s, Moment(w, Early(b, AskTemplate)), o), 5)
  {
    TemplateCloned(o.template);
    hide Cloned;
    hide ExactTemplate;
    assert Serve(s.p.casing, w, ResolveTemplate(TEMPLATE_FAMILY), o).1 == TemplateIs(o.template) by { hide InState; }
    hide Serve;
  }

  lemma CloneVerifies(s: Site, b: Bootstrap, template: Template, o: Outcome)
    requires s.Valid() && ExactTemplate(template) && o.state == STOPPED
    ensures var made := Made(Requested(s, b, template), o);
            VerifyOwnership(s, made, b.poolID) == Ok(Unit.Unit) && IsStopped(s, made) && made.name == Named(s, b)
  {
    var made := Made(Requested(s, b, template), o);
    assert Mine(s, b, made) by { hide ExactTemplate; hide Named; hide OwnerRecord; }
    MineIsSound(s, b, made);
    assert s.p.casing.upper(STOPPED) == STOPPED;
    hide ExactTemplate;
    hide Identified;
    hide Sound;
    hide InPool;
    hide Named;
    hide OwnerRecord;
  }

  lemma CloneTracks(s: Site, b: Bootstrap, w: World, template: Template, o: Outcome)
    requires s.Valid() && ExactTemplate(template) && Kind(s, b, Moment(w, Early(b, AskClone(template))), o)
    requires Unused(w, Named(s, b))
    ensures OnTrack(b, Step(s, Moment(w, Early(b, AskClone(template))), o), 4)
  {
    CloneTells(s.p.casing, w, template.id, Requested(s, b, template), o);
    CloneVerifies(s, b, template, o);
    hide ExactTemplate;
    assert Makes(w, Requested(s, b, template), o) by { hide Named; hide OwnerRecord; }
    hide Requested;
    hide Made;
    hide Makes;
    hide Serve;
    hide VerifyOwnership;
    hide IsStopped;
    hide Named;
    hide Unused;
    hide SafeRef;
    hide Cloned;
    hide TrimSpace;
  }

  lemma StageReply(casing: CaseMaps, w: World, id: int, seed: SeedSpec, o: Outcome)
    requires o.fate == Served && id in w.machines && o.ref !in w.refs
    ensures Serve(casing, w, StageSeed(id, seed), o).1 == Ref(o.ref)
  {
    hide InState;
  }

  lemma StageTracks(s: Site, b: Bootstrap, m: Moment, o: Outcome)
    requires m.proc.Late? && m.proc.late.StageIt? && m.proc.b == b && m.proc.id in m.world.machines && Kind(s, b, m, o)
    ensures OnTrack(b, Step(s, m, o), 3)
  {
    StageReply(s.p.casing, m.world, m.proc.id, Seed(s, b), o);
    hide Serve;
    hide Seed;
    hide SafeRef;
  }

  lemma AttachReply(casing: CaseMaps, w: World, id: int, ref: string, o: Outcome)
    requires o.fate == Served && id in w.machines && ref in w.seeds && !Seeded(w.machines[id])
    ensures Serve(casing, w, AttachSeed(id, ref), o).1 == Acknowledged
  {
    hide InState;
    hide Seeded;
  }

  lemma AttachTracks(s: Site, b: Bootstrap, m: Moment, o: Outcome)
    requires m.proc.Late? && m.proc.late.AttachIt? && m.proc.b == b && o.fate == Served
    requires m.proc.id in m.world.machines && m.proc.late.ref in m.world.seeds && !Seeded(m.world.machines[m.proc.id])
    ensures OnTrack(b, Step(s, m, o), 2)
  {
    AttachReply(s.p.casing, m.world, m.proc.id, m.proc.late.ref, o);
    hide Serve;
    hide Seeded;
  }

  lemma StartTracks(s: Site, b: Bootstrap, m: Moment, o: Outcome)
    requires m.proc.Late? && m.proc.late.StartIt? && m.proc.b == b && m.proc.id in m.world.machines && Kind(s, b, m, o)
    ensures OnTrack(b, Step(s, m, o), 1)
  {
    PowerTells(s.p.casing, m.world, m.proc.id, Start(m.proc.id), o);
    hide Serve;
  }

  lemma RunningVerifies(s: Site, b: Bootstrap, c: Machine)
    requires s.Valid() && Mine(s, b, c) && c.state == RUNNING
    ensures VerifyOwnership(s, c, b.poolID) == Ok(Unit.Unit) && IsRunning(s, c)
  {
    MineIsSound(s, b, c);
    assert s.p.casing.upper(RUNNING) == RUNNING;
    hide Mine;
    hide Identified;
    hide Sound;
    hide InPool;
  }

  lemma ReadTracks(s: Site, b: Bootstrap, m: Moment, o: Outcome)
    requires m.proc.Late? && m.proc.late.ReadBack? && m.proc.b == b && o.fate == Served && m.proc.id in m.world.machines
    requires m.world.machines[m.proc.id].seedRef == m.proc.late.ref
    requires VerifyOwnership(s, m.world.machines[m.proc.id], b.poolID) == Ok(Unit.Unit)
    requires IsRunning(s, m.world.machines[m.proc.id])
    ensures OnTrack(b, Step(s, m, o), 0)
  {
    GetReply(s.p.casing, m.world, m.proc.id, o);
    hide Serve;
    hide VerifyOwnership;
    hide IsRunning;
    hide ToInstance;
  }

  lemma AtHand(s: Site, b: Bootstrap, before: World, m: Moment)
    requires CreateHolds(s, b, before, m.world, m.proc) && m.proc.Late?
    ensures m.proc.b == b && m.proc.id in m.world.machines && Mine(s, b, m.world.machines[m.proc.id])
    ensures m.proc.late.AttachIt? ==> m.proc.late.ref in m.world.seeds && m.world.machines[m.proc.id].seedRef == ""
    ensures m.proc.late.ReadBack? ==> m.world.machines[m.proc.id].seedRef == m.proc.late.ref
  {
    hide Mine;
    hide IsStopped;
    hide SeedsKept;
    hide NameTaken;
    hide Seed;
    hide SafeRef;
  }

  lemma Unhung(c: Machine)
    requires c.seedRef == ""
    ensures !Seeded(c)
  {
    assert TrimSpace("") == "";
  }

  lemma LateTracks(s: Site, b: Bootstrap, before: World, m: Moment, o: Outcome, n: nat)
    requires s.Valid() && CreateHolds(s, b, before, m.world, m.proc) && m.proc.Late?
    requires Kind(s, b, m, o) && OnTrack(b, m, n)
    ensures n > 0 && OnTrack(b, Step(s, m, o), n - 1)
  {
    hide Step;
    hide CreateHolds;
    hide Mine;
    hide IsRunning;
    hide Seeded;
    hide SafeRef;
    AtHand(s, b, before, m);
    var c := m.world.machines[m.proc.id];
    match m.proc.late
    case StageIt => StageTracks(s, b, m, o);
    case AttachIt(_) => Unhung(c); AttachTracks(s, b, m, o);
    case StartIt(_) => StartTracks(s, b, m, o);
    case ReadBack(_) => RunningVerifies(s, b, c); ReadTracks(s, b, m, o);
  }

  lemma EarlyTracks(s: Site, b: Bootstrap, m: Moment, o: Outcome, n: nat)
    requires s.Valid() && m.proc.Early? && Kind(s, b, m, o) && OnTrack(b, m, n) && Unused(m.world, Named(s, b))
    requires m.proc.early.AskClone? ==> ExactTemplate(m.proc.early.template)
    ensures n > 0 && OnTrack(b, Step(s, m, o), n - 1)
  {
    hide Step;
    hide Unused;
    hide ExactTemplate;
    hide Cloned;
    hide Named;
    hide TrimSpace;
    match m.proc.early
    case AskVersion => VersionTracks(s, b, m.world, o);
    case AskName => NameTracks(s, b, m.world, o);
    case AskTemplate => TemplateTracks(s, b, m.world, o);
    case AskClone(template) => CloneTracks(s, b, m.world, template, o);
  }

  lemma EarlyExact(s: Site, b: Bootstrap, before: World, m: Moment)
    requires CreateHolds(s, b, before, m.world, m.proc) && m.proc.Early? && m.proc.early.AskClone?
    ensures ExactTemplate(m.proc.early.template)
  {
    hide ExactTemplate;
    hide SeedsKept;
  }

  /** One kind answer brings a `Create` on its way one call closer to success. */
  lemma StepTracks(s: Site, b: Bootstrap, before: World, m: Moment, o: Outcome, n: nat)
    requires s.Valid() && CreateHolds(s, b, before, m.world, m.proc)
    requires Kind(s, b, m, o) && OnTrack(b, m, n) && n > 0 && Unused(before, Named(s, b))
    ensures OnTrack(b, Step(s, m, o), n - 1)
  {
    assert m.proc.Early? || m.proc.Late?;
    EarlyUnchanged(s, b, before, m);
    if m.proc.Early? && m.proc.early.AskClone? { EarlyExact(s, b, before, m); }
    hide Named;
    hide OnTrack;
    hide Kind;
    hide Step;
    hide CreateHolds;
    hide ExactTemplate;
    if m.proc.Early? { EarlyTracks(s, b, m, o, n); } else { LateTracks(s, b, before, m, o, n); }
  }

  predicate AllKind(s: Site, b: Bootstrap, before: World, oracle: nat -> Outcome, i: nat, j: nat)
    requires i <= j
  {
    forall k | i <= k < j :: Kind(s, b, Creation(s, b, before, oracle, i, k), oracle(k))
  }

  lemma KindEarlier(s: Site, b: Bootstrap, before: World, oracle: nat -> Outcome, i: nat, j: nat)
    requires i < j && AllKind(s, b, before, oracle, i, j)
    ensures AllKind(s, b, before, oracle, i, j - 1)
    ensures Kind(s, b, Creation(s, b, before, oracle, i, j - 1), oracle(j - 1))
  {
    hide Kind;
    hide Creation;
  }

  lemma BeginsOn(s: Site, b: Bootstrap, before: World, oracle: nat -> Outcome, i: nat)
    requires Accepts(b)
    ensures OnTrack(b, Creation(s, b, before, oracle, i, i), 8)
  {
    hide Accepts;
    hide Step;
  }

  lemma {:induction false} RunTracks(s: Site, b: Bootstrap, before: World, oracle: nat -> Outcome, i: nat, j: nat, n: nat)
    requires s.Valid() && Accepts(b) && i <= j && j + n == i + 8 && AllKind(s, b, before, oracle, i, j)
    requires Unused(before, Named(s, b))
    ensures OnTrack(b, Creation(s, b, before, oracle, i, j), n)
    decreases j
  {
    hide Kind;
    hide OnTrack;
    hide Accepts;
    hide CreateHolds;
    hide Step;
    hide Run;
    hide Unused;
    hide Named;
    if i == j { BeginsOn(s, b, before, oracle, i); return; }
    KindEarlier(s, b, before, oracle, i, j);
    hide AllKind;
    RunTracks(s, b, before, oracle, i, j - 1, n + 1);
    RunHolds(s, b, before, oracle, i, j - 1);
    NextCreation(s, b, before, oracle, i, j);
    StepTracks(s, b, before, Creation(s, b, before, oracle, i, j - 1), oracle(j - 1), n + 1);
  }

  /** The VM a successful `Create` has made: the one asked for, up, with the request's own seed on it. */
  predicate Completed(s: Site, b: Bootstrap, w: World, id: int) {
    && id in w.machines && Ordered(s, b, w.machines[id]) && HasState(s, w.machines[id], "RUNNING")
    && w.machines[id].seedRef in w.seeds && w.seeds[w.machines[id].seedRef] == Seed(s, b)
  }

  lemma EndsFresh(s: Site, b: Bootstrap, before: World, m: Moment)
    requires CreateHolds(s, b, before, m.world, m.proc) && OnTrack(b, m, 0) && Unused(before, Named(s, b))
    ensures m.proc.Finished? && m.proc.answer.Single? && m.proc.answer.instance.Ok?
    ensures exists id :: OnlyNew(before, m.world, id) && Mine(s, b, m.world.machines[id])
              && Delivered(s, b, m.world, id, m.proc.answer.instance.value)
  {
    hide Mine;
    hide Named;
    hide Delivered;
    hide VerifyOwnership;
    hide ToInstance;
    hide LateHolds;
    hide SeedsKept;
  }

  lemma DeliveredIsCompleted(s: Site, b: Bootstrap, w: World, id: int, instance: Instance)
    requires id in w.machines && Mine(s, b, w.machines[id]) && Delivered(s, b, w, id, instance)
    ensures Completed(s, b, w, id) && instance == Shown(s, id, w.machines[id], b.poolID)
  {
    MineOrdered(s, b, w.machines[id]);
    InstanceShown(s, Item(id, w.machines[id]), b.poolID);
    hide Ordered;
    hide Mine;
    hide VerifyOwnership;
    hide ToInstance;
    hide Shown;
    hide Seed;
    hide SafeRef;
  }

  /** A `Create` whose calls are served, asked by a request to take for a name that is free, succeeds after its eight calls:
      one VM is added and no other has changed, it is the one asked for, up, with its own seed, and the instance handed out
      shows it, field by field. */
  lemma CreateSucceeds(s: Site, b: Bootstrap, before: World, oracle: nat -> Outcome, i: nat)
    requires s.Valid() && Takes(b) && AllKind(s, b, before, oracle, i, i + 8) && Unused(before, NameOf(s, b))
    ensures var m := Creation(s, b, before, oracle, i, i + 8);
            exists id :: id !in before.machines && Completed(s, b, m.world, id)
              && m.world.machines == before.machines[id := m.world.machines[id]]
              && m.proc == Finished(Single(Ok(Shown(s, id, m.world.machines[id], b.poolID))))
  {
    AcceptsTakes(b);
    hide Takes;
    hide Accepts;
    hide AllKind;
    assert Unused(before, Named(s, b));
    hide Unused;
    hide DigestedName;
    RunTracks(s, b, before, oracle, i, i + 8, 0);
    RunHolds(s, b, before, oracle, i, i + 8);
    var m := Creation(s, b, before, oracle, i, i + 8);
    hide Creation;
    EndsFresh(s, b, before, m);
    hide CreateHolds;
    hide OnTrack;
    hide Mine;
    hide Delivered;
    var id :| OnlyNew(before, m.world, id) && Mine(s, b, m.world.machines[id])
              && Delivered(s, b, m.world, id, m.proc.answer.instance.value);
    DeliveredIsCompleted(s, b, m.world, id, m.proc.answer.instance.value);
    hide Shown;
    hide Completed;
  }

  // ----- it happens -----

  /** A reference that does not hold the token. */
  function PlainRef(token: string): string {
    if token == "s" then "t" else "s"
  }

  lemma PlainRefIsSafe(token: string)
    requires token != ""
    ensures SafeRef(PlainRef(token), token)
  {
    var ref := PlainRef(token);
    assert TrimLeft(ref, White) == ref;
    assert ref[1..] == "" && !(token <= "");
    assert !Contains(ref[1..], token);
  }

  /** An empty appliance that serves every call of a `Create`. */
  function Honest(s: Site, b: Bootstrap): nat -> Outcome {
    k => Outcome(Served, s.systemVersion, PINNED_TEMPLATE, 1, if k == 6 then RUNNING else STOPPED, PlainRef(b.token), [1], {})
  }

  lemma HonestEarly(s: Site, b: Bootstrap, m: Moment, k: nat)
    requires k < 8 && m.proc.Early? && OnTrack(b, m, 8 - k) && m.world.machines == map[]
    ensures Kind(s, b, m, Honest(s, b)(k))
  {
    PinnedIsExact();
    TemplateCloned(PINNED_TEMPLATE);
    hide PINNED_TEMPLATE;
    hide ExactTemplate;
    hide Cloned;
    hide TrimSpace;
    hide SafeRef;
    hide PlainRef;
  }

  lemma HonestLate(s: Site, b: Bootstrap, m: Moment, k: nat)
    requires k < 8 && m.proc.Late? && OnTrack(b, m, 8 - k) && b.token != ""
    requires m.proc.late.StageIt? ==> m.world.refs == {}
    ensures Kind(s, b, m, Honest(s, b)(k))
  {
    PlainRefIsSafe(b.token);
    hide PINNED_TEMPLATE;
    hide SafeRef;
    hide PlainRef;
  }

  /** No reference has been handed out before the seed is staged. */
  lemma {:induction false} RefsStayEmpty(s: Site, b: Bootstrap, oracle: nat -> Outcome, j: nat)
    requires var p := Creation(s, b, EMPTY, oracle, 0, j).proc; p.Early? || (p.Late? && p.late.StageIt?)
    ensures Creation(s, b, EMPTY, oracle, 0, j).world.refs == {}
  {
    hide Step;
    if j > 0 {
      NextCreation(s, b, EMPTY, oracle, 0, j);
      RunHolds(s, b, EMPTY, oracle, 0, j - 1);
      var m := Creation(s, b, EMPTY, oracle, 0, j - 1);
      hide Creation;
      EarlyUnchanged(s, b, EMPTY, m);
      hide CreateHolds;
      StagesFromEarly(s, m, oracle(j - 1));
      RefsStayEmpty(s, b, oracle, j - 1);
    }
  }

  lemma StagesFromEarly(s: Site, m: Moment, o: Outcome)
    requires m.proc.Early? || m.proc.Late? || m.proc.Finished?
    requires var p := Step(s, m, o).proc; p.Early? || (p.Late? && p.late.StageIt?)
    ensures m.proc.Early? && Step(s, m, o).world.refs == m.world.refs
  {
    if m.proc.Late? {
      LateNeverStages(s, m.proc.b, m.proc.id, m.proc.late, Serve(s.p.casing, m.world, Wants(s, m.proc), o).1);
    }
    if m.proc.Early? { EarlyKeepsRefs(s, m.world, EarlyCall(s, m.proc.b, m.proc.early), o); }
    hide Serve;
    hide ResumeEarly;
    hide ResumeLate;
    hide LateCall;
    hide EarlyCall;
  }

  lemma LateNeverStages(s: Site, b: Bootstrap, id: int, step: LateStep, r: Reply)
    ensures var p := ResumeLate(s, b, id, step, r); !p.Early? && !(p.Late? && p.late.StageIt?)
  {
    hide VerifyOwnership;
    hide ToInstance;
    hide Trouble;
    hide SafeRef;
  }

  lemma EarlyKeepsRefs(s: Site, w: World, call: Call, o: Outcome)
    requires !call.StageSeed?
    ensures Serve(s.p.casing, w, call, o).0.refs == w.refs
  {
    hide InState;
    hide Enumerates;
    hide Itemized;
    hide NameTaken;
    hide Seeded;
  }

  lemma TracksUnfinished(b: Bootstrap, m: Moment, n: nat)
    requires OnTrack(b, m, n) && n > 0
    ensures m.proc.Early? || m.proc.Late?
  {
  }

  lemma HonestAt(s: Site, b: Bootstrap, j: nat)
    requires s.Valid() && Accepts(b) && b.token != "" && j < 8 && AllKind(s, b, EMPTY, Honest(s, b), 0, j)
    ensures Kind(s, b, Creation(s, b, EMPTY, Honest(s, b), 0, j), Honest(s, b)(j))
  {
    hide Kind;
    hide Accepts;
    hide Named;
    hide Honest;
    hide Creation;
    hide AllKind;
    hide OnTrack;
    hide CreateHolds;
    RunTracks(s, b, EMPTY, Honest(s, b), 0, j, 8 - j);
    RunHolds(s, b, EMPTY, Honest(s, b), 0, j);
    var m := Creation(s, b, EMPTY, Honest(s, b), 0, j);
    EarlyUnchanged(s, b, EMPTY, m);
    TracksUnfinished(b, m, 8 - j);
    if m.proc.Late? {
      if m.proc.late.StageIt? { RefsStayEmpty(s, b, Honest(s, b), j); }
      HonestLate(s, b, m, j);
    } else {
      HonestEarly(s, b, m, j);
    }
  }

  lemma KindLonger(s: Site, b: Bootstrap, before: World, oracle: nat -> Outcome, j: nat)
    requires AllKind(s, b, before, oracle, 0, j) && Kind(s, b, Creation(s, b, before, oracle, 0, j), oracle(j))
    ensures AllKind(s, b, before, oracle, 0, j + 1)
  {
    hide Kind;
    hide Creation;
  }

  lemma {:induction false} AllHonest(s: Site, b: Bootstrap, j: nat)
    requires s.Valid() && Accepts(b) && b.token != "" && j <= 8
    ensures AllKind(s, b, EMPTY, Honest(s, b), 0, j)
  {
    hide Kind;
    hide Accepts;
    hide Honest;
    hide Creation;
    if j > 0 {
      AllHonest(s, b, j - 1);
      hide AllKind;
      HonestAt(s, b, j - 1);
      KindLonger(s, b, EMPTY, Honest(s, b), j - 1);
    }
  }

  /** On an empty appliance every request to take is served like that. */
  lemma HonestServes(s: Site, b: Bootstrap)
    requires s.Valid() && Takes(b)
    ensures AllKind(s, b, EMPTY, Honest(s, b), 0, 8)
  {
    AcceptsTakes(b);
    TokenThere(b);
    hide Takes;
    hide Accepts;
    AllHonest(s, b, 8);
    hide AllKind;
  }

  lemma TokenThere(b: Bootstrap)
    requires Takes(b)
    ensures b.token != ""
  {
    assert TrimSpace("") == "";
    assert b.token in {b.name, b.poolID, b.callbackURL, b.metadataURL, b.token};
    hide TrimSpace;
  }
}

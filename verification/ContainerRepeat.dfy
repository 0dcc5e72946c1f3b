/** What repeating a request makes of the container an earlier `Create` left behind, wherever that one stopped. */
module ContainerRepeat {
  import opened Text
  import opened Names
  import opened Provider
  import opened Paths
  import opened Container
  import opened ContainerStaging
  import opened ContainerSafety
  import opened ContainerCreate
  import opened ContainerFailure

  predicate Resolved(image: Image) {
    image.name == IMAGE_FAMILY && !Blank(image.version)
  }

  /** As requested in everything but its power state; once scrubbed, it has a root. */
  predicate Outfitted(s: Site, b: Bootstrap, c: Container) {
    && c.description == Some(OwnerRecord(s, b)) && Resolved(c.image)
    && !c.autostart && c.idMap == PLAIN_POLICY && c.capabilities == PLAIN_POLICY
    && ((c.init == BOOTSTRAP_INIT && c.env == InitialEnv(s, b)) || (Scrubbed(c) && RootOf(c).Some?))
  }

  /** What a `Create` keeps of the container it makes. */
  ghost predicate Outfits(s: Site, b: Bootstrap, before: World, m: Moment) {
    && (m.proc.Early? && m.proc.early.AskCreate? ==> Resolved(m.proc.early.image))
    && forall id | id in m.world.containers && id !in before.containers :: Outfitted(s, b, m.world.containers[id])
  }

  lemma AskedResolved(s: Site, b: Bootstrap, step: EarlyStep, r: Reply)
    ensures var p := ResumeEarly(s, b, step, r); p.Early? && p.early.AskCreate? ==> Resolved(p.early.image)
  {
    hide VerifyOwnership;
    hide ToInstance;
    hide TrimSpace;
    hide Trouble;
    if step.AskCreate? && r.One? { AdmittedShape(s, b, r.item); }
    hide Admitted;
  }

  lemma MadeOutfitted(s: Site, b: Bootstrap, image: Image, o: Outcome)
    requires Resolved(image)
    ensures Outfitted(s, b, Made(Requested(s, b, image), o))
  {
    hide Named;
    hide InitialEnv;
  }

  /** A call other than `Create` changes a container's power state, or what it starts with, or nothing. */
  lemma CallAlters(casing: CaseMaps, w: World, call: Call, o: Outcome, id: int)
    requires !call.Create? && id in Serve(casing, w, call, o).0.containers
    ensures id in w.containers
    ensures var (c, d) := (w.containers[id], Serve(casing, w, call, o).0.containers[id]);
            d == c.(state := d.state) || (call.Update? && call.id == id && d == c.(init := call.init, env := call.env))
  {
    hide Wipes;
    hide Itemized;
    hide NameTaken;
    hide Enumerates;
    hide ByteLength;
  }

  lemma AlteredOutfitted(s: Site, b: Bootstrap, c: Container, d: Container)
    requires Outfitted(s, b, c)
    requires d == c.(state := d.state) || (d == c.(init := DEFAULT_INIT, env := map[]) && RootOf(c).Some?)
    ensures Outfitted(s, b, d)
  {
    hide OwnerRecord;
    hide InitialEnv;
    hide Mountpoint;
    hide Resolved;
  }

  lemma MakingOutfits(s: Site, b: Bootstrap, before: World, w: World, image: Image, o: Outcome)
    requires w.containers == before.containers && Resolved(image)
    ensures forall id | id in Serve(s.p.casing, w, Create(Requested(s, b, image)), o).0.containers && id !in before.containers ::
              Outfitted(s, b, Serve(s.p.casing, w, Create(Requested(s, b, image)), o).0.containers[id])
  {
    CreateTells(s.p.casing, w, Requested(s, b, image), o);
    MadeOutfitted(s, b, image, o);
    hide Serve;
    hide Outfitted;
    hide Requested;
    hide Made;
    hide Makes;
  }

  lemma ScrubIsTheUpdate(s: Site, p: Proc)
    requires p.Early? || p.Late? || p.Cleanup?
    ensures Wants(s, p).Update? ==> p.Late? && Wants(s, p) == Update(p.id, DEFAULT_INIT, map[])
    ensures Wants(s, p).Create? ==> p.Early? && p.early.AskCreate? && Wants(s, p) == Create(Requested(s, p.b, p.early.image))
  {
    hide Requested;
    hide Named;
    hide TokenFile;
  }

  lemma StepOutfits(s: Site, b: Bootstrap, before: World, m: Moment, o: Outcome)
    requires CreateHolds(s, b, before, m.world, m.proc) && Outfits(s, b, before, m)
    ensures Outfits(s, b, before, Step(s, m, o))
  {
    hide Serve;
    hide Outfitted;
    hide Resolved;
    hide Resume;
    hide Wants;
    if !m.proc.Finished? {
      var call := Wants(s, m.proc);
      ResumedOutfits(s, b, m.proc, Serve(s.p.casing, m.world, call, o).1);
      ScrubIsTheUpdate(s, m.proc);
      if call.Create? {
        MakingOutfits(s, b, before, m.world, m.proc.early.image, o);
      } else {
        var w := Serve(s.p.casing, m.world, call, o).0;
        if call.Update? { RootAtHand(s, b, before, m.world, m.proc); }
        hide CreateHolds;
        hide RootOf;
        forall id | id in w.containers && id !in before.containers ensures Outfitted(s, b, w.containers[id]) {
          CallAlters(s.p.casing, m.world, call, o, id);
          AlteredOutfitted(s, b, m.world.containers[id], w.containers[id]);
        }
      }
    }
  }

  lemma ResumedOutfits(s: Site, b: Bootstrap, p: Proc, r: Reply)
    requires p.Early? || p.Late? || p.Cleanup?
    requires p.Early? ==> p.b == b
    ensures var q := Resume(s, p, r); q.Early? && q.early.AskCreate? ==> Resolved(q.early.image)
  {
    if p.Early? { AskedResolved(s, b, p.early, r); }
    hide ResumeEarly;
    hide StagingPath;
    hide VerifyOwnership;
    hide ReadsBack;
    hide ToInstance;
  }

  lemma {:induction false} RunOutfits(s: Site, b: Bootstrap, before: World, oracle: nat -> Outcome, i: nat, j: nat)
    requires s.Valid() && i <= j
    ensures Outfits(s, b, before, Creation(s, b, before, oracle, i, j))
  {
    hide Step;
    hide Outfitted;
    hide CreateHolds;
    if i < j {
      RunOutfits(s, b, before, oracle, i, j - 1);
      CreateRunHolds(s, b, before, oracle, i, j - 1);
      StepOutfits(s, b, before, Creation(s, b, before, oracle, i, j - 1), oracle(j - 1));
    }
  }

  lemma RootedDataset(dataset: string, name: string)
    requires Mountpoint(dataset, name).Some?
    ensures !Blank(dataset)
  {
    assert Split(Trim("", Only('/')), '/') == [""];
  }

  /** The container a `Create` left, wherever it stopped, is handed out to the repeated request if and only if the scrub
      took effect and it is running or stopped. Its files are not asked about, so after a cut between the scrub and the
      proof that the token file is gone nothing looks for that file again. */
  lemma LeftIsAdoptedExactly(s: Site, b: Bootstrap, before: World, oracle: nat -> Outcome, i: nat, j: nat, id: int,
                             again: nat -> Outcome, k: nat)
    requires s.Valid() && i <= j && id !in before.containers && id in Creation(s, b, before, oracle, i, j).world.containers
    requires FindsItsName(s, b, Creation(s, b, before, oracle, i, j).world, again, k, id)
    ensures var left := Creation(s, b, before, oracle, i, j).world;
            var c := left.containers[id];
            var m := Creation(s, b, left, again, k, k + 2);
            var state := s.p.casing.upper(c.state);
            && m.proc.Finished? && m.proc.answer.Single?
            && (m.proc.answer.instance == Ok(ToInstance(s, Item(id, c), b.poolID)) <==>
                c.init == DEFAULT_INIT && (state == RUNNING || state == STOPPED))
  {
    RunOutfits(s, b, before, oracle, i, j);
    var left := Creation(s, b, before, oracle, i, j).world;
    AdoptionExactly(s, b, left, again, k, id);
    hide Creation;
    hide ToInstance;
    hide FindsItsName;
    OutfittedSteady(s, b, left.containers[id]);
    hide Outfitted;
    hide Steady;
    hide Identified;
    hide InPool;
  }

  lemma OutfittedSteady(s: Site, b: Bootstrap, c: Container)
    requires Outfitted(s, b, c)
    ensures Identified(s, c) && InPool(c, b.poolID)
    ensures Steady(s.p.casing, c) <==>
              c.init == DEFAULT_INIT && (s.p.casing.upper(c.state) == RUNNING || s.p.casing.upper(c.state) == STOPPED)
  {
    hide InitialEnv;
    hide Blank;
    if RootOf(c).Some? { RootedDataset(c.dataset, c.name); }
    hide Mountpoint;
    InitsDiffer();
    hide BOOTSTRAP_INIT;
    hide DEFAULT_INIT;
  }

  lemma InitsDiffer()
    ensures BOOTSTRAP_INIT != DEFAULT_INIT
  {
    assert BOOTSTRAP_INIT[1] != DEFAULT_INIT[1];
  }

  // ----- it happens -----

  const EMPTY := World(map[], map[])
  const LUCKY_IMAGE := Image(IMAGE_FAMILY, "1")

  /** Every call is served, the container stops and starts as it is told, and no init wrapper gets to its token file. */
  function AllServed(s: Site, b: Bootstrap): nat -> Outcome {
    k => Outcome(Served, s.systemVersion, LUCKY_IMAGE, 1, if k == 10 then RUNNING else STOPPED,
                 DatasetOf("tank", Named(s, b)), [1], {})
  }

  /** A call that is served while no wrapper is at work does what it says and nothing else. */
  lemma ServedPlainly(casing: CaseMaps, w: World, call: Call, o: Outcome)
    requires o.fate == Served && o.wiped == {}
    ensures Serve(casing, w, call, o) == Effect(w, call, o)
  {
    assert Wiped(casing, w, {}) == w;
    hide Effect;
  }

  lemma CreationNext(s: Site, b: Bootstrap, before: World, oracle: nat -> Outcome, k: nat)
    ensures Creation(s, b, before, oracle, 0, k + 1) == Step(s, Creation(s, b, before, oracle, 0, k), oracle(k))
  {
    hide Step;
  }

  lemma CreationStarts(s: Site, b: Bootstrap, before: World, oracle: nat -> Outcome)
    requires Accepts(b)
    ensures Creation(s, b, before, oracle, 0, 0) == Moment(before, Early(b, AskVersion))
  {
    hide Accepts;
  }

  lemma VersionGoes(s: Site, b: Bootstrap, o: Outcome)
    requires o.fate == Served && o.wiped == {} && o.text == s.systemVersion
    ensures Step(s, Moment(EMPTY, Early(b, AskVersion)), o) == Moment(EMPTY, Early(b, AskName))
  {
    ServedPlainly(s.p.casing, EMPTY, SystemVersion, o);
    hide Serve;
    hide TrimSpace;
  }

  lemma NameGoes(s: Site, b: Bootstrap, o: Outcome)
    requires o.fate == Served && o.wiped == {}
    ensures Step(s, Moment(EMPTY, Early(b, AskName)), o) == Moment(EMPTY, Early(b, AskImage))
  {
    ServedPlainly(s.p.casing, EMPTY, GetByName(Named(s, b)), o);
    hide Serve;
    hide Named;
    hide VerifyOwnership;
  }

  lemma ImageGoes(s: Site, b: Bootstrap, o: Outcome)
    requires o.fate == Served && o.wiped == {} && o.image == LUCKY_IMAGE
    ensures Step(s, Moment(EMPTY, Early(b, AskImage)), o) == Moment(EMPTY, Early(b, AskCreate(LUCKY_IMAGE)))
  {
    ServedPlainly(s.p.casing, EMPTY, ResolveImage(IMAGE_FAMILY), o);
    hide Serve;
    LuckyResolved();
    hide LUCKY_IMAGE;
  }

  lemma LuckyResolved()
    ensures Resolved(LUCKY_IMAGE)
  {
    assert TrimLeft("1", White) == "1";
  }

  function LuckyContainer(s: Site, b: Bootstrap, dataset: string): Container {
    Requested(s, b, LUCKY_IMAGE).(state := STOPPED, dataset := dataset)
  }

  lemma CreateServed(s: Site, b: Bootstrap, o: Outcome)
    requires o.id == 1 && o.state == STOPPED
    ensures var made := LuckyContainer(s, b, o.dataset);
            Effect(EMPTY, Create(Requested(s, b, LUCKY_IMAGE)), o) == (World(map[1 := made], map[]), One(Item(1, made)))
  {
    hide Mountpoint;
    hide Requested;
    hide LUCKY_IMAGE;
    hide STOPPED;
    assert Unclaimed(EMPTY, Requested(s, b, LUCKY_IMAGE).name, o.dataset);
    hide Unclaimed;
  }

  lemma CreateReplies(s: Site, b: Bootstrap, o: Outcome)
    requires o.fate == Served && o.wiped == {} && o.id == 1 && o.state == STOPPED
    ensures var made := LuckyContainer(s, b, o.dataset);
            Serve(s.p.casing, EMPTY, Create(Requested(s, b, LUCKY_IMAGE)), o)
            == (World(map[1 := made], map[]), One(Item(1, made)))
  {
    hide Serve;
    hide Effect;
    hide LuckyContainer;
    hide Requested;
    hide LUCKY_IMAGE;
    ServedPlainly(s.p.casing, EMPTY, Create(Requested(s, b, LUCKY_IMAGE)), o);
    CreateServed(s, b, o);
  }

  lemma CreateGoes(s: Site, b: Bootstrap, o: Outcome, mount: string)
    requires s.Valid() && o.fate == Served && o.wiped == {} && o.id == 1 && o.state == STOPPED
    requires Mountpoint(o.dataset, Named(s, b)) == Some(mount)
    ensures Step(s, Moment(EMPTY, Early(b, AskCreate(LUCKY_IMAGE))), o)
         == Moment(World(map[1 := LuckyContainer(s, b, o.dataset)], map[]), NextFile(b, 1, mount, Files(s, b)))
  {
    hide Serve;
    hide Files;
    hide Mountpoint;
    hide Named;
    hide LuckyContainer;
    hide Requested;
    hide LUCKY_IMAGE;
    hide Admitted;
    hide NextFile;
    CreateReplies(s, b, o);
    LuckyAdmitted(s, b, o.dataset, mount);
  }

  lemma LuckyAdmitted(s: Site, b: Bootstrap, dataset: string, mount: string)
    requires s.Valid() && Mountpoint(dataset, Named(s, b)) == Some(mount)
    ensures Admitted(s, b, Item(1, LuckyContainer(s, b, dataset))) == NextFile(b, 1, mount, Files(s, b))
  {
    LuckyVerified(s, b, dataset);
    hide VerifyBootstrap;
    hide Mountpoint;
    hide Named;
    hide InitialEnv;
    hide NextFile;
    hide Files;
    hide LUCKY_IMAGE;
    hide BOOTSTRAP_INIT;
    hide PLAIN_POLICY;
  }

  lemma LuckyVerified(s: Site, b: Bootstrap, dataset: string)
    requires s.Valid() && Mountpoint(dataset, Named(s, b)).Some?
    ensures VerifyBootstrap(s, LuckyContainer(s, b, dataset), b) == Ok(Unit.Unit)
  {
    RootedDataset(dataset, Named(s, b));
    LuckyResolved();
    hide LUCKY_IMAGE;
    hide IMAGE_FAMILY;
    hide Blank;
    hide Mountpoint;
    hide Named;
    hide InitialEnv;
    hide BOOTSTRAP_INIT;
    hide OWNER_SCHEMA;
    hide MANAGED_BY;
    hide FLAVOR;
    hide PLAIN_POLICY;
  }

  // ----- the files -----

  lemma FileGoes(s: Site, b: Bootstrap, m: Moment, file: Staged, full: string, todo: seq<Staged>, mount: string, put: Outcome,
                 stat: Outcome)
    requires put.fate == Served && put.wiped == {} && stat.fate == Served && stat.wiped == {} && file.mode < 0x200
    requires m.proc == Late(b, 1, mount, PutIt(file, full, todo))
    ensures Step(s, Step(s, m, put), stat)
         == Moment(World(m.world.containers, m.world.files[full := File(file.content, file.mode)]), NextFile(b, 1, mount, todo))
  {
    ServedPlainly(s.p.casing, m.world, PutFile(full, file.content, file.mode), put);
    var next := Step(s, m, put);
    assert next == Moment(World(m.world.containers, m.world.files[full := File(file.content, file.mode)]),
                          Late(b, 1, mount, StatIt(file, full, todo))) by { hide Serve; }
    ServedPlainly(s.p.casing, next.world, StatFile(full), stat);
    ModeReads(file.mode);
    hide Serve;
    hide NextFile;
    hide ByteLength;
  }

  lemma ModeReads(mode: nat)
    requires mode < 0x200
    ensures (REGULAR_FILE + mode) % 0x200 == mode
  {
  }

  lemma NextIs(s: Site, b: Bootstrap, mount: string, k: nat)
    requires RootedMount(mount) && k <= 3
    ensures var files := Files(s, b);
            && |files| == 3
            && NextFile(b, 1, mount, files[k..])
               == if k == 3 then Late(b, 1, mount, StartIt)
                  else Late(b, 1, mount, PutIt(files[k], mount + files[k].path, files[k + 1..]))
  {
    var files := Files(s, b);
    if k < 3 {
      assert files[k] in files && files[k..][0] == files[k] && files[k..][1..] == files[k + 1..];
      PlanStaged(s, b, mount, files[k]);
    }
    hide Files;
    hide StagingPath;
  }

  lemma PowerGoes(s: Site, b: Bootstrap, m: Moment, mount: string, start: Outcome, scrub: Outcome)
    requires start.fate == Served && start.wiped == {} && scrub.fate == Served && scrub.wiped == {}
    requires m.proc == Late(b, 1, mount, StartIt) && 1 in m.world.containers
    ensures Step(s, Step(s, m, start), scrub)
         == Moment(World(m.world.containers[1 := m.world.containers[1].(state := start.state, init := DEFAULT_INIT, env := map[])],
                         m.world.files), Late(b, 1, mount, ReadBack))
  {
    ServedPlainly(s.p.casing, m.world, Start(1), start);
    var next := Step(s, m, start);
    assert next == Moment(World(m.world.containers[1 := m.world.containers[1].(state := start.state)], m.world.files),
                          Late(b, 1, mount, Scrub)) by { hide Serve; }
    ServedPlainly(s.p.casing, next.world, Update(1, DEFAULT_INIT, map[]), scrub);
    hide Serve;
    hide DEFAULT_INIT;
  }

  // ----- the run -----

  lemma NamedRoot(s: Site, b: Bootstrap) returns (mount: string)
    requires s.Valid()
    ensures Mountpoint(DatasetOf("tank", Named(s, b)), Named(s, b)) == Some(mount) && RootedMount(mount)
  {
    var n := Named(s, b);
    DigestedNameAdmissible(s.p.casing, s.p.digest, s.controllerID, b.name, '-');
    assert n[0] == 'g' && n[|n| - 1] in n;
    assert Component(n);
    TrimEnds(n, White);
    assert Trimmed("tank") by { TrimEnds("tank", White); }
    hide Named;
    DatasetAccepted("tank", n);
    MountIsRooted(DatasetOf("tank", n), n);
    mount := Mountpoint(DatasetOf("tank", n), n).value;
    hide Mountpoint;
  }

  lemma ReachFiles(s: Site, b: Bootstrap, mount: string)
    requires s.Valid() && Accepts(b) && RootedMount(mount)
    requires Mountpoint(DatasetOf("tank", Named(s, b)), Named(s, b)) == Some(mount)
    ensures Creation(s, b, EMPTY, AllServed(s, b), 0, 4)
         == Moment(World(map[1 := LuckyContainer(s, b, DatasetOf("tank", Named(s, b)))], map[]),
                   NextFile(b, 1, mount, Files(s, b)))
  {
    var oracle := AllServed(s, b);
    hide Accepts;
    hide Step;
    hide Mountpoint;
    hide Named;
    hide LUCKY_IMAGE;
    hide NextFile;
    hide RootedMount;
    CreationStarts(s, b, EMPTY, oracle);
    CreationNext(s, b, EMPTY, oracle, 0);
    CreationNext(s, b, EMPTY, oracle, 1);
    CreationNext(s, b, EMPTY, oracle, 2);
    CreationNext(s, b, EMPTY, oracle, 3);
    hide Creation;
    VersionGoes(s, b, oracle(0));
    NameGoes(s, b, oracle(1));
    ImageGoes(s, b, oracle(2));
    CreateGoes(s, b, oracle(3), mount);
  }

  lemma FileStaged(s: Site, b: Bootstrap, mount: string, n: nat, k: nat)
    requires RootedMount(mount) && n < 3 && k + 1 < 10
    requires Creation(s, b, EMPTY, AllServed(s, b), 0, k).proc == NextFile(b, 1, mount, Files(s, b)[n..])
    ensures var m := Creation(s, b, EMPTY, AllServed(s, b), 0, k);
            var file := Files(s, b)[n];
            Creation(s, b, EMPTY, AllServed(s, b), 0, k + 2)
            == Moment(World(m.world.containers, m.world.files[mount + file.path := File(file.content, file.mode)]),
                      NextFile(b, 1, mount, Files(s, b)[n + 1..]))
  {
    var oracle := AllServed(s, b);
    hide Step;
    CreationNext(s, b, EMPTY, oracle, k);
    CreationNext(s, b, EMPTY, oracle, k + 1);
    hide Creation;
    NextIs(s, b, mount, n);
    var (m, file) := (Creation(s, b, EMPTY, oracle, 0, k), Files(s, b)[n]);
    PlanModes(s, b, file);
    FileGoes(s, b, m, file, mount + file.path, Files(s, b)[n + 1..], mount, oracle(k), oracle(k + 1));
    hide NextFile;
    hide Files;
  }

  lemma PlanModes(s: Site, b: Bootstrap, file: Staged)
    requires file in Files(s, b)
    ensures file.mode < 0x200
  {
  }

  lemma ReachOne(s: Site, b: Bootstrap, mount: string)
    requires s.Valid() && Accepts(b) && RootedMount(mount)
    requires Mountpoint(DatasetOf("tank", Named(s, b)), Named(s, b)) == Some(mount)
    ensures var m := Creation(s, b, EMPTY, AllServed(s, b), 0, 6);
            && |Files(s, b)| == 3 && m.proc == NextFile(b, 1, mount, Files(s, b)[1..])
            && m.world.containers == map[1 := LuckyContainer(s, b, DatasetOf("tank", Named(s, b)))]
  {
    hide Mountpoint;
    hide Accepts;
    hide RootedMount;
    hide Creation;
    hide AllServed;
    hide Named;
    hide Files;
    hide NextFile;
    hide LuckyContainer;
    ReachFiles(s, b, mount);
    TokenIsLast(s, b);
    assert Files(s, b)[0..] == Files(s, b);
    FileStaged(s, b, mount, 0, 4);
  }

  lemma ReachTwo(s: Site, b: Bootstrap, mount: string)
    requires s.Valid() && Accepts(b) && RootedMount(mount)
    requires Mountpoint(DatasetOf("tank", Named(s, b)), Named(s, b)) == Some(mount)
    ensures var m := Creation(s, b, EMPTY, AllServed(s, b), 0, 8);
            && |Files(s, b)| == 3 && m.proc == NextFile(b, 1, mount, Files(s, b)[2..])
            && m.world.containers == map[1 := LuckyContainer(s, b, DatasetOf("tank", Named(s, b)))]
  {
    hide Mountpoint;
    hide Accepts;
    hide RootedMount;
    hide Creation;
    hide AllServed;
    hide Named;
    hide Files;
    hide NextFile;
    hide LuckyContainer;
    ReachOne(s, b, mount);
    FileStaged(s, b, mount, 1, 6);
  }

  lemma ReachStaged(s: Site, b: Bootstrap, mount: string)
    requires s.Valid() && Accepts(b) && RootedMount(mount)
    requires Mountpoint(DatasetOf("tank", Named(s, b)), Named(s, b)) == Some(mount)
    ensures var m := Creation(s, b, EMPTY, AllServed(s, b), 0, 10);
            && m.proc == Late(b, 1, mount, StartIt)
            && m.world.containers == map[1 := LuckyContainer(s, b, DatasetOf("tank", Named(s, b)))]
            && mount + TOKEN_PATH in m.world.files && m.world.files[mount + TOKEN_PATH].content == b.token
  {
    hide Mountpoint;
    hide Accepts;
    hide RootedMount;
    hide Creation;
    hide AllServed;
    hide Named;
    hide Files;
    hide NextFile;
    hide LuckyContainer;
    hide TOKEN_PATH;
    ReachTwo(s, b, mount);
    TokenIsLast(s, b);
    FileStaged(s, b, mount, 2, 8);
    NextIs(s, b, mount, 3);
  }

  lemma TokenIsLast(s: Site, b: Bootstrap)
    ensures |Files(s, b)| == 3 && Files(s, b)[2].path == TOKEN_PATH && Files(s, b)[2].content == b.token
  {
  }

  /** The run comes to the moment after the scrub, with the token still lying where it was staged. */
  lemma ReachScrubbed(s: Site, b: Bootstrap, mount: string)
    requires s.Valid() && Accepts(b) && RootedMount(mount)
    requires Mountpoint(DatasetOf("tank", Named(s, b)), Named(s, b)) == Some(mount)
    ensures var m := Creation(s, b, EMPTY, AllServed(s, b), 0, 12);
            && m.world.containers
               == map[1 := LuckyContainer(s, b, DatasetOf("tank", Named(s, b))).(state := RUNNING, init := DEFAULT_INIT, env := map[])]
            && mount + TOKEN_PATH in m.world.files && m.world.files[mount + TOKEN_PATH].content == b.token
  {
    hide Mountpoint;
    hide Accepts;
    hide RootedMount;
    hide Step;
    hide LuckyContainer;
    hide TOKEN_PATH;
    hide Named;
    hide RUNNING;
    hide DEFAULT_INIT;
    ReachStaged(s, b, mount);
    TwoSteps(s, b, AllServed(s, b), 10);
    hide Creation;
    PowerGoes(s, b, Creation(s, b, EMPTY, AllServed(s, b), 0, 10), mount, AllServed(s, b)(10), AllServed(s, b)(11));
  }

  lemma TwoSteps(s: Site, b: Bootstrap, oracle: nat -> Outcome, k: nat)
    ensures Creation(s, b, EMPTY, oracle, 0, k + 2)
         == Step(s, Step(s, Creation(s, b, EMPTY, oracle, 0, k), oracle(k)), oracle(k + 1))
  {
    hide Step;
    CreationNext(s, b, EMPTY, oracle, k);
    CreationNext(s, b, EMPTY, oracle, k + 1);
  }

  lemma FindsAgain(s: Site, b: Bootstrap, left: World)
    requires Accepts(b) && 1 in left.containers && left.containers[1].name == Named(s, b)
    ensures FindsItsName(s, b, left, AllServed(s, b), 0, 1)
  {
    hide Accepts;
    hide TrimSpace;
    hide Named;
  }

  lemma UpperStates(casing: Casing)
    ensures casing.upper(RUNNING) == RUNNING
  {
  }

  lemma LuckyScrubbed(s: Site, b: Bootstrap, mount: string, c: Container)
    requires s.Valid() && Mountpoint(DatasetOf("tank", Named(s, b)), Named(s, b)) == Some(mount)
    requires c == LuckyContainer(s, b, DatasetOf("tank", Named(s, b))).(state := RUNNING, init := DEFAULT_INIT, env := map[])
    ensures c.name == Named(s, b) && RootOf(c) == Some(mount)
    ensures c.init == DEFAULT_INIT && s.p.casing.upper(c.state) == RUNNING
  {
    hide Named;
    hide Mountpoint;
    hide InitialEnv;
    hide LUCKY_IMAGE;
    UpperStates(s.p.casing);
    hide DEFAULT_INIT;
  }

  /** For every manager and every request it accepts: a `Create` that dies right after the scrub, with every call served,
      leaves a running container whose token file is still under its root, and the repeated request is handed that
      container as a finished one. */
  lemma ScrubbedHandedOut(s: Site, b: Bootstrap)
    requires s.Valid() && Accepts(b)
    ensures var left := Creation(s, b, EMPTY, AllServed(s, b), 0, 12).world;
            && 1 in left.containers && RootOf(left.containers[1]).Some?
            && RootOf(left.containers[1]).value + TOKEN_PATH in left.files
            && left.files[RootOf(left.containers[1]).value + TOKEN_PATH].content == b.token
            && Creation(s, b, left, AllServed(s, b), 0, 2).proc
               == Finished(Single(Ok(ToInstance(s, Item(1, left.containers[1]), b.poolID))))
  {
    hide Creation;
    hide FindsItsName;
    hide AllServed;
    hide RootOf;
    hide Accepts;
    hide Named;
    hide LuckyContainer;
    hide TOKEN_PATH;
    hide ToInstance;
    hide RUNNING;
    hide STOPPED;
    hide DEFAULT_INIT;
    var mount := NamedRoot(s, b);
    hide Mountpoint;
    hide RootedMount;
    ReachScrubbed(s, b, mount);
    var left := Creation(s, b, EMPTY, AllServed(s, b), 0, 12).world;
    LuckyScrubbed(s, b, mount, left.containers[1]);
    FindsAgain(s, b, left);
    LeftIsAdoptedExactly(s, b, EMPTY, AllServed(s, b), 0, 12, 1, AllServed(s, b), 0);
  }
}

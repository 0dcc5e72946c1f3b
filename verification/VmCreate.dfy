/** What `Create` of the VM backend promises over whole runs, and what its repetition makes of a half-made VM. */
module VmCreate {
  import opened Text
  import opened Names
  import opened Provider
  import opened LiteralBlock
  import opened CloudInit
  import opened Vm
  import opened VmSafety
  import opened VmRespect

  /** The run made a VM and hands it out running and owned, with the request's own seed hanging on it. */
  ghost predicate MadeFresh(s: Site, b: Bootstrap, before: World, w: World, instance: Instance) {
    exists id :: OnlyNew(before, w, id) && Delivered(s, b, w, id, instance)
  }

  /** Whatever TrueNAS did, an instance returned by `Create` is an existing sound VM of that name, with the inventory
      untouched, or one the run made. */
  lemma CreateDelivers(s: Site, b: Bootstrap, before: World, oracle: nat -> Outcome, i: nat, j: nat, instance: Instance)
    requires i <= j && Creation(s, b, before, oracle, i, j).proc == Finished(Single(Ok(instance)))
    ensures var w := Creation(s, b, before, oracle, i, j).world;
            || (w.machines == before.machines && Adopted(s, b, before, instance))
            || MadeFresh(s, b, before, w, instance)
  {
    hide Run;
    CreateRunHolds(s, b, before, oracle, i, j);
    hide Creation;
    hide Adopted;
    hide Delivered;
    hide OnlyNew;
    hide Mine;
    hide SeedsKept;
  }

  predicate Answered(o: Outcome) {
    o.fate == Served || o.fate == Ignored
  }

  /** The name query of a repeated `Create` finds VM `id`. */
  predicate FindsItsName(s: Site, b: Bootstrap, before: World, oracle: nat -> Outcome, i: nat, id: int) {
    && Accepts(b)
    && Answered(oracle(i)) && TrimSpace(oracle(i).text) == TrimSpace(s.systemVersion)
    && Answered(oracle(i + 1)) && oracle(i + 1).id == id
    && id in before.machines && before.machines[id].name == Named(s, b)
  }

  /** A repeated `Create` adopts the VM of its name exactly when owner, pool and runtime check out; the seed reference
      is not looked at. */
  lemma AdoptionExactly(s: Site, b: Bootstrap, before: World, oracle: nat -> Outcome, i: nat, id: int)
    requires FindsItsName(s, b, before, oracle, i, id)
    ensures var m := Creation(s, b, before, oracle, i, i + 2);
            var found := before.machines[id];
            && m.world.machines == before.machines && m.proc.Finished? && m.proc.answer.Single?
            && (m.proc.answer.instance == Ok(ToInstance(s, Item(id, found), b.poolID)) <==>
                Identified(s, found) && Sound(s.p.casing, found) && InPool(found, b.poolID))
  {
    VersionAnswers(s, b, before, oracle(i));
    var m := Step(s, Moment(before, Early(b, AskVersion)), oracle(i));
    hide Step;
    assert Creation(s, b, before, oracle, i, i + 1) == Step(s, Creation(s, b, before, oracle, i, i), oracle(i));
    assert Creation(s, b, before, oracle, i, i) == Moment(before, Early(b, AskVersion));
    NameAnswers(s, b, m.world, oracle(i + 1), id);
    hide Accepts;
    hide TrimSpace;
    hide VerifyOwnership;
    hide Sound;
    hide Identified;
    hide InPool;
    hide ToInstance;
    hide Named;
    assert Creation(s, b, before, oracle, i, i + 2) == Step(s, m, oracle(i + 1));
  }

  lemma VersionAnswers(s: Site, b: Bootstrap, w: World, o: Outcome)
    requires Answered(o) && TrimSpace(o.text) == TrimSpace(s.systemVersion)
    ensures var m := Step(s, Moment(w, Early(b, AskVersion)), o);
            m.proc == Early(b, AskName) && m.world.machines == w.machines
  {
    hide InState;
    hide TrimSpace;
    hide ResumeLate;
    hide ResumeLook;
    hide ResumeReconcile;
    hide ResumeDelete;
    hide ResumeSweep;
  }

  lemma NameAnswers(s: Site, b: Bootstrap, w: World, o: Outcome, id: int)
    requires Answered(o) && o.id == id && id in w.machines && w.machines[id].name == Named(s, b)
    ensures var m := Step(s, Moment(w, Early(b, AskName)), o);
            var found := w.machines[id];
            && m.world.machines == w.machines && m.proc.Finished? && m.proc.answer.Single?
            && (m.proc.answer.instance == Ok(ToInstance(s, Item(id, found), b.poolID)) <==>
                Identified(s, found) && Sound(s.p.casing, found) && InPool(found, b.poolID))
  {
    hide InState;
    hide Sound;
    hide Identified;
    hide InPool;
    hide ToInstance;
    hide Named;
    hide ResumeLate;
    hide ResumeLook;
    hide ResumeReconcile;
    hide ResumeDelete;
    hide ResumeSweep;
  }

  /** Unlike a container, a VM whose creation died at any point after the clone passes as a finished one: repeating the
      request hands it out, seed or no seed, exactly when it is running or stopped. */
  lemma HalfMadeIsAdopted(s: Site, b: Bootstrap, before: World, oracle: nat -> Outcome, i: nat, j: nat, id: int,
                          again: nat -> Outcome, k: nat)
    requires i <= j && id !in before.machines && id in Creation(s, b, before, oracle, i, j).world.machines
    requires FindsItsName(s, b, Creation(s, b, before, oracle, i, j).world, again, k, id)
    ensures var left := Creation(s, b, before, oracle, i, j).world;
            var m := Creation(s, b, left, again, k, k + 2);
            var state := s.p.casing.upper(left.machines[id].state);
            && m.proc.Finished? && m.proc.answer.Single?
            && (m.proc.answer.instance == Ok(ToInstance(s, Item(id, left.machines[id]), b.poolID)) <==>
                state == RUNNING || state == STOPPED)
  {
    hide Run;
    hide CreateHolds;
    hide FindsItsName;
    hide RUNNING;
    hide STOPPED;
    hide Mine;
    CreateRunHolds(s, b, before, oracle, i, j);
    var left := Creation(s, b, before, oracle, i, j).world;
    CreationRespects(s, b, before, left, Creation(s, b, before, oracle, i, j).proc);
    hide Respects;
    AdoptionExactly(s, b, left, again, k, id);
    hide Creation;
    MineIsSound(s, b, left.machines[id]);
    hide Identified;
    hide Sound;
    hide InPool;
    hide ToInstance;
  }

  lemma MineIsSound(s: Site, b: Bootstrap, m: Machine)
    requires Mine(s, b, m)
    ensures Identified(s, m) && InPool(m, b.poolID)
    ensures var state := s.p.casing.upper(m.state); Sound(s.p.casing, m) <==> state == RUNNING || state == STOPPED
  {
    hide ExactTemplate;
    hide Named;
    hide RUNNING;
    hide STOPPED;
    hide OWNER_SCHEMA;
    hide MANAGED_BY;
    hide FLAVOR;
  }

  // ----- it happens -----

  const EMPTY := World(map[], map[], {}, {})

  /** Every call is served. */
  function AllServed(s: Site): nat -> Outcome {
    k => Outcome(Served, s.systemVersion, PINNED_TEMPLATE, 1, STOPPED, "s", [1], {})
  }

  lemma CreationNext(s: Site, b: Bootstrap, before: World, oracle: nat -> Outcome, k: nat)
    ensures Creation(s, b, before, oracle, 0, k + 1) == Step(s, Creation(s, b, before, oracle, 0, k), oracle(k))
  {
    hide Step;
  }

  lemma NameMissing(s: Site, b: Bootstrap, w: World, o: Outcome)
    requires o.fate == Served && w.machines == map[]
    ensures var m := Step(s, Moment(w, Early(b, AskName)), o); m.proc == Early(b, AskTemplate) && m.world.machines == map[]
  {
    hide Named;
    hide InState;
    hide ResumeLate;
    hide ResumeLook;
    hide ResumeReconcile;
    hide ResumeDelete;
    hide ResumeSweep;
  }

  lemma TemplateGiven(s: Site, b: Bootstrap, w: World, o: Outcome)
    requires o.fate == Served && w.machines == map[] && o.template == PINNED_TEMPLATE
    ensures var m := Step(s, Moment(w, Early(b, AskTemplate)), o);
            m.proc == Early(b, AskClone(PINNED_TEMPLATE)) && m.world.machines == map[]
  {
    PinnedIsExact();
    hide ExactTemplate;
    hide PINNED_TEMPLATE;
    hide InState;
    hide ResumeLate;
    hide ResumeLook;
    hide ResumeReconcile;
    hide ResumeDelete;
    hide ResumeSweep;
  }

  lemma PinnedIsExact()
    ensures ExactTemplate(PINNED_TEMPLATE)
  {
  }

  lemma CloneMade(s: Site, b: Bootstrap, w: World, o: Outcome)
    requires o.fate == Served && w.machines == map[]
    ensures Step(s, Moment(w, Early(b, AskClone(PINNED_TEMPLATE))), o).world.machines
         == map[o.id := Made(Requested(s, b, PINNED_TEMPLATE), o)]
  {
    hide PINNED_TEMPLATE;
    hide Named;
    CloneTells(s.p.casing, w, PINNED_TEMPLATE.id, Requested(s, b, PINNED_TEMPLATE), o);
    hide Serve;
    hide Resume;
  }

  lemma ReachClone(s: Site, b: Bootstrap)
    requires Accepts(b)
    ensures Creation(s, b, EMPTY, AllServed(s), 0, 4).world.machines
         == map[1 := Made(Requested(s, b, PINNED_TEMPLATE), AllServed(s)(3))]
  {
    hide PINNED_TEMPLATE;
    hide Accepts;
    hide TrimSpace;
    hide Creation;
    hide Step;
    hide Requested;
    hide Made;
    var oracle := AllServed(s);
    CreationStarts(s, b, EMPTY, oracle);
    CreationNext(s, b, EMPTY, oracle, 0);
    VersionAnswers(s, b, EMPTY, oracle(0));
    CreationNext(s, b, EMPTY, oracle, 1);
    NameMissing(s, b, Creation(s, b, EMPTY, oracle, 0, 1).world, oracle(1));
    CreationNext(s, b, EMPTY, oracle, 2);
    TemplateGiven(s, b, Creation(s, b, EMPTY, oracle, 0, 2).world, oracle(2));
    CreationNext(s, b, EMPTY, oracle, 3);
    CloneMade(s, b, Creation(s, b, EMPTY, oracle, 0, 3).world, oracle(3));
  }

  lemma FindsAgain(s: Site, b: Bootstrap, left: World)
    requires Accepts(b) && 1 in left.machines && left.machines[1].name == Named(s, b)
    ensures FindsItsName(s, b, left, AllServed(s), 0, 1)
  {
    hide Accepts;
    hide TrimSpace;
    hide Named;
    hide PINNED_TEMPLATE;
  }

  lemma BareVM(s: Site, b: Bootstrap)
    requires s.Valid()
    ensures var vm := Made(Requested(s, b, PINNED_TEMPLATE), AllServed(s)(3));
            !Seeded(vm) && vm.name == Named(s, b) && s.p.casing.upper(vm.state) == STOPPED
  {
    hide PINNED_TEMPLATE;
    hide Named;
  }

  /** For every manager and every request it accepts: a `Create` that dies right after the clone, with every call served,
      leaves a VM without a seed, and the repeated request is handed that VM as a finished one. */
  lemma HalfMadeHandedOut(s: Site, b: Bootstrap)
    requires s.Valid() && Accepts(b)
    ensures var left := Creation(s, b, EMPTY, AllServed(s), 0, 4).world;
            && 1 in left.machines && !Seeded(left.machines[1])
            && Creation(s, b, left, AllServed(s), 0, 2).proc
               == Finished(Single(Ok(ToInstance(s, Item(1, left.machines[1]), b.poolID))))
  {
    hide PINNED_TEMPLATE;
    hide Accepts;
    hide Creation;
    hide FindsItsName;
    hide AllServed;
    hide Requested;
    hide Made;
    hide Named;
    hide Seeded;
    hide ToInstance;
    hide RUNNING;
    hide STOPPED;
    ReachClone(s, b);
    BareVM(s, b);
    FindsAgain(s, b, Creation(s, b, EMPTY, AllServed(s), 0, 4).world);
    HalfMadeIsAdopted(s, b, EMPTY, AllServed(s), 0, 4, 1, AllServed(s), 0);
  }

  lemma CreationStarts(s: Site, b: Bootstrap, before: World, oracle: nat -> Outcome)
    requires Accepts(b)
    ensures Creation(s, b, before, oracle, 0, 0) == Moment(before, Early(b, AskVersion))
  {
    hide Accepts;
  }

  // ----- the seed -----

  /** The seed `Create` stages for any request it accepts is one that boots: its user data reads back as three files,
      and the launcher, given the last of them and the seed's marker, starts the runner with exactly the request's URLs
      and token and the pinned tool. */
  lemma StagedSeedBoots(s: Site, b: Bootstrap)
    requires s.Valid() && Accepts(b) && PlainTool(s.p.contract.tool)
    requires Blockable(s.programs.runner) && Blockable(s.programs.launcher)
    ensures var seed := Seed(s, b);
            var read := ReadUserData(seed.userData);
            && read.Some? && |read.value.0| == 3 && read.value.0[2].path == ENV_PATH
            && Launched(Some(read.value.0[2].content), seed.marker)
               == Boot(None, [seed.marker], Starts(Settings(s.p.contract.tool, b)))
  {
    hide PlainTool;
    hide Accepts;
    hide Blockable;
    hide Launched;
    hide ReadUserData;
    hide SeedFor;
    hide Settings;
    hide ENV_PATH;
    hide DigestedName;
    hide Footer;
    DigestedNameAdmissible(s.p.casing, s.p.digest, s.controllerID, b.name, '_');
    SeedBoots(s.programs, s.p.contract.tool, b, Named(s, b));
  }
}

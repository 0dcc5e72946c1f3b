/** Seed discipline: whatever managers run, interleaved call by call and dying anywhere, no VM is left with a seed that
    no longer exists, and no two VMs share one. */
module VmSeeds {
  import opened Text
  import opened Names
  import opened Provider
  import opened CloudInit
  import opened Vm
  import opened VmSafety
  import opened VmRespect

  /** A seed hanging on a VM exists, was handed out once, and hangs on no other VM. */
  ghost predicate SeedsSound(w: World) {
    && w.seeds.Keys <= w.refs
    && (forall id | id in w.machines && Seeded(w.machines[id]) :: w.machines[id].seedRef in w.seeds)
    && forall id, id' | id in w.machines && id' in w.machines && id != id' && Seeded(w.machines[id]) ::
         w.machines[id].seedRef != w.machines[id'].seedRef
  }

  /** No VM has this seed. */
  ghost predicate Loose(w: World, ref: string) {
    forall id | id in w.machines :: w.machines[id].seedRef != ref
  }

  datatype Job = Job(site: Site, proc: Proc)

  datatype System = System(world: World, jobs: map<nat, Job>)

  datatype Happening =
    | Launch(pid: nat, site: Site, op: Op)
    | Advance(pid: nat, o: Outcome)
    | Outside(world: World)

  function Happen(sys: System, h: Happening): System {
    match h
    case Launch(pid, site, op) =>
      if pid in sys.jobs then sys else sys.(jobs := sys.jobs[pid := Job(site, Begin(op))])
    case Advance(pid, o) =>
      if pid !in sys.jobs then sys
      else
        var job := sys.jobs[pid];
        var next := Step(job.site, Moment(sys.world, job.proc), o);
        System(next.world, sys.jobs[pid := job.(proc := next.proc)])
    case Outside(world) => sys.(world := world)
  }

  /** Others may start, stop, add, change and remove VMs, but hang no seed on one; and a detachment TrueNAS acknowledges
      has happened. */
  ghost predicate Permitted(sys: System, h: Happening) {
    match h
    case Launch(_, _, _) => true
    case Advance(pid, o) =>
      pid in sys.jobs && !sys.jobs[pid].proc.Finished? && Wants(sys.jobs[pid].site, sys.jobs[pid].proc).DetachSeed?
      ==> o.fate != Ignored
    case Outside(world) =>
      && world.seeds == sys.world.seeds && world.refs == sys.world.refs
      && forall id | id in world.machines && Seeded(world.machines[id]) ::
           id in sys.world.machines && world.machines[id].seedRef == sys.world.machines[id].seedRef
  }

  function Play(sys: System, hs: seq<Happening>): System
    decreases |hs|
  {
    if hs == [] then sys else Happen(Play(sys, hs[..|hs| - 1]), hs[|hs| - 1])
  }

  ghost predicate AllPermitted(sys: System, hs: seq<Happening>)
    decreases |hs|
  {
    hs != [] ==>
      var init := hs[..|hs| - 1];
      AllPermitted(sys, init) && Permitted(Play(sys, init), hs[|hs| - 1])
  }

  // ----- the references processes have in hand -----

  /** A reference the process has staged and is about to hang on its VM. */
  function Staging(p: Proc): Option<string> {
    if p.Late? && p.late.AttachIt? then Some(p.late.ref) else None
  }

  /** A reference the process has taken off a VM and is about to delete. */
  function Dropping(p: Proc): Option<string> {
    if p.Reconciling? && p.reconcile.Drop? then Some(p.reconcile.ref)
    else if p.Deleting? && p.step.DropFirst? then Some(p.step.ref)
    else None
  }

  /** A reference the process has seen on a VM and may take off it. */
  function Seen(p: Proc): Option<string> {
    if p.Reconciling? && (p.reconcile.AskConsumed? || p.reconcile.Unhook?) then Some(p.reconcile.ref)
    else if p.Deleting? && p.step.UnhookFirst? then Some(p.step.ref)
    else None
  }

  ghost predicate HandsRight(w: World, p: Proc) {
    && (Staging(p).Some? ==>
          var ref := Staging(p).value; ref in w.seeds && ref in w.refs && Loose(w, ref) && !Blank(ref))
    && (Dropping(p).Some? ==> var ref := Dropping(p).value; ref in w.refs && Loose(w, ref) && !Blank(ref))
    && (Seen(p).Some? ==> Seen(p).value in w.refs && !Blank(Seen(p).value))
  }

  /** What one process is about to hang, no other process is about to hang or delete. */
  predicate Apart(p: Proc, q: Proc) {
    Staging(p).Some? ==> Staging(q) != Staging(p) && Dropping(q) != Staging(p)
  }

  ghost predicate Disciplined(sys: System) {
    && SeedsSound(sys.world)
    && (forall pid | pid in sys.jobs :: HandsRight(sys.world, sys.jobs[pid].proc))
    && (forall pid, pid' | pid in sys.jobs && pid' in sys.jobs && pid != pid' :: Apart(sys.jobs[pid].proc, sys.jobs[pid'].proc))
  }

  // ----- one call of one process -----

  /** What one call of a process holding `p` may do to the world, seen by the others: they keep what they have in hand. */
  ghost predicate Tolerates(w: World, w': World, p: Proc) {
    && w.refs <= w'.refs
    && (forall ref | ref in w.seeds && ref !in w'.seeds :: Dropping(p) == Some(ref))
    && (forall ref | ref in w.refs && Loose(w, ref) && !Loose(w', ref) :: Staging(p) == Some(ref) || Blank(ref))
  }

  lemma OthersKeep(w: World, w': World, p: Proc, q: Proc)
    requires HandsRight(w, q) && Apart(q, p) && Apart(p, q) && Tolerates(w, w', p)
    ensures HandsRight(w', q)
  {
    hide Loose;
    hide Blank;
  }

  /** Worlds with the same seeds, whose VMs have lost some seeds or gone, keep everything sound. */
  ghost predicate Sheds(w: World, w': World) {
    && w'.seeds == w.seeds && w'.refs == w.refs
    && forall id | id in w'.machines && Seeded(w'.machines[id]) ::
         id in w.machines && w'.machines[id].seedRef == w.machines[id].seedRef
  }

  lemma ShedKeeps(w: World, w': World)
    requires SeedsSound(w) && Sheds(w, w')
    ensures SeedsSound(w')
    ensures forall ref | Loose(w, ref) && !Blank(ref) :: Loose(w', ref)
  {
    hide Blank;
  }

  predicate ShedCall(call: Call) {
    Quiet(call) || call.Clone? || call.DetachSeed? || call.Start? || call.Stop? || call.Delete?
  }

  lemma CallSheds(casing: CaseMaps, w: World, call: Call, o: Outcome)
    requires ShedCall(call)
    ensures Sheds(w, Serve(casing, w, call, o).0)
  {
    if Quiet(call) {
      QuietCall(casing, w, call, o);
      hide Serve;
    } else if call.Clone? {
      BlankEmpty();
      CloneTells(casing, w, call.templateID, call.spec, o);
      hide Serve;
      hide Blank;
      hide Makes;
    } else if call.DetachSeed? {
      BlankEmpty();
      DetachTells(casing, w, call.id, call.ref, o);
      hide Serve;
      hide Blank;
    } else {
      PowerSheds(casing, w, call, o);
      hide Serve;
    }
  }

  lemma PowerSheds(casing: CaseMaps, w: World, call: Call, o: Outcome)
    requires call.Start? || call.Stop? || call.Delete?
    ensures Sheds(w, Serve(casing, w, call, o).0)
  {
    hide InState;
    hide Blank;
  }

  /** What one call of a process does: everything stays sound, what it has in hand afterwards is right, and anything
      new in its hand was in nobody's before. */
  ghost predicate Advances(w: World, p: Proc, w': World, p': Proc) {
    && SeedsSound(w') && HandsRight(w', p') && Tolerates(w, w', p)
    && (Staging(p').Some? ==> Staging(p').value !in w.refs)
    && (Dropping(p').Some? ==> Dropping(p').value in w.refs && !Loose(w, Dropping(p').value))
  }

  /** Nothing in hand that needs looking after. */
  predicate EmptyHanded(p: Proc) {
    Staging(p).None? && Dropping(p).None? && Seen(p).None?
  }

  lemma ShedAdvances(w: World, p: Proc, w': World, p': Proc)
    requires SeedsSound(w) && HandsRight(w, p) && Sheds(w, w') && Staging(p').None? && Dropping(p').None?
    requires Seen(p').Some? ==> Seen(p').value in w.refs && !Blank(Seen(p').value)
    ensures Advances(w, p, w', p')
  {
    ShedKeeps(w, w');
    hide SeedsSound;
    hide Loose;
    hide Blank;
  }

  lemma StageAdvances(s: Site, w: World, b: Bootstrap, id: int, o: Outcome)
    requires SeedsSound(w)
    ensures var (w', r) := Serve(s.p.casing, w, StageSeed(id, Seed(s, b)), o);
            Advances(w, Late(b, id, StageIt), w', ResumeLate(s, b, id, StageIt, r))
  {
    hide Serve;
    hide Seed;
    hide Contains;
    hide Trouble;
    StageTells(s.p.casing, w, id, Seed(s, b), o);
    hide Blank;
  }

  lemma AttachAdvances(s: Site, w: World, b: Bootstrap, id: int, ref: string, o: Outcome)
    requires SeedsSound(w) && HandsRight(w, Late(b, id, AttachIt(ref)))
    ensures var (w', r) := Serve(s.p.casing, w, AttachSeed(id, ref), o);
            Advances(w, Late(b, id, AttachIt(ref)), w', ResumeLate(s, b, id, AttachIt(ref), r))
  {
    hide Serve;
    hide Blank;
    AttachTells(s.p.casing, w, id, ref, o);
  }

  /** Taking a seed off its VM leaves it loose. */
  lemma DetachLoosens(casing: CaseMaps, w: World, id: int, ref: string, o: Outcome)
    requires SeedsSound(w) && !Blank(ref) && o.fate != Ignored
    ensures var (w', r) := Serve(casing, w, DetachSeed(id, ref), o);
            !r.Failed? ==> Loose(w', ref) && !Loose(w, ref)
  {
    hide Serve;
    hide Blank;
    BlankEmpty();
    DetachTells(casing, w, id, ref, o);
  }

  lemma ReturnEmptyHanded(after: After, r: Result<Unit>)
    ensures EmptyHanded(Return(after, r))
  {
  }

  lemma DropHandAdvances(w: World, p: Proc, w': World, p': Proc, ref: string)
    requires SeedsSound(w) && HandsRight(w, p) && Sheds(w, w') && Seen(p) == Some(ref)
    requires Staging(p').None? && Seen(p').None?
    requires Dropping(p').Some? ==> Dropping(p').value == ref && Loose(w', ref) && !Loose(w, ref)
    ensures Advances(w, p, w', p')
  {
    ShedKeeps(w, w');
    hide SeedsSound;
    hide Loose;
    hide Blank;
  }

  lemma UnhookAdvances(s: Site, w: World, id: int, ref: string, o: Outcome)
    requires SeedsSound(w) && HandsRight(w, Reconciling(Unhook(id, ref))) && o.fate != Ignored
    ensures var (w', r) := Serve(s.p.casing, w, DetachSeed(id, ref), o);
            Advances(w, Reconciling(Unhook(id, ref)), w', ResumeReconcile(s, Unhook(id, ref), r))
  {
    hide Loose;
    hide Blank;
    CallSheds(s.p.casing, w, DetachSeed(id, ref), o);
    DetachLoosens(s.p.casing, w, id, ref, o);
    var (w', r) := Serve(s.p.casing, w, DetachSeed(id, ref), o);
    hide Serve;
    hide SeedsSound;
    hide Sheds;
    DropHandAdvances(w, Reconciling(Unhook(id, ref)), w', ResumeReconcile(s, Unhook(id, ref), r), ref);
  }

  lemma UnhookFirstAdvances(s: Site, w: World, id: int, ref: string, after: After, o: Outcome)
    requires SeedsSound(w) && HandsRight(w, Deleting(UnhookFirst(id, ref), after)) && o.fate != Ignored
    ensures var (w', r) := Serve(s.p.casing, w, DetachSeed(id, ref), o);
            Advances(w, Deleting(UnhookFirst(id, ref), after), w', ResumeDelete(s, UnhookFirst(id, ref), after, r))
  {
    hide Loose;
    hide Blank;
    CallSheds(s.p.casing, w, DetachSeed(id, ref), o);
    DetachLoosens(s.p.casing, w, id, ref, o);
    var (w', r) := Serve(s.p.casing, w, DetachSeed(id, ref), o);
    hide Serve;
    hide SeedsSound;
    hide Sheds;
    ReturnEmptyHanded(after, Err(Trouble(r)));
    hide Return;
    DropHandAdvances(w, Deleting(UnhookFirst(id, ref), after), w', ResumeDelete(s, UnhookFirst(id, ref), after, r), ref);
  }

  /** Deleting a loose seed leaves no VM without one it needs. */
  lemma DropSeedAdvances(casing: CaseMaps, w: World, p: Proc, ref: string, o: Outcome, p': Proc)
    requires SeedsSound(w) && HandsRight(w, p) && Dropping(p) == Some(ref) && EmptyHanded(p')
    ensures var (w', r) := Serve(casing, w, DeleteSeed(ref), o); Advances(w, p, w', p')
  {
    hide Serve;
    hide Blank;
    DropTells(casing, w, ref, o);
  }

  // ----- every call of every process -----

  lemma LookEmptyHanded(s: Site, step: LookStep, r: Reply)
    ensures EmptyHanded(ResumeLook(s, step, r))
  {
    hide Found;
    hide Selected;
    hide Instances;
    hide ToInstance;
    hide IsStopped;
    hide IsRunning;
  }

  lemma EarlyEmptyHanded(s: Site, b: Bootstrap, step: EarlyStep, r: Reply)
    ensures EmptyHanded(ResumeEarly(s, b, step, r))
  {
    hide VerifyOwnership;
    hide ToInstance;
    hide TrimSpace;
    hide ExactTemplate;
    hide IsStopped;
  }

  lemma LateEmptyHanded(s: Site, b: Bootstrap, id: int, step: LateStep, r: Reply)
    requires step.StartIt? || step.ReadBack? || (step.AttachIt? && r.Failed?)
    ensures EmptyHanded(ResumeLate(s, b, id, step, r))
  {
    hide VerifyOwnership;
    hide ToInstance;
    hide SafeRef;
    hide IsRunning;
  }

  lemma SweepEmptyHanded(s: Site, providerID: string, todo: seq<string>, active: bool, r: Reply)
    ensures EmptyHanded(ResumeSweep(s, providerID, todo, active, r))
  {
    hide Found;
    hide IsStopped;
  }

  /** A VM found in a listing: its seed, if it has one, is known. */
  lemma FoundSeedKnown(s: Site, w: World, o: Outcome, providerID: string)
    requires SeedsSound(w)
    ensures var (w', r) := Serve(s.p.casing, w, List, o);
            match Found(s, r, providerID)
            case Err(_) => true
            case Ok(item) => Seeded(item.machine) ==> item.machine.seedRef in w.refs
  {
    FoundTells(s, w, o, providerID);
    hide Serve;
    hide Found;
    hide Blank;
  }

  lemma ReconcileAdvances(s: Site, w: World, step: ReconcileStep, o: Outcome)
    requires SeedsSound(w) && HandsRight(w, Reconciling(step)) && (step.Unhook? ==> o.fate != Ignored)
    ensures var (w', r) := Serve(s.p.casing, w, ReconcileCall(step), o);
            Advances(w, Reconciling(step), w', ResumeReconcile(s, step, r))
  {
    hide Found;
    hide Loose;
    hide IsStopped;
    var (w', r) := Serve(s.p.casing, w, ReconcileCall(step), o);
    match step
    case SeedFind(target) =>
      CallSheds(s.p.casing, w, List, o);
      FoundSeedKnown(s, w, o, target);
      ShedAdvances(w, Reconciling(step), w', ResumeReconcile(s, step, r));
    case AskConsumed(id, ref) =>
      CallSheds(s.p.casing, w, BootstrapConsumed(id), o);
      ShedAdvances(w, Reconciling(step), w', ResumeReconcile(s, step, r));
    case Unhook(id, ref) => UnhookAdvances(s, w, id, ref, o);
    case Drop(id, ref) => DropSeedAdvances(s.p.casing, w, Reconciling(step), ref, o, ResumeReconcile(s, step, r));
    case SeedCheck(id) =>
      CallSheds(s.p.casing, w, Get(id), o);
      ShedAdvances(w, Reconciling(step), w', ResumeReconcile(s, step, r));
    hide Serve;
    hide SeedsSound;
    hide Sheds;
    hide Advances;
    hide Blank;
  }

  lemma DeleteAdvances(s: Site, w: World, step: DeleteStep, after: After, o: Outcome)
    requires SeedsSound(w) && HandsRight(w, Deleting(step, after)) && (step.UnhookFirst? ==> o.fate != Ignored)
    ensures var (w', r) := Serve(s.p.casing, w, DeleteStepCall(step), o);
            Advances(w, Deleting(step, after), w', ResumeDelete(s, step, after, r))
  {
    hide Found;
    hide Loose;
    hide IsStopped;
    hide Blank;
    forall answer: Result<Unit> ensures EmptyHanded(Return(after, answer)) { ReturnEmptyHanded(after, answer); }
    hide Return;
    var (w', r) := Serve(s.p.casing, w, DeleteStepCall(step), o);
    hide SeedsSound;
    hide Sheds;
    hide Advances;
    match step
    case DeleteFind(target) =>
      CallSheds(s.p.casing, w, List, o);
      FoundSeedKnown(s, w, o, target);
      hide Serve;
      ShedAdvances(w, Deleting(step, after), w', ResumeDelete(s, step, after, r));
    case UnhookFirst(id, ref) => UnhookFirstAdvances(s, w, id, ref, after, o);
    case DropFirst(id, ref) =>
      hide Serve;
      DropSeedAdvances(s.p.casing, w, Deleting(step, after), ref, o, ResumeDelete(s, step, after, r));
    case DeleteCall(id) =>
      CallSheds(s.p.casing, w, Delete(id), o);
      hide Serve;
      ShedAdvances(w, Deleting(step, after), w', ResumeDelete(s, step, after, r));
    case DeleteCheck(id) =>
      CallSheds(s.p.casing, w, Get(id), o);
      hide Serve;
      ShedAdvances(w, Deleting(step, after), w', ResumeDelete(s, step, after, r));
  }

  lemma LateAdvances(s: Site, w: World, b: Bootstrap, id: int, step: LateStep, o: Outcome)
    requires SeedsSound(w) && HandsRight(w, Late(b, id, step))
    ensures var (w', r) := Serve(s.p.casing, w, LateCall(s, b, id, step), o);
            Advances(w, Late(b, id, step), w', ResumeLate(s, b, id, step, r))
  {
    hide Seed;
    hide Advances;
    hide ResumeLate;
    match step
    case StageIt => StageAdvances(s, w, b, id, o);
    case AttachIt(ref) => AttachAdvances(s, w, b, id, ref, o);
    case StartIt(ref) =>
      CallSheds(s.p.casing, w, Start(id), o);
      var (w', r) := Serve(s.p.casing, w, Start(id), o);
      LateEmptyHanded(s, b, id, step, r);
      hide Serve;
      ShedAdvances(w, Late(b, id, step), w', ResumeLate(s, b, id, step, r));
    case ReadBack(ref) =>
      CallSheds(s.p.casing, w, Get(id), o);
      var (w', r) := Serve(s.p.casing, w, Get(id), o);
      LateEmptyHanded(s, b, id, step, r);
      hide Serve;
      ShedAdvances(w, Late(b, id, step), w', ResumeLate(s, b, id, step, r));
  }

  lemma OtherAdvances(s: Site, w: World, p: Proc, o: Outcome)
    requires SeedsSound(w) && HandsRight(w, p) && (p.Early? || p.Look? || p.SweepList? || p.SweepFind?)
    ensures var (w', r) := Serve(s.p.casing, w, Wants(s, p), o); Advances(w, p, w', Resume(s, p, r))
  {
    hide Requested;
    hide Named;
    hide Advances;
    var call := Wants(s, p);
    CallSheds(s.p.casing, w, call, o);
    var (w', r) := Serve(s.p.casing, w, call, o);
    hide Serve;
    hide SeedsSound;
    hide Sheds;
    hide Loose;
    hide Blank;
    hide Selected;
    hide ProviderIDs;
    match p {
      case Early(b, step) => EarlyEmptyHanded(s, b, step, r);
      case Look(step) => LookEmptyHanded(s, step, r);
      case SweepFind(providerID, todo, active) => SweepEmptyHanded(s, providerID, todo, active, r);
      case SweepList =>
    }
    hide ResumeEarly;
    hide ResumeLook;
    hide ResumeSweep;
    hide ResumeLate;
    hide ResumeReconcile;
    hide ResumeDelete;
    ShedAdvances(w, p, w', Resume(s, p, r));
  }

  lemma StepAdvances(s: Site, w: World, p: Proc, o: Outcome)
    requires SeedsSound(w) && HandsRight(w, p)
    requires !p.Finished? && Wants(s, p).DetachSeed? ==> o.fate != Ignored
    ensures var next := Step(s, Moment(w, p), o); Advances(w, p, next.world, next.proc)
  {
    hide Serve;
    hide HandsRight;
    hide SeedsSound;
    hide Seed;
    hide Requested;
    hide Named;
    if p.Finished? {
      RestAdvances(w, p);
    } else {
      match p {
        case Late(b, id, step) => LateAdvances(s, w, b, id, step, o);
        case Reconciling(step) => ReconcileAdvances(s, w, step, o);
        case Deleting(step, after) => DeleteAdvances(s, w, step, after, o);
        case _ => OtherAdvances(s, w, p, o);
      }
    }
    hide Advances;
    hide ResumeEarly;
    hide ResumeLook;
    hide ResumeSweep;
    hide ResumeLate;
    hide ResumeReconcile;
    hide ResumeDelete;
  }

  lemma RestAdvances(w: World, p: Proc)
    requires SeedsSound(w) && HandsRight(w, p) && p.Finished?
    ensures Advances(w, p, w, p)
  {
    hide SeedsSound;
    hide Loose;
  }

  /** The others keep what they have in hand, and stay apart from the process that made the call. */
  lemma OthersApart(w: World, p: Proc, w': World, p': Proc, q: Proc)
    requires HandsRight(w, q) && Apart(p, q) && Apart(q, p) && Advances(w, p, w', p')
    ensures HandsRight(w', q) && Apart(p', q) && Apart(q, p')
  {
    OthersKeep(w, w', p, q);
    hide SeedsSound;
    hide Tolerates;
    hide Loose;
    hide Blank;
  }

  lemma HappenKeeps(sys: System, h: Happening)
    requires Disciplined(sys) && Permitted(sys, h)
    ensures Disciplined(Happen(sys, h))
  {
    hide Step;
    hide Apart;
    match h
    case Launch(pid, site, op) => LaunchKeeps(sys, pid, site, op);
    case Advance(pid, o) => if pid in sys.jobs { AdvanceKeeps(sys, pid, o); }
    case Outside(world) => OutsideKeeps(sys, world);
    hide SeedsSound;
    hide HandsRight;
  }

  lemma LaunchKeeps(sys: System, pid: nat, site: Site, op: Op)
    requires Disciplined(sys)
    ensures Disciplined(Happen(sys, Launch(pid, site, op)))
  {
    assert EmptyHanded(Begin(op)) by { hide Accepts; }
    assert forall q :: Apart(Begin(op), q) && Apart(q, Begin(op));
    assert HandsRight(sys.world, Begin(op));
    hide Begin;
    hide SeedsSound;
    hide HandsRight;
    hide Apart;
  }

  lemma AdvanceKeeps(sys: System, pid: nat, o: Outcome)
    requires Disciplined(sys) && pid in sys.jobs && Permitted(sys, Advance(pid, o))
    ensures Disciplined(Happen(sys, Advance(pid, o)))
  {
    hide Step;
    hide SeedsSound;
    hide HandsRight;
    hide Apart;
    var job := sys.jobs[pid];
    StepAdvances(job.site, sys.world, job.proc, o);
    var next := Step(job.site, Moment(sys.world, job.proc), o);
    hide Advances;
    forall other | other in sys.jobs && other != pid
      ensures HandsRight(next.world, sys.jobs[other].proc)
      ensures Apart(next.proc, sys.jobs[other].proc) && Apart(sys.jobs[other].proc, next.proc)
    {
      OthersApart(sys.world, job.proc, next.world, next.proc, sys.jobs[other].proc);
    }
    AdvancedHolds(sys.world, job.proc, next.world, next.proc);
  }

  lemma AdvancedHolds(w: World, p: Proc, w': World, p': Proc)
    requires Advances(w, p, w', p')
    ensures SeedsSound(w') && HandsRight(w', p')
  {
  }

  lemma OutsideKeeps(sys: System, world: World)
    requires Disciplined(sys) && Permitted(sys, Outside(world))
    ensures Disciplined(Happen(sys, Outside(world)))
  {
    assert Sheds(sys.world, world);
    ShedKeeps(sys.world, world);
    forall pid | pid in sys.jobs
      ensures HandsRight(world, sys.jobs[pid].proc)
    {
      ShedHands(sys.world, world, sys.jobs[pid].proc);
    }
    hide SeedsSound;
    hide HandsRight;
    hide Apart;
    hide Sheds;
  }

  lemma ShedHands(w: World, w': World, p: Proc)
    requires HandsRight(w, p) && w'.seeds == w.seeds && w'.refs == w.refs
    requires forall ref | Loose(w, ref) && !Blank(ref) :: Loose(w', ref)
    ensures HandsRight(w', p)
  {
    hide Loose;
    hide Blank;
  }

  /** In every state that any interleaving of processes of any managers reaches, each dying wherever it likes, with
      references never handed out twice: every seed on a VM exists and hangs there alone. */
  lemma {:induction false} SeedsStayDisciplined(sys: System, hs: seq<Happening>)
    requires Disciplined(sys) && AllPermitted(sys, hs)
    ensures Disciplined(Play(sys, hs)) && SeedsSound(Play(sys, hs).world)
    decreases |hs|
  {
    hide SeedsSound;
    hide HandsRight;
    hide Apart;
    hide Happen;
    hide Permitted;
    if hs != [] {
      SeedsStayDisciplined(sys, hs[..|hs| - 1]);
      HappenKeeps(Play(sys, hs[..|hs| - 1]), hs[|hs| - 1]);
    }
  }
}

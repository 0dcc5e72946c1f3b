/** A container whose creation was cut short before its bootstrap state was scrubbed stays out of use: no interleaving
    of managers, their deaths and outside changes brings it back into service. */
module ContainerCrash {
  import opened Text
  import opened Names
  import opened Provider
  import opened Container
  import opened ContainerSafety
  import opened ContainerCreate
  import opened ContainerRespect

  /** Container `x` is still as `was`, power state apart, is not scrubbed, and no other container has its name. */
  ghost predicate Stranded(w: World, x: int, was: Container) {
    && x in w.containers && w.containers[x] == was.(state := w.containers[x].state)
    && was.init != DEFAULT_INIT
    && forall id | id in w.containers && w.containers[id].name == was.name :: id == x
  }

  /** One process carrying out one operation of one manager. */
  datatype Job = Job(site: Site, op: Op, proc: Proc)

  datatype System = System(world: World, jobs: map<nat, Job>)

  /** A process starts, makes its next client call, or something else changes the world. A process that dies is one
      that makes no further call. */
  datatype Happening =
    | Launch(pid: nat, site: Site, op: Op)
    | Advance(pid: nat, o: Outcome)
    | Outside(world: World)

  function Happen(sys: System, h: Happening): System {
    match h
    case Launch(pid, site, op) =>
      if pid in sys.jobs then sys else sys.(jobs := sys.jobs[pid := Job(site, op, Begin(op))])
    case Advance(pid, o) =>
      if pid !in sys.jobs then sys
      else
        var job := sys.jobs[pid];
        var next := Step(job.site, Moment(sys.world, job.proc), o);
        System(next.world, sys.jobs[pid := job.(proc := next.proc)])
    case Outside(world) => sys.(world := world)
  }

  /** Others may do anything except edit container `x` or take its name for another one. */
  ghost predicate Permitted(h: Happening, x: int, was: Container) {
    h.Outside? ==> Stranded(h.world, x, was)
  }

  function Play(sys: System, hs: seq<Happening>): System
    decreases |hs|
  {
    if hs == [] then sys else Happen(Play(sys, hs[..|hs| - 1]), hs[|hs| - 1])
  }

  // ----- what a job may have in hand -----

  /** The answer of every operation that touches on a stranded container: drift to its owner, foreign to anyone else,
      or the failure of the call that would have read it. */
  predicate Rebuffed(s: Site, was: Container, e: Error) {
    e == (if Identified(s, was) then ManagedDrift else Foreign) || e == Other
  }

  /** A finished operation gave nothing of container `x` away. */
  predicate Denied(job: Job, answer: Answer, x: int, was: Container) {
    match job.op
    case CreateOp(b) => Named(job.site, b) == was.name ==> answer.Single? && answer.instance.Err?
    case GetOp(target) =>
      target == ProviderID(x) ==> answer.Single? && answer.instance.Err? && Rebuffed(job.site, was, answer.instance.error)
    case ListOp(poolID) => Claimed(job.site, was, poolID) ==> answer.Several? && answer.instances.Err?
    case StopOp(target) =>
      target == ProviderID(x) ==> answer.Plain? && answer.done.Err? && Rebuffed(job.site, was, answer.done.error)
    case DeleteOp(target) =>
      target == ProviderID(x) ==> answer.Plain? && answer.done.Err? && Rebuffed(job.site, was, answer.done.error)
    case RemoveAllOp => Claimed(job.site, was, "") ==> answer.Plain? && answer.done.Err?
  }

  /** An operation in progress has no hold on container `x`, nor on its name. */
  predicate Harmless(job: Job, x: int, was: Container) {
    match job.proc
    case Early(b, _) => job.op == CreateOp(b)
    case Late(b, id, _, _) => job.op == CreateOp(b) && id != x && Named(job.site, b) != was.name
    case Cleanup(id, _, _) => job.op.CreateOp? && id != x
    case Look(GetFind(target)) => job.op == GetOp(target)
    case Look(ListPool(poolID)) => job.op == ListOp(poolID)
    case Look(StopFind(target)) => job.op == StopOp(target)
    case Look(StopCall(id)) => job.op == StopOp(ProviderID(id)) && id != x
    case Look(StopCheck(id)) => job.op == StopOp(ProviderID(id)) && id != x
    case Deleting(DeleteFind(target), Answering) => job.op == DeleteOp(target)
    case Deleting(DeleteCall(id), Answering) => job.op == DeleteOp(ProviderID(id)) && id != x
    case Deleting(DeleteCheck(id), Answering) => job.op == DeleteOp(ProviderID(id)) && id != x
    case Deleting(DeleteFind(_), Sweeping(_, _)) => job.op == RemoveAllOp && !Claimed(job.site, was, "")
    case Deleting(DeleteCall(id), Sweeping(_, _)) => job.op == RemoveAllOp && !Claimed(job.site, was, "") && id != x
    case Deleting(DeleteCheck(id), Sweeping(_, _)) => job.op == RemoveAllOp && !Claimed(job.site, was, "") && id != x
    case SweepList => job.op == RemoveAllOp
    case SweepFind(_, _, _) => job.op == RemoveAllOp && !Claimed(job.site, was, "")
    case Finished(answer) => Denied(job, answer, x, was)
  }

  // ----- one call -----

  /** The calls that could disturb container `x`. */
  predicate Targets(call: Call, x: int) {
    (call.Update? || call.Start? || call.Stop? || call.Delete?) && call.id == x
  }

  lemma CallSpares(casing: CaseMaps, w: World, call: Call, o: Outcome, x: int, was: Container)
    requires Stranded(w, x, was) && !Targets(call, x)
    ensures Stranded(Serve(casing, w, call, o).0, x, was)
  {
    if call.Create? {
      CreateTells(casing, w, call.spec, o);
      hide Serve;
      hide RootOf;
      hide DEFAULT_INIT;
    } else if !Ignorable(call) {
      QuietCall(casing, w, call, o);
      hide Serve;
      hide DEFAULT_INIT;
    } else {
      ChangeSpares(casing, w, call, o, x, was);
      hide Serve;
    }
  }

  lemma ChangeSpares(casing: CaseMaps, w: World, call: Call, o: Outcome, x: int, was: Container)
    requires Stranded(w, x, was) && !Targets(call, x) && Ignorable(call)
    ensures Stranded(Serve(casing, w, call, o).0, x, was)
  {
    hide Wipes;
    hide DEFAULT_INIT;
  }

  lemma UnscrubbedNotOwned(s: Site, c: Container)
    requires c.init != DEFAULT_INIT
    ensures Owner(s, c) == Err(if Identified(s, c) then ManagedDrift else Foreign)
    ensures !Steady(s.p.casing, c)
  {
    hide Identified;
    hide SoundBase;
    hide DEFAULT_INIT;
  }

  lemma StrandedFacts(s: Site, w: World, x: int, was: Container)
    requires Stranded(w, x, was)
    ensures Owner(s, w.containers[x]) == Err(if Identified(s, was) then ManagedDrift else Foreign)
    ensures !Steady(s.p.casing, w.containers[x]) && Claimed(s, w.containers[x], "") == Claimed(s, was, "")
    ensures forall poolID :: Claimed(s, w.containers[x], poolID) == Claimed(s, was, poolID)
  {
    UnscrubbedNotOwned(s, w.containers[x]);
    hide SoundBase;
    hide DEFAULT_INIT;
    hide OWNER_SCHEMA;
    hide MANAGED_BY;
    hide FLAVOR;
  }

  /** No listing hands container `x` to `findOwned`. */
  lemma FoundElsewhere(s: Site, w: World, o: Outcome, providerID: string, x: int, was: Container)
    requires Stranded(w, x, was)
    ensures var r := Serve(s.p.casing, w, List, o).1;
            match Found(s, r, providerID)
            case Ok(item) => item.id != x && ProviderID(item.id) == providerID
            case Err(e) => providerID == ProviderID(x) ==> Rebuffed(s, was, e)
    ensures var r := Serve(s.p.casing, w, List, o).1;
            providerID == ProviderID(x) ==> Found(s, r, providerID).Err? && Found(s, r, providerID).error != NotFound
  {
    ListTells(s.p.casing, w, o);
    ListTroubles(s.p.casing, w, o);
    StrandedFacts(s, w, x, was);
    var r := Serve(s.p.casing, w, List, o).1;
    hide Serve;
    hide Stranded;
    hide Itemized;
    hide Owner;
    hide Identified;
    hide Claimed;
    if r.Many? {
      FindTells(w, o.order, providerID);
      if providerID == ProviderID(x) { OnlyOne(w, o.order, x); }
      assert x in o.order;
    }
    hide Find;
    hide ProviderID;
    hide Enumerates;
  }

  lemma ListTroubles(casing: CaseMaps, w: World, o: Outcome)
    ensures var r := Serve(casing, w, List, o).1; r.Many? || r == Failed(Other)
  {
    hide Wipes;
    hide Itemized;
    hide Enumerates;
  }

  lemma OnlyOne(w: World, ids: seq<int>, x: int)
    requires (forall k | 0 <= k < |ids| :: ids[k] in w.containers) && x in ids
    ensures Find(Itemized(w, ids), ProviderID(x)) == Some(Item(x, w.containers[x]))
  {
    FindTells(w, ids, ProviderID(x));
    hide ProviderID;
    var k :| 0 <= k < |ids| && ids[k] == x;
    match Find(Itemized(w, ids), ProviderID(x))
    case None =>
    case Some(item) => SameProviderID(item.id, x);
    hide Itemized;
    hide Find;
  }

  // ----- one call of one job -----

  lemma EarlyHarmless(job: Job, w: World, o: Outcome, x: int, was: Container)
    requires Stranded(w, x, was) && job.proc.Early? && Harmless(job, x, was)
    ensures var (b, step) := (job.proc.b, job.proc.early);
            var r := Serve(job.site.p.casing, w, EarlyCall(job.site, b, step), o).1;
            Harmless(job.(proc := ResumeEarly(job.site, b, step, r)), x, was)
  {
    hide Serve;
    hide Admitted;
    hide TrimSpace;
    hide ToInstance;
    hide Rebuffed;
    hide Claimed;
    hide ProviderID;
    hide Named;
    var (s, b) := (job.site, job.proc.b);
    match job.proc.early
    case AskName =>
      LookupTells(s.p.casing, w, Named(s, b), o);
      StrandedFacts(s, w, x, was);
    case AskCreate(image) =>
      CreateTells(s.p.casing, w, Requested(s, b, image), o);
      NewElsewhere(s, b, image, w, o, x, was);
      AdmittedHarmless(s, b, Item(o.id, Made(Requested(s, b, image), o)), x, was);
      hide Made;
      hide Makes;
      hide Requested;
    case _ =>
    hide Stranded;
    hide Owner;
  }

  lemma NewElsewhere(s: Site, b: Bootstrap, image: Image, w: World, o: Outcome, x: int, was: Container)
    requires Stranded(w, x, was)
    ensures Makes(w, Requested(s, b, image), o) ==> o.id != x && Named(s, b) != was.name
  {
    hide Named;
    hide RootOf;
    hide DEFAULT_INIT;
    hide InitialEnv;
  }

  lemma AdmittedHarmless(s: Site, b: Bootstrap, made: Item, x: int, was: Container)
    ensures made.id != x && Named(s, b) != was.name ==>
              Harmless(Job(s, CreateOp(b), Admitted(s, b, made)), x, was)
  {
    hide VerifyBootstrap;
    hide RootOf;
    hide StagingPath;
    hide Files;
    hide Named;
  }

  lemma LateHarmless(job: Job, r: Reply, x: int, was: Container)
    requires job.proc.Late? && Harmless(job, x, was)
    ensures var p := job.proc; Harmless(job.(proc := ResumeLate(job.site, p.b, p.id, p.mount, p.late, r)), x, was)
  {
    hide VerifyOwnership;
    hide StagingPath;
    hide ReadsBack;
    hide ToInstance;
    hide Trouble;
    hide Named;
  }

  lemma CleanupHarmless(job: Job, r: Reply, x: int, was: Container)
    requires job.proc.Cleanup? && Harmless(job, x, was)
    ensures var p := job.proc; Harmless(job.(proc := ResumeCleanup(job.site, p.id, p.error, p.clean, r)), x, was)
  {
    hide IsRunning;
    hide IsStopped;
    hide Named;
  }

  lemma {:induction false} ListedRefuses(s: Site, w: World, ids: seq<int>, poolID: string, x: int)
    requires (forall k | 0 <= k < |ids| :: ids[k] in w.containers) && x in ids
    requires Claimed(s, w.containers[x], poolID) && !Steady(s.p.casing, w.containers[x])
    ensures Listed(s, Itemized(w, ids), poolID).Err?
  {
    hide Claimed;
    hide Steady;
    var items := Itemized(w, ids);
    assert ids == [ids[0]] + ids[1..];
    assert items[1..] == Itemized(w, ids[1..]);
    if ids[0] != x { ListedRefuses(s, w, ids[1..], poolID, x); }
  }

  /** Its own manager cannot list past container `x`. */
  lemma SelectedRefuses(s: Site, w: World, o: Outcome, poolID: string, x: int, was: Container)
    requires Stranded(w, x, was) && Claimed(s, was, poolID)
    ensures Selected(s, Serve(s.p.casing, w, List, o).1, poolID).Err?
  {
    ListTells(s.p.casing, w, o);
    StrandedFacts(s, w, x, was);
    var r := Serve(s.p.casing, w, List, o).1;
    hide Serve;
    hide Stranded;
    hide Claimed;
    hide Steady;
    if r.Many? {
      assert x in o.order;
      ListedRefuses(s, w, o.order, poolID, x);
    }
    hide Listed;
    hide Itemized;
  }

  lemma GetFindHarmless(job: Job, w: World, o: Outcome, target: string, x: int, was: Container)
    requires Stranded(w, x, was) && Harmless(job, x, was)
    requires job.proc == Look(GetFind(target))
    ensures var step := job.proc.look;
            var r := Serve(job.site.p.casing, w, List, o).1;
            Harmless(job.(proc := ResumeLook(job.site, step, r)), x, was)
  {
    FoundElsewhere(job.site, w, o, target, x, was);
    hide Stranded;
    hide Serve;
    hide Found;
    hide Selected;
    hide ToInstance;
    hide Instances;
    hide ProviderID;
    hide Claimed;
    hide Rebuffed;
    hide IsRunning;
    hide IsStopped;
    hide Named;
    hide Trouble;
  }

  lemma StopFindHarmless(job: Job, w: World, o: Outcome, target: string, x: int, was: Container)
    requires Stranded(w, x, was) && Harmless(job, x, was)
    requires job.proc == Look(StopFind(target))
    ensures var step := job.proc.look;
            var r := Serve(job.site.p.casing, w, List, o).1;
            Harmless(job.(proc := ResumeLook(job.site, step, r)), x, was)
  {
    FoundElsewhere(job.site, w, o, target, x, was);
    hide Stranded;
    hide Serve;
    hide Found;
    hide Selected;
    hide ToInstance;
    hide Instances;
    hide ProviderID;
    hide Claimed;
    hide Rebuffed;
    hide IsRunning;
    hide IsStopped;
    hide Named;
    hide Trouble;
  }

  lemma ListHarmless(job: Job, w: World, o: Outcome, poolID: string, x: int, was: Container)
    requires Stranded(w, x, was) && Harmless(job, x, was) && job.proc == Look(ListPool(poolID))
    ensures var r := Serve(job.site.p.casing, w, List, o).1;
            Harmless(job.(proc := ResumeLook(job.site, ListPool(poolID), r)), x, was)
  {
    if Claimed(job.site, was, poolID) { SelectedRefuses(job.site, w, o, poolID, x, was); }
    hide Stranded;
    hide Serve;
    hide Found;
    hide Selected;
    hide ToInstance;
    hide Instances;
    hide ProviderID;
    hide Claimed;
    hide Rebuffed;
    hide IsRunning;
    hide IsStopped;
    hide Named;
    hide Trouble;
  }

  lemma StopHarmless(job: Job, r: Reply, id: int, x: int, was: Container)
    requires Harmless(job, x, was) && (job.proc == Look(StopCall(id)) || job.proc == Look(StopCheck(id)))
    ensures Harmless(job.(proc := ResumeLook(job.site, job.proc.look, r)), x, was)
  {
    if ProviderID(id) == ProviderID(x) { SameProviderID(id, x); }
    hide Stranded;
    hide Serve;
    hide Found;
    hide Selected;
    hide ToInstance;
    hide Instances;
    hide ProviderID;
    hide Claimed;
    hide Rebuffed;
    hide IsRunning;
    hide IsStopped;
    hide Named;
    hide Trouble;
  }

  lemma LookHarmless(job: Job, w: World, o: Outcome, x: int, was: Container)
    requires Stranded(w, x, was) && job.proc.Look? && Harmless(job, x, was)
    ensures var step := job.proc.look;
            var r := Serve(job.site.p.casing, w, LookCall(step), o).1;
            Harmless(job.(proc := ResumeLook(job.site, step, r)), x, was)
  {
    hide Harmless;
    hide Serve;
    hide Stranded;
    hide ResumeLook;
    match job.proc.look
    case GetFind(target) => GetFindHarmless(job, w, o, target, x, was);
    case StopFind(target) => StopFindHarmless(job, w, o, target, x, was);
    case ListPool(poolID) => ListHarmless(job, w, o, poolID, x, was);
    case StopCall(id) => StopHarmless(job, Serve(job.site.p.casing, w, Stop(id, false), o).1, id, x, was);
    case StopCheck(id) => StopHarmless(job, Serve(job.site.p.casing, w, Get(id), o).1, id, x, was);
  }

  lemma DeleteFindHarmless(job: Job, w: World, o: Outcome, target: string, x: int, was: Container)
    requires Stranded(w, x, was) && Harmless(job, x, was)
    requires job.proc.Deleting? && job.proc.step == DeleteFind(target)
    ensures var r := Serve(job.site.p.casing, w, List, o).1;
            Harmless(job.(proc := ResumeDelete(job.site, DeleteFind(target), job.proc.after, r)), x, was)
  {
    FoundElsewhere(job.site, w, o, target, x, was);
    hide Stranded;
    hide Serve;
    hide Found;
    hide Selected;
    hide ToInstance;
    hide Instances;
    hide ProviderID;
    hide Claimed;
    hide Rebuffed;
    hide IsRunning;
    hide IsStopped;
    hide Named;
    hide Trouble;
  }

  lemma DeletionHarmless(job: Job, r: Reply, id: int, x: int, was: Container)
    requires Harmless(job, x, was)
    requires job.proc.Deleting? && (job.proc.step == DeleteCall(id) || job.proc.step == DeleteCheck(id))
    ensures Harmless(job.(proc := ResumeDelete(job.site, job.proc.step, job.proc.after, r)), x, was)
  {
    if ProviderID(id) == ProviderID(x) { SameProviderID(id, x); }
    hide Stranded;
    hide Serve;
    hide Found;
    hide Selected;
    hide ToInstance;
    hide Instances;
    hide ProviderID;
    hide Claimed;
    hide Rebuffed;
    hide IsRunning;
    hide IsStopped;
    hide Named;
    hide Trouble;
  }

  lemma DeleteHarmless(job: Job, w: World, o: Outcome, x: int, was: Container)
    requires Stranded(w, x, was) && job.proc.Deleting? && Harmless(job, x, was)
    ensures var (step, after) := (job.proc.step, job.proc.after);
            var r := Serve(job.site.p.casing, w, DeleteStepCall(step), o).1;
            Harmless(job.(proc := ResumeDelete(job.site, step, after, r)), x, was)
  {
    hide Harmless;
    hide Serve;
    hide Stranded;
    hide ResumeDelete;
    match job.proc.step
    case DeleteFind(target) => DeleteFindHarmless(job, w, o, target, x, was);
    case DeleteCall(id) => DeletionHarmless(job, Serve(job.site.p.casing, w, Delete(id), o).1, id, x, was);
    case DeleteCheck(id) => DeletionHarmless(job, Serve(job.site.p.casing, w, Get(id), o).1, id, x, was);
  }

  lemma SweepListHarmless(job: Job, w: World, o: Outcome, x: int, was: Container)
    requires Stranded(w, x, was) && job.proc.SweepList? && Harmless(job, x, was)
    ensures var r := Serve(job.site.p.casing, w, List, o).1;
            Harmless(job.(proc := Resume(job.site, job.proc, r)), x, was)
  {
    if Claimed(job.site, was, "") { SelectedRefuses(job.site, w, o, "", x, was); }
    hide Stranded;
    hide Serve;
    hide Found;
    hide Selected;
    hide ToInstance;
    hide Instances;
    hide ProviderID;
    hide Claimed;
    hide Rebuffed;
    hide IsRunning;
    hide IsStopped;
    hide Named;
    hide Trouble;
    hide ProviderIDs;
    hide ResumeEarly;
    hide ResumeLate;
    hide ResumeCleanup;
    hide ResumeLook;
    hide ResumeDelete;
    hide ResumeSweep;
  }

  lemma SweepFindHarmless(job: Job, r: Reply, x: int, was: Container)
    requires job.proc.SweepFind? && Harmless(job, x, was)
    ensures var p := job.proc; Harmless(job.(proc := ResumeSweep(job.site, p.providerID, p.todo, p.active, r)), x, was)
  {
    hide Stranded;
    hide Serve;
    hide Found;
    hide Selected;
    hide ToInstance;
    hide Instances;
    hide ProviderID;
    hide Claimed;
    hide Rebuffed;
    hide IsRunning;
    hide IsStopped;
    hide Named;
    hide Trouble;
  }

  /** One call of one harmless job leaves it harmless and the container stranded. */
  lemma StepHarmless(job: Job, w: World, o: Outcome, x: int, was: Container)
    requires Stranded(w, x, was) && Harmless(job, x, was)
    ensures var next := Step(job.site, Moment(w, job.proc), o);
            Stranded(next.world, x, was) && Harmless(job.(proc := next.proc), x, was)
  {
    if !job.proc.Finished? {
      var call := Wants(job.site, job.proc);
      NeverTargets(job, x, was);
      CallSpares(job.site.p.casing, w, call, o, x, was);
      var r := Serve(job.site.p.casing, w, call, o).1;
      match job.proc
      case Early(_, _) => EarlyHarmless(job, w, o, x, was);
      case Late(_, _, _, _) => LateHarmless(job, r, x, was);
      case Cleanup(_, _, _) => CleanupHarmless(job, r, x, was);
      case Look(_) => LookHarmless(job, w, o, x, was);
      case Deleting(_, _) => DeleteHarmless(job, w, o, x, was);
      case SweepList => SweepListHarmless(job, w, o, x, was);
      case SweepFind(_, _, _) => SweepFindHarmless(job, r, x, was);
    }
    hide Harmless;
    hide Serve;
    hide Stranded;
    hide ResumeEarly;
    hide ResumeLate;
    hide ResumeCleanup;
    hide ResumeLook;
    hide ResumeDelete;
    hide ResumeSweep;
    hide Selected;
  }

  lemma NeverTargets(job: Job, x: int, was: Container)
    requires Harmless(job, x, was) && !job.proc.Finished?
    ensures !Targets(Wants(job.site, job.proc), x)
  {
    hide Requested;
    hide Named;
    hide Claimed;
  }

  // ----- every interleaving -----

  /** The container is stranded and no process has a hold on it. */
  ghost predicate Quarantined(sys: System, x: int, was: Container) {
    && Stranded(sys.world, x, was)
    && forall pid | pid in sys.jobs :: Harmless(sys.jobs[pid], x, was)
  }

  lemma LaunchHarmless(s: Site, op: Op, x: int, was: Container)
    ensures Harmless(Job(s, op, Begin(op)), x, was)
  {
    hide Accepts;
    hide Named;
    hide Claimed;
    hide ProviderID;
  }

  lemma HappenKeeps(sys: System, h: Happening, x: int, was: Container)
    requires Quarantined(sys, x, was) && Permitted(h, x, was)
    ensures Quarantined(Happen(sys, h), x, was)
  {
    hide Harmless;
    hide Stranded;
    hide Step;
    hide Begin;
    match h
    case Launch(pid, site, op) => LaunchHarmless(site, op, x, was);
    case Advance(pid, o) =>
      if pid in sys.jobs {
        StepHarmless(sys.jobs[pid], sys.world, o, x, was);
      }
    case Outside(_) =>
  }

  /** Crash safety: once quarantined, a container stays as it is, unscrubbed and unused, through every interleaving of
      any number of processes of any managers, each of which may die at any call, and of permitted outside changes. */
  lemma {:induction false} StaysQuarantined(sys: System, hs: seq<Happening>, x: int, was: Container)
    requires Quarantined(sys, x, was) && forall h | h in hs :: Permitted(h, x, was)
    ensures Quarantined(Play(sys, hs), x, was)
    decreases |hs|
  {
    hide Quarantined;
    hide Happen;
    hide Permitted;
    if hs != [] {
      var (init, last) := (hs[..|hs| - 1], hs[|hs| - 1]);
      assert last in hs && forall h | h in init :: h in hs;
      StaysQuarantined(sys, init, x, was);
      HappenKeeps(Play(sys, init), last, x, was);
    }
  }

  /** A `Create` that stops while its container still carries the bootstrap state leaves that container quarantined. */
  lemma CutIsQuarantined(s: Site, b: Bootstrap, before: World, oracle: nat -> Outcome, i: nat, j: nat, x: int)
    requires s.Valid() && i <= j && x !in before.containers
    requires var w := Creation(s, b, before, oracle, i, j).world;
             x in w.containers && Unscrubbed(s, b, w.containers[x])
    ensures var w := Creation(s, b, before, oracle, i, j).world;
            Quarantined(System(w, map[]), x, w.containers[x]) && w.containers[x].name == Named(s, b)
  {
    hide Step;
    CreateRunHolds(s, b, before, oracle, i, j);
    var m := Creation(s, b, before, oracle, i, j);
    hide Creation;
    HoldsStrands(s, b, before, m.world, m.proc, x);
    hide CreateHolds;
    hide Stranded;
    hide Unscrubbed;
  }

  lemma HoldsStrands(s: Site, b: Bootstrap, before: World, w: World, p: Proc, x: int)
    requires CreateHolds(s, b, before, w, p) && x !in before.containers && x in w.containers
    requires Unscrubbed(s, b, w.containers[x])
    ensures Stranded(w, x, w.containers[x]) && w.containers[x].name == Named(s, b)
  {
    hide LateHolds;
    hide Delivered;
    hide Adopted;
    hide RootOf;
    hide Alone;
    hide IsStopped;
    hide InitialEnv;
    hide OwnerRecord;
    hide Named;
    assert BOOTSTRAP_INIT != DEFAULT_INIT by { assert |BOOTSTRAP_INIT| != |DEFAULT_INIT|; }
  }

  /** From the `Create` call to the scrub, every point of a `Create` is one that leaves a quarantined container. */
  lemma UnscrubbedUntilScrub(s: Site, b: Bootstrap, before: World, oracle: nat -> Outcome, i: nat, j: nat)
    requires s.Valid() && i <= j
    requires var p := Creation(s, b, before, oracle, i, j).proc; p.Late? && !p.late.ReadBack? && !p.late.ProveAbsent?
    ensures var m := Creation(s, b, before, oracle, i, j);
            m.proc.id !in before.containers && m.proc.id in m.world.containers
            && Unscrubbed(s, b, m.world.containers[m.proc.id])
  {
    hide Step;
    CreateRunHolds(s, b, before, oracle, i, j);
    var m := Creation(s, b, before, oracle, i, j);
    hide Creation;
    LateUnscrubbed(s, b, before, m.world, m.proc);
    hide CreateHolds;
    hide Unscrubbed;
  }

  lemma LateUnscrubbed(s: Site, b: Bootstrap, before: World, w: World, p: Proc)
    requires CreateHolds(s, b, before, w, p) && p.Late? && !p.late.ReadBack? && !p.late.ProveAbsent?
    ensures p.id !in before.containers && p.id in w.containers && Unscrubbed(s, b, w.containers[p.id])
  {
    hide Progress;
    hide Mine;
    hide Unscrubbed;
    hide IsStopped;
    hide RootOf;
  }

  /** The two together: after such a cut, whatever happens later, no `Create` of that name returns an instance, `Get`,
      `Stop` and `Delete` of that container are refused, its manager's `List` and `RemoveAll` report an error, and the
      container is still there, changed in nothing but its power state. */
  lemma CutNeverServed(s: Site, b: Bootstrap, before: World, oracle: nat -> Outcome, i: nat, j: nat, x: int,
                       hs: seq<Happening>)
    requires s.Valid() && i <= j && x !in before.containers
    requires var w := Creation(s, b, before, oracle, i, j).world;
             x in w.containers && Unscrubbed(s, b, w.containers[x])
             && forall h | h in hs :: Permitted(h, x, w.containers[x])
    ensures var w := Creation(s, b, before, oracle, i, j).world;
            var (was, later) := (w.containers[x], Play(System(w, map[]), hs));
            && was.name == Named(s, b)
            && x in later.world.containers
            && later.world.containers[x] == was.(state := later.world.containers[x].state)
            && forall pid | pid in later.jobs && later.jobs[pid].proc.Finished? ::
                 Denied(later.jobs[pid], later.jobs[pid].proc.answer, x, was)
  {
    hide Run;
    CutIsQuarantined(s, b, before, oracle, i, j, x);
    var w := Creation(s, b, before, oracle, i, j).world;
    StaysQuarantined(System(w, map[]), hs, x, w.containers[x]);
    hide Creation;
    QuarantineDenies(Play(System(w, map[]), hs), x, w.containers[x]);
    hide Quarantined;
    hide Play;
    hide Permitted;
    hide Denied;
    hide Unscrubbed;
    hide Named;
  }

  lemma QuarantineDenies(sys: System, x: int, was: Container)
    requires Quarantined(sys, x, was)
    ensures x in sys.world.containers && sys.world.containers[x] == was.(state := sys.world.containers[x].state)
    ensures forall pid | pid in sys.jobs && sys.jobs[pid].proc.Finished? ::
              Denied(sys.jobs[pid], sys.jobs[pid].proc.answer, x, was)
  {
    hide Denied;
  }
}

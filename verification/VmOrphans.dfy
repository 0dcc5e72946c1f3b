/** Seeds nobody will ever delete: an image, with the token in it, goes only through the reference found on a VM, so one
    that hangs on none stays; and exactly when an operation leaves one. */
module VmOrphans {
  import opened Text
  import opened Names
  import opened Provider
  import opened CloudInit
  import opened Vm
  import opened VmSafety
  import opened VmRespect
  import opened VmSeeds
  import opened VmDangling

  // ----- an orphan stays, whatever runs -----

  /** A seed that hangs on no VM, and that no process is about to hang or to delete. */
  ghost predicate Orphan(sys: System, ref: string) {
    && ref in sys.world.seeds && Loose(sys.world, ref) && !Blank(ref)
    && forall pid | pid in sys.jobs :: HandsOff(sys.jobs[pid].proc, ref)
  }

  predicate HandsOff(p: Proc, ref: string) {
    Staging(p) != Some(ref) && Dropping(p) != Some(ref)
  }

  /** No call changes what a seed says. */
  lemma CallKeepsSeed(casing: CaseMaps, w: World, call: Call, o: Outcome, ref: string)
    requires ref in w.seeds && ref in w.refs && ref in Serve(casing, w, call, o).0.seeds
    ensures Serve(casing, w, call, o).0.seeds[ref] == w.seeds[ref]
  {
    hide InState;
    hide NameTaken;
    hide Enumerates;
    hide Itemized;
    hide Blank;
  }

  lemma AdvanceOrphan(s: Site, w: World, p: Proc, o: Outcome, ref: string)
    requires SeedsSound(w) && HandsRight(w, p)
    requires !p.Finished? && Wants(s, p).DetachSeed? ==> o.fate != Ignored
    requires ref in w.seeds && Loose(w, ref) && !Blank(ref) && HandsOff(p, ref)
    ensures var next := Step(s, Moment(w, p), o);
            && ref in next.world.seeds && next.world.seeds[ref] == w.seeds[ref]
            && Loose(next.world, ref) && HandsOff(next.proc, ref)
  {
    hide HandsRight;
    hide Blank;
    hide Loose;
    StepAdvances(s, w, p, o);
    hide Step;
    assert ref in w.refs;
    hide SeedsSound;
    if !p.Finished? { StepKeepsSeed(s, w, p, o, ref); } else { StepRests(s, w, p, o); }
  }

  lemma StepKeepsSeed(s: Site, w: World, p: Proc, o: Outcome, ref: string)
    requires !p.Finished? && ref in w.seeds && ref in w.refs && ref in Step(s, Moment(w, p), o).world.seeds
    ensures Step(s, Moment(w, p), o).world.seeds[ref] == w.seeds[ref]
  {
    hide Resume;
    hide Wants;
    CallKeepsSeed(s.p.casing, w, Wants(s, p), o, ref);
    hide Serve;
  }

  lemma StepRests(s: Site, w: World, p: Proc, o: Outcome)
    requires p.Finished?
    ensures Step(s, Moment(w, p), o) == Moment(w, p)
  {
  }

  lemma HappenOrphan(sys: System, h: Happening, ref: string)
    requires Disciplined(sys) && Permitted(sys, h) && Orphan(sys, ref)
    ensures Orphan(Happen(sys, h), ref) && Happen(sys, h).world.seeds[ref] == sys.world.seeds[ref]
  {
    hide Step;
    hide HandsRight;
    hide Apart;
    hide Blank;
    match h {
      case Launch(pid, site, op) =>
        BeginsEmptyHanded(op);
        hide Begin;
      case Advance(pid, o) =>
        if pid in sys.jobs { AdvanceOrphan(sys.jobs[pid].site, sys.world, sys.jobs[pid].proc, o, ref); }
        hide Loose;
        hide SeedsSound;
      case Outside(world) =>
        assert Sheds(sys.world, world);
        ShedKeeps(sys.world, world);
        hide Loose;
        hide SeedsSound;
    }
  }

  lemma BeginsEmptyHanded(op: Op)
    ensures EmptyHanded(Begin(op))
  {
    hide Accepts;
  }

  /** Over every interleaving of processes of any managers, each dying wherever it likes, with references never handed
      out twice and acknowledged detachments true: an orphan stays for good, token and all. */
  lemma {:induction false} OrphansStay(sys: System, hs: seq<Happening>, ref: string)
    requires Disciplined(sys) && AllPermitted(sys, hs) && Orphan(sys, ref)
    ensures Orphan(Play(sys, hs), ref) && Play(sys, hs).world.seeds[ref] == sys.world.seeds[ref]
    decreases |hs|
  {
    hide Disciplined;
    hide Happen;
    hide Permitted;
    hide Loose;
    hide HandsOff;
    if hs != [] {
      var init := hs[..|hs| - 1];
      OrphansStay(sys, init, ref);
      SeedsStayDisciplined(sys, init);
      HappenOrphan(Play(sys, init), hs[|hs| - 1], ref);
    }
  }

  // ----- taking a VM apart -----

  ghost predicate Hung(w: World, ref: string) {
    exists id | id in w.machines :: Seeded(w.machines[id]) && w.machines[id].seedRef == ref
  }

  /** Call `k` takes the seed off, and it is off. */
  ghost predicate FreedAt(s: Site, op: Op, before: World, oracle: nat -> Outcome, i: nat, id: int, k: nat)
    requires i <= k && id in before.machines
  {
    && Unhooking(Reached(s, op, before, oracle, i, k).proc, id, before.machines[id].seedRef)
    && (oracle(k).fate == Served || oracle(k).fate == Lost)
  }

  ghost predicate Freed(s: Site, op: Op, before: World, oracle: nat -> Outcome, i: nat, id: int, j: nat)
    requires id in before.machines
  {
    exists k | i <= k < j :: FreedAt(s, op, before, oracle, i, id, k)
  }

  /** Call `k` deletes the image, and it is carried out. */
  ghost predicate DroppedAt(s: Site, op: Op, before: World, oracle: nat -> Outcome, i: nat, id: int, k: nat)
    requires i <= k && id in before.machines
  {
    DroppingImage(Reached(s, op, before, oracle, i, k).proc, id, before.machines[id].seedRef) && oracle(k).fate != Refused
  }

  ghost predicate Dropped(s: Site, op: Op, before: World, oracle: nat -> Outcome, i: nat, id: int, j: nat)
    requires id in before.machines
  {
    exists k | i <= k < j :: DroppedAt(s, op, before, oracle, i, id, k)
  }

  ghost predicate OthersSame(before: World, w: World, id: int) {
    forall n | n != id :: (n in w.machines <==> n in before.machines) && (n in w.machines ==> w.machines[n] == before.machines[n])
  }

  /** The seed is there and hangs on no VM. */
  ghost predicate Unhung(w: World, ref: string) {
    ref in w.seeds && !Hung(w, ref)
  }

  /** Where the operation stands with the seed of VM `id`. */
  ghost predicate SeedStands(before: World, m: Moment, id: int, freed: bool, dropped: bool)
    requires id in before.machines
  {
    var (vm, w) := (before.machines[id], m.world);
    match m.proc
    case Reconciling(SeedFind(target)) => SameHoldings(before, w) && target == ProviderID(id) && !freed && !dropped
    case Reconciling(AskConsumed(n, ref)) => SameHoldings(before, w) && n == id && ref == vm.seedRef && !freed && !dropped
    case Reconciling(Unhook(n, ref)) => SameHoldings(before, w) && n == id && ref == vm.seedRef && !freed && !dropped
    case Reconciling(Drop(n, ref)) => n == id && ref == vm.seedRef && Loosened(before, w, id, freed) && !dropped
    case Reconciling(SeedCheck(n)) => Cleared(w, vm.seedRef, freed, dropped)
    case Deleting(DeleteFind(target), Answering) => SameHoldings(before, w) && target == ProviderID(id) && !freed && !dropped
    case Deleting(UnhookFirst(n, ref), Answering) =>
      SameHoldings(before, w) && n == id && ref == vm.seedRef && !freed && !dropped
    case Deleting(DropFirst(n, ref), Answering) => n == id && ref == vm.seedRef && Loosened(before, w, id, freed) && !dropped
    case Deleting(DeleteCall(n), Answering) => Cleared(w, vm.seedRef, freed, dropped)
    case Deleting(DeleteCheck(n), Answering) => Cleared(w, vm.seedRef, freed, dropped)
    case Finished(_) => Unhung(w, vm.seedRef) <==> freed && !dropped
    case _ => false
  }

  /** Between the detachment and the deletion of the image. */
  ghost predicate Loosened(before: World, w: World, id: int, freed: bool)
    requires id in before.machines
  {
    && w.seeds == before.seeds && OthersSame(before, w, id) && id in w.machines
    && w.machines[id] == if freed then Unseeded(before.machines[id]) else before.machines[id]
  }

  /** The image is gone. */
  ghost predicate Cleared(w: World, ref: string, freed: bool, dropped: bool) {
    ref !in w.seeds && (freed ==> dropped)
  }

  lemma LoosenedHangs(before: World, w: World, id: int, freed: bool)
    requires SeedsSound(before) && id in before.machines && Seeded(before.machines[id]) && Loosened(before, w, id, freed)
    ensures Unhung(w, before.machines[id].seedRef) <==> freed
  {
    UnseededFree(before.machines[id]);
    hide Seeded;
    if !freed { assert Seeded(w.machines[id]) && w.machines[id].seedRef == before.machines[id].seedRef; }
  }

  lemma SameLoosened(before: World, w: World, id: int)
    requires id in before.machines && SameHoldings(before, w)
    ensures Loosened(before, w, id, false)
  {
  }

  lemma FindFate(s: Site, before: World, w: World, id: int, o: Outcome)
    requires SeedsSound(before) && id in before.machines && Seeded(before.machines[id]) && SameHoldings(before, w)
    ensures var (w', r) := Serve(s.p.casing, w, List, o);
            && SeedStands(before, Moment(w', ResumeReconcile(s, SeedFind(ProviderID(id)), r)), id, false, false)
            && SeedStands(before, Moment(w', ResumeDelete(s, DeleteFind(ProviderID(id)), Answering, r)), id, false, false)
  {
    hide Serve;
    hide Found;
    hide Owned;
    hide IsStopped;
    hide Seeded;
    hide ProviderID;
    hide Unhung;
    FoundTells(s, w, o, ProviderID(id));
    var (w', r) := Serve(s.p.casing, w, List, o);
    SameLoosened(before, w', id);
    LoosenedHangs(before, w', id, false);
    var found := Found(s, r, ProviderID(id));
    if found.Ok? { SameProviderID(found.value.id, id); }
    hide SeedsSound;
    hide Loosened;
  }

  lemma ConsumedFate(s: Site, before: World, w: World, id: int, ref: string, o: Outcome)
    requires SeedsSound(before) && id in before.machines && Seeded(before.machines[id]) && SameHoldings(before, w)
    requires ref == before.machines[id].seedRef
    ensures var (w', r) := Serve(s.p.casing, w, BootstrapConsumed(id), o);
            SeedStands(before, Moment(w', ResumeReconcile(s, AskConsumed(id, ref), r)), id, false, false)
  {
    QuietCall(s.p.casing, w, BootstrapConsumed(id), o);
    hide Serve;
    hide Seeded;
    hide Unhung;
    var w' := Serve(s.p.casing, w, BootstrapConsumed(id), o).0;
    SameLoosened(before, w', id);
    LoosenedHangs(before, w', id, false);
    hide SeedsSound;
    hide Loosened;
  }

  lemma UnhookLoosens(s: Site, before: World, w: World, id: int, o: Outcome)
    requires SeedsSound(before) && id in before.machines && Seeded(before.machines[id]) && SameHoldings(before, w)
    ensures var ref := before.machines[id].seedRef;
            var (w', r) := Serve(s.p.casing, w, DetachSeed(id, ref), o);
            var freed := o.fate == Served || o.fate == Lost;
            Loosened(before, w', id, freed) && (Unhung(w', ref) <==> freed)
  {
    hide Serve;
    hide Seeded;
    DetachExactly(s.p.casing, w, id, before.machines[id].seedRef, o);
    var freed := o.fate == Served || o.fate == Lost;
    var w' := Serve(s.p.casing, w, DetachSeed(id, before.machines[id].seedRef), o).0;
    assert Loosened(before, w', id, freed);
    LoosenedHangs(before, w', id, freed);
  }

  lemma UnhookFate(s: Site, before: World, w: World, id: int, o: Outcome)
    requires SeedsSound(before) && id in before.machines && Seeded(before.machines[id]) && SameHoldings(before, w)
    ensures var ref := before.machines[id].seedRef;
            var (w', r) := Serve(s.p.casing, w, DetachSeed(id, ref), o);
            var freed := o.fate == Served || o.fate == Lost;
            && SeedStands(before, Moment(w', ResumeReconcile(s, Unhook(id, ref), r)), id, freed, false)
            && SeedStands(before, Moment(w', ResumeDelete(s, UnhookFirst(id, ref), Answering, r)), id, freed, false)
  {
    UnhookLoosens(s, before, w, id, o);
    hide Serve;
    hide Loosened;
    hide Unhung;
    hide Seeded;
    hide SeedsSound;
  }

  lemma DropClears(s: Site, before: World, w: World, id: int, freed: bool, o: Outcome)
    requires SeedsSound(before) && id in before.machines && Seeded(before.machines[id]) && Loosened(before, w, id, freed)
    ensures var ref := before.machines[id].seedRef;
            var (w', r) := Serve(s.p.casing, w, DeleteSeed(ref), o);
            var dropped := o.fate != Refused;
            && (Unhung(w', ref) <==> freed && !dropped)
            && (!r.Failed? ==> ref !in w'.seeds && dropped)
  {
    hide Serve;
    hide Seeded;
    var ref := before.machines[id].seedRef;
    DropExactly(s.p.casing, w, ref, o);
    LoosenedHangs(before, w, id, freed);
    SameHung(w, Serve(s.p.casing, w, DeleteSeed(ref), o).0, ref);
    hide Hung;
  }

  lemma SameHung(w: World, w': World, ref: string)
    requires w'.machines == w.machines
    ensures Hung(w', ref) == Hung(w, ref)
  {
  }

  lemma DropFate(s: Site, before: World, w: World, id: int, freed: bool, o: Outcome)
    requires SeedsSound(before) && id in before.machines && Seeded(before.machines[id]) && Loosened(before, w, id, freed)
    ensures var ref := before.machines[id].seedRef;
            var (w', r) := Serve(s.p.casing, w, DeleteSeed(ref), o);
            && SeedStands(before, Moment(w', ResumeReconcile(s, Drop(id, ref), r)), id, freed, o.fate != Refused)
            && SeedStands(before, Moment(w', ResumeDelete(s, DropFirst(id, ref), Answering, r)), id, freed, o.fate != Refused)
  {
    DropClears(s, before, w, id, freed, o);
    hide Serve;
    hide Loosened;
    hide Unhung;
    hide Seeded;
    hide SeedsSound;
  }

  lemma ClearedFate(s: Site, before: World, w: World, id: int, n: int, o: Outcome, freed: bool, dropped: bool)
    requires id in before.machines && Cleared(w, before.machines[id].seedRef, freed, dropped)
    ensures var (w', r) := Serve(s.p.casing, w, Delete(n), o);
            SeedStands(before, Moment(w', ResumeDelete(s, DeleteCall(n), Answering, r)), id, freed, dropped)
    ensures var (w', r) := Serve(s.p.casing, w, Get(n), o);
            && SeedStands(before, Moment(w', ResumeReconcile(s, SeedCheck(n), r)), id, freed, dropped)
            && SeedStands(before, Moment(w', ResumeDelete(s, DeleteCheck(n), Answering, r)), id, freed, dropped)
  {
    SeedsOver(s.p.casing, w, n, o);
    QuietCall(s.p.casing, w, Get(n), o);
    hide Serve;
    hide Hung;
    hide Seeded;
  }

  lemma StepFate(s: Site, before: World, m: Moment, id: int, o: Outcome, freed: bool, dropped: bool)
    requires SeedsSound(before) && id in before.machines && Seeded(before.machines[id])
    requires SeedStands(before, m, id, freed, dropped)
    ensures var ref := before.machines[id].seedRef;
            SeedStands(before, Step(s, m, o), id,
                  freed || (Unhooking(m.proc, id, ref) && (o.fate == Served || o.fate == Lost)),
                  dropped || (DroppingImage(m.proc, id, ref) && o.fate != Refused))
  {
    hide Serve;
    hide ResumeReconcile;
    hide ResumeDelete;
    hide SeedsSound;
    hide Seeded;
    hide Unhung;
    hide Loosened;
    hide Cleared;
    hide ProviderID;
    hide SameHoldings;
    match m.proc {
      case Reconciling(SeedFind(_)) => FindFate(s, before, m.world, id, o);
      case Reconciling(AskConsumed(n, ref)) => ConsumedFate(s, before, m.world, id, ref, o);
      case Reconciling(Unhook(_, _)) => UnhookFate(s, before, m.world, id, o);
      case Reconciling(Drop(_, _)) => DropFate(s, before, m.world, id, freed, o);
      case Reconciling(SeedCheck(n)) => ClearedFate(s, before, m.world, id, n, o, freed, dropped);
      case Deleting(DeleteFind(_), _) => FindFate(s, before, m.world, id, o);
      case Deleting(UnhookFirst(_, _), _) => UnhookFate(s, before, m.world, id, o);
      case Deleting(DropFirst(_, _), _) => DropFate(s, before, m.world, id, freed, o);
      case Deleting(DeleteCall(n), _) => ClearedFate(s, before, m.world, id, n, o, freed, dropped);
      case Deleting(DeleteCheck(n), _) => ClearedFate(s, before, m.world, id, n, o, freed, dropped);
      case _ =>
    }
    hide SeedStands;
  }

  lemma {:induction false} RunFate(s: Site, op: Op, before: World, oracle: nat -> Outcome, i: nat, j: nat, id: int)
    requires i <= j && SeedsSound(before) && id in before.machines && Seeded(before.machines[id]) && TakesSeed(op, id)
    ensures SeedStands(before, Reached(s, op, before, oracle, i, j), id, Freed(s, op, before, oracle, i, id, j),
                  Dropped(s, op, before, oracle, i, id, j))
  {
    hide SeedsSound;
    hide Seeded;
    hide Step;
    hide ProviderID;
    if i < j {
      var last := j - 1;
      RunFate(s, op, before, oracle, i, last, id);
      hide SeedStands;
      StepFate(s, before, Reached(s, op, before, oracle, i, last), id, oracle(last),
               Freed(s, op, before, oracle, i, id, last), Dropped(s, op, before, oracle, i, id, last));
      MoreTold(s, op, before, oracle, i, id, last);
      hide Freed;
      hide Dropped;
    }
  }

  lemma MoreTold(s: Site, op: Op, before: World, oracle: nat -> Outcome, i: nat, id: int, j: nat)
    requires i <= j && id in before.machines
    ensures Freed(s, op, before, oracle, i, id, j + 1) <==>
              Freed(s, op, before, oracle, i, id, j) || FreedAt(s, op, before, oracle, i, id, j)
    ensures Dropped(s, op, before, oracle, i, id, j + 1) <==>
              Dropped(s, op, before, oracle, i, id, j) || DroppedAt(s, op, before, oracle, i, id, j)
  {
    hide FreedAt;
    hide DroppedAt;
    hide Reached;
    if k :| i <= k < j + 1 && FreedAt(s, op, before, oracle, i, id, k) {
      assert k == j || Freed(s, op, before, oracle, i, id, j);
    }
    if k :| i <= k < j + 1 && DroppedAt(s, op, before, oracle, i, id, k) {
      assert k == j || Dropped(s, op, before, oracle, i, id, j);
    }
  }

  /** At every point of a `ReconcileBootstrap` or a `Delete` of a VM with a seed, begun in a world whose seeds were sound:
      the seed is there and hangs on no VM if and only if its detachment took effect and its deletion did not. */
  lemma TakingLeavesOrphanExactly(s: Site, op: Op, before: World, oracle: nat -> Outcome, i: nat, j: nat, id: int)
    requires i <= j && SeedsSound(before) && id in before.machines && Seeded(before.machines[id]) && TakesSeed(op, id)
    ensures Unhung(Reached(s, op, before, oracle, i, j).world, before.machines[id].seedRef)
       <==> Freed(s, op, before, oracle, i, id, j) && !Dropped(s, op, before, oracle, i, id, j)
  {
    hide Reached;
    hide Freed;
    hide Dropped;
    hide Seeded;
    hide ProviderID;
    RunFate(s, op, before, oracle, i, j, id);
    FateTells(before, Reached(s, op, before, oracle, i, j), id, Freed(s, op, before, oracle, i, id, j),
              Dropped(s, op, before, oracle, i, id, j));
    hide SeedStands;
    hide Unhung;
    hide SeedsSound;
  }

  lemma FateTells(before: World, m: Moment, id: int, freed: bool, dropped: bool)
    requires SeedsSound(before) && id in before.machines && Seeded(before.machines[id])
    requires SeedStands(before, m, id, freed, dropped)
    ensures Unhung(m.world, before.machines[id].seedRef) <==> freed && !dropped
  {
    hide Seeded;
    hide ProviderID;
    if SameHoldings(before, m.world) {
      SameLoosened(before, m.world, id);
      LoosenedHangs(before, m.world, id, false);
    }
    if Loosened(before, m.world, id, freed) { LoosenedHangs(before, m.world, id, freed); }
    hide Hung;
    hide SeedsSound;
    hide Loosened;
    hide SameHoldings;
  }

  // ----- making a VM -----

  /** Call `k` stages a seed, and it is carried out. */
  ghost predicate StagedAt(s: Site, b: Bootstrap, before: World, oracle: nat -> Outcome, i: nat, k: nat)
    requires i <= k
  {
    var p := Creation(s, b, before, oracle, i, k).proc;
    p.Late? && p.late.StageIt? && oracle(k).fate != Refused && oracle(k).ref !in before.refs
  }

  /** Call `k` hangs the staged seed on the VM, and it is carried out. */
  ghost predicate AttachedAt(s: Site, b: Bootstrap, before: World, oracle: nat -> Outcome, i: nat, k: nat)
    requires i <= k
  {
    var p := Creation(s, b, before, oracle, i, k).proc; p.Late? && p.late.AttachIt? && oracle(k).fate != Refused
  }

  ghost predicate HasStaged(s: Site, b: Bootstrap, before: World, oracle: nat -> Outcome, i: nat, j: nat) {
    exists k | i <= k < j :: StagedAt(s, b, before, oracle, i, k)
  }

  ghost predicate HasAttached(s: Site, b: Bootstrap, before: World, oracle: nat -> Outcome, i: nat, j: nat) {
    exists k | i <= k < j :: AttachedAt(s, b, before, oracle, i, k)
  }

  /** A seed that was not there before, and hangs on no VM. */
  ghost predicate NewUnhung(before: World, w: World) {
    exists ref | ref in w.seeds :: ref !in before.seeds && !Hung(w, ref)
  }

  /** One seed is new, under a reference never handed out before. */
  ghost predicate OneMore(before: World, w: World, ref: string) {
    ref !in before.refs && ref in w.seeds && w.seeds == before.seeds[ref := w.seeds[ref]]
  }

  /** The machines of `before`, and perhaps one more, whose seed reference is `ref`. */
  ghost predicate Plus(before: World, w: World, ref: string) {
    forall id | id in w.machines && id !in before.machines :: w.machines[id].seedRef == ref
  }

  ghost predicate Grown(before: World, w: World) {
    forall id | id in before.machines :: id in w.machines && w.machines[id] == before.machines[id]
  }

  lemma NothingNew(before: World, w: World)
    requires w.seeds == before.seeds
    ensures !NewUnhung(before, w)
  {
  }

  lemma NewHangs(before: World, w: World, ref: string, id: int)
    requires OneMore(before, w, ref) && id in w.machines && w.machines[id].seedRef == ref && !Blank(ref)
    ensures !NewUnhung(before, w)
  {
    assert Seeded(w.machines[id]) && w.machines[id].seedRef == ref;
    assert Hung(w, ref);
  }

  lemma NewDoesNotHang(before: World, w: World, ref: string)
    requires SeedsSound(before) && OneMore(before, w, ref) && Grown(before, w) && Plus(before, w, "")
    ensures NewUnhung(before, w)
  {
    BlankEmpty();
    hide Blank;
    forall id | id in w.machines && Seeded(w.machines[id]) ensures w.machines[id].seedRef != ref {
    }
  }

  /** Where `Create` stands with its seed. */
  ghost predicate Making(before: World, m: Moment, staged: bool, attached: bool) {
    var w := m.world;
    match m.proc
    case Early(_, _) => w.seeds == before.seeds && w.refs == before.refs && !staged && !attached
    case Late(_, id, StageIt) => w.seeds == before.seeds && w.refs == before.refs && !staged && !attached
    case Late(_, id, AttachIt(ref)) => OneMore(before, w, ref) && !Blank(ref) && staged && !attached
    case Late(_, id, StartIt(ref)) => OneMore(before, w, ref) && !Blank(ref) && staged && attached
    case Late(_, id, ReadBack(ref)) => OneMore(before, w, ref) && !Blank(ref) && staged && attached
    case Finished(_) => NewUnhung(before, w) <==> staged && !attached
    case _ => false
  }

  lemma StageExactly(casing: CaseMaps, w: World, id: int, seed: SeedSpec, o: Outcome)
    requires id in w.machines
    ensures var (w', r) := Serve(casing, w, StageSeed(id, seed), o);
            var done := o.fate != Refused && o.ref !in w.refs;
            && w'.machines == w.machines
            && w'.seeds == (if done then w.seeds[o.ref := seed] else w.seeds)
            && r == if done && o.fate != Lost then Ref(o.ref) else Failed(Other)
  {
    hide InState;
  }

  lemma AttachExactly(casing: CaseMaps, w: World, id: int, ref: string, o: Outcome)
    requires id in w.machines && !Seeded(w.machines[id]) && ref in w.seeds
    ensures var (w', r) := Serve(casing, w, AttachSeed(id, ref), o);
            && w'.seeds == w.seeds
            && w'.machines == (if o.fate == Refused then w.machines
                               else w.machines[id := w.machines[id].(seedRef := ref)])
            && (r.Failed? <==> o.fate == Refused || o.fate == Lost)
  {
    hide InState;
    hide Blank;
  }

  lemma EarlyMaking(s: Site, b: Bootstrap, before: World, w: World, step: EarlyStep, o: Outcome)
    requires w.seeds == before.seeds && w.refs == before.refs
    ensures var (w', r) := Serve(s.p.casing, w, EarlyCall(s, b, step), o);
            Making(before, Moment(w', ResumeEarly(s, b, step, r)), false, false)
  {
    EarlyKeepsSeeds(s, b, w, step, o);
    var (w', r) := Serve(s.p.casing, w, EarlyCall(s, b, step), o);
    NothingNew(before, w');
    EarlyGoes(s, b, step, r);
    hide Serve;
    hide NewUnhung;
    hide ResumeEarly;
    hide EarlyCall;
  }

  lemma EarlyKeepsSeeds(s: Site, b: Bootstrap, w: World, step: EarlyStep, o: Outcome)
    ensures var w' := Serve(s.p.casing, w, EarlyCall(s, b, step), o).0; w'.seeds == w.seeds && w'.refs == w.refs
  {
    hide Requested;
    hide Named;
    if step.AskClone? {
      CloneTells(s.p.casing, w, step.template.id, Requested(s, b, step.template), o);
    } else {
      QuietCall(s.p.casing, w, EarlyCall(s, b, step), o);
    }
    hide Serve;
  }

  lemma EarlyGoes(s: Site, b: Bootstrap, step: EarlyStep, r: Reply)
    ensures var p := ResumeEarly(s, b, step, r); p.Early? || (p.Late? && p.late.StageIt?) || p.Finished?
  {
    hide VerifyOwnership;
    hide ToInstance;
    hide TrimSpace;
    hide ExactTemplate;
    hide IsStopped;
  }

  lemma StageMaking(s: Site, b: Bootstrap, before: World, w: World, id: int, o: Outcome)
    requires SeedsSound(before) && w.seeds == before.seeds && w.refs == before.refs
    requires Grown(before, w) && Plus(before, w, "") && id in w.machines
    ensures var (w', r) := Serve(s.p.casing, w, StageSeed(id, Seed(s, b)), o);
            Making(before, Moment(w', ResumeLate(s, b, id, StageIt, r)), o.fate != Refused && o.ref !in before.refs, false)
  {
    hide Seed;
    hide Contains;
    StageExactly(s.p.casing, w, id, Seed(s, b), o);
    hide Serve;
    hide Blank;
    var w' := Serve(s.p.casing, w, StageSeed(id, Seed(s, b)), o).0;
    if o.fate != Refused && o.ref !in before.refs {
      assert OneMore(before, w', o.ref);
      NewDoesNotHang(before, w', o.ref);
    } else {
      NothingNew(before, w');
    }
    hide NewUnhung;
    hide SeedsSound;
  }

  lemma AttachMaking(s: Site, b: Bootstrap, before: World, w: World, id: int, ref: string, o: Outcome)
    requires SeedsSound(before) && OneMore(before, w, ref) && !Blank(ref)
    requires Grown(before, w) && Plus(before, w, "") && id in w.machines && w.machines[id].seedRef == ""
    ensures var (w', r) := Serve(s.p.casing, w, AttachSeed(id, ref), o);
            Making(before, Moment(w', ResumeLate(s, b, id, AttachIt(ref), r)), true, o.fate != Refused)
  {
    BlankEmpty();
    AttachExactly(s.p.casing, w, id, ref, o);
    hide Serve;
    hide Blank;
    var w' := Serve(s.p.casing, w, AttachSeed(id, ref), o).0;
    if o.fate == Refused {
      NewDoesNotHang(before, w', ref);
    } else {
      NewHangs(before, w', ref, id);
    }
    hide NewUnhung;
    hide SeedsSound;
  }

  lemma StartMaking(s: Site, b: Bootstrap, before: World, w: World, id: int, ref: string, o: Outcome)
    requires OneMore(before, w, ref) && !Blank(ref) && id in w.machines && w.machines[id].seedRef == ref
    ensures var (w', r) := Serve(s.p.casing, w, Start(id), o);
            Making(before, Moment(w', ResumeLate(s, b, id, StartIt(ref), r)), true, true)
  {
    PowerTells(s.p.casing, w, id, Start(id), o);
    hide Serve;
    hide Blank;
    NewHangs(before, Serve(s.p.casing, w, Start(id), o).0, ref, id);
    hide NewUnhung;
  }

  lemma ReadMaking(s: Site, b: Bootstrap, before: World, w: World, id: int, ref: string, o: Outcome)
    requires OneMore(before, w, ref) && !Blank(ref) && id in w.machines && w.machines[id].seedRef == ref
    ensures var (w', r) := Serve(s.p.casing, w, Get(id), o);
            Making(before, Moment(w', ResumeLate(s, b, id, ReadBack(ref), r)), true, true)
  {
    QuietCall(s.p.casing, w, Get(id), o);
    var (w', r) := Serve(s.p.casing, w, Get(id), o);
    hide Serve;
    hide Blank;
    NewHangs(before, w', ref, id);
    ReadEnds(s, b, id, ref, r);
    hide NewUnhung;
    hide OneMore;
    hide ResumeLate;
  }

  lemma ReadEnds(s: Site, b: Bootstrap, id: int, ref: string, r: Reply)
    ensures ResumeLate(s, b, id, ReadBack(ref), r).Finished?
  {
    hide VerifyOwnership;
    hide IsRunning;
    hide ToInstance;
  }

  /** What `CreateHolds` says of the machines. */
  lemma HeldMachines(s: Site, b: Bootstrap, before: World, w: World, id: int, step: LateStep)
    requires CreateHolds(s, b, before, w, Late(b, id, step))
    ensures Grown(before, w) && id in w.machines && Plus(before, w, w.machines[id].seedRef)
    ensures step.StageIt? || step.AttachIt? ==> w.machines[id].seedRef == ""
    ensures step.StartIt? || step.ReadBack? ==> w.machines[id].seedRef == step.ref
  {
    hide Mine;
    hide SeedsKept;
    hide IsStopped;
  }

  lemma StepMaking(s: Site, b: Bootstrap, before: World, m: Moment, o: Outcome, staged: bool, attached: bool)
    requires SeedsSound(before) && CreateHolds(s, b, before, m.world, m.proc) && Making(before, m, staged, attached)
    ensures Making(before, Step(s, m, o),
                   staged || (m.proc.Late? && m.proc.late.StageIt? && o.fate != Refused && o.ref !in before.refs),
                   attached || (m.proc.Late? && m.proc.late.AttachIt? && o.fate != Refused))
  {
    hide Serve;
    hide ResumeEarly;
    hide ResumeLate;
    hide EarlyCall;
    hide SeedsSound;
    hide Blank;
    hide NewUnhung;
    hide OneMore;
    match m.proc {
      case Early(_, step) => EarlyMaking(s, b, before, m.world, step, o);
      case Late(_, id, step) =>
        HeldMachines(s, b, before, m.world, id, step);
        match step {
          case StageIt => StageMaking(s, b, before, m.world, id, o);
          case AttachIt(ref) => AttachMaking(s, b, before, m.world, id, ref, o);
          case StartIt(ref) => StartMaking(s, b, before, m.world, id, ref, o);
          case ReadBack(ref) => ReadMaking(s, b, before, m.world, id, ref, o);
        }
      case _ =>
    }
    hide Making;
    hide Grown;
    hide Plus;
  }

  lemma {:induction false} RunMaking(s: Site, b: Bootstrap, before: World, oracle: nat -> Outcome, i: nat, j: nat)
    requires i <= j && SeedsSound(before)
    ensures Making(before, Creation(s, b, before, oracle, i, j), HasStaged(s, b, before, oracle, i, j),
                   HasAttached(s, b, before, oracle, i, j))
  {
    hide SeedsSound;
    hide Step;
    hide Accepts;
    hide CreateHolds;
    if i == j {
      NothingNew(before, before);
      hide NewUnhung;
    } else {
      var last := j - 1;
      RunMaking(s, b, before, oracle, i, last);
      hide Making;
      CreateRunHolds(s, b, before, oracle, i, last);
      StepMaking(s, b, before, Creation(s, b, before, oracle, i, last), oracle(last),
                 HasStaged(s, b, before, oracle, i, last), HasAttached(s, b, before, oracle, i, last));
      MoreMade(s, b, before, oracle, i, last);
      hide HasStaged;
      hide HasAttached;
    }
  }

  lemma MoreMade(s: Site, b: Bootstrap, before: World, oracle: nat -> Outcome, i: nat, j: nat)
    requires i <= j
    ensures HasStaged(s, b, before, oracle, i, j + 1) <==>
              HasStaged(s, b, before, oracle, i, j) || StagedAt(s, b, before, oracle, i, j)
    ensures HasAttached(s, b, before, oracle, i, j + 1) <==>
              HasAttached(s, b, before, oracle, i, j) || AttachedAt(s, b, before, oracle, i, j)
  {
    hide StagedAt;
    hide AttachedAt;
    if k :| i <= k < j + 1 && StagedAt(s, b, before, oracle, i, k) {
      assert k == j || HasStaged(s, b, before, oracle, i, j);
    }
    if k :| i <= k < j + 1 && AttachedAt(s, b, before, oracle, i, k) {
      assert k == j || HasAttached(s, b, before, oracle, i, j);
    }
  }

  /** At every point of a `Create` begun in a world whose seeds were sound: a new seed is there that hangs on no VM if and
      only if the staging took effect and no attachment has. */
  lemma CreateLeavesOrphanExactly(s: Site, b: Bootstrap, before: World, oracle: nat -> Outcome, i: nat, j: nat)
    requires i <= j && SeedsSound(before)
    ensures NewUnhung(before, Creation(s, b, before, oracle, i, j).world)
       <==> HasStaged(s, b, before, oracle, i, j) && !HasAttached(s, b, before, oracle, i, j)
  {
    hide Creation;
    hide HasStaged;
    hide HasAttached;
    RunMaking(s, b, before, oracle, i, j);
    CreateRunHolds(s, b, before, oracle, i, j);
    MakingTells(s, b, before, Creation(s, b, before, oracle, i, j), HasStaged(s, b, before, oracle, i, j),
                HasAttached(s, b, before, oracle, i, j));
    hide Making;
    hide NewUnhung;
    hide CreateHolds;
    hide SeedsSound;
  }

  lemma MakingTells(s: Site, b: Bootstrap, before: World, m: Moment, staged: bool, attached: bool)
    requires SeedsSound(before) && CreateHolds(s, b, before, m.world, m.proc) && Making(before, m, staged, attached)
    ensures NewUnhung(before, m.world) <==> staged && !attached
  {
    hide Blank;
    if m.proc.Late? {
      HeldMachines(s, b, before, m.world, m.proc.id, m.proc.late);
      hide CreateHolds;
      match m.proc.late {
        case StageIt => NothingNew(before, m.world);
        case AttachIt(ref) => NewDoesNotHang(before, m.world, ref);
        case StartIt(ref) => NewHangs(before, m.world, ref, m.proc.id);
        case ReadBack(ref) => NewHangs(before, m.world, ref, m.proc.id);
      }
    } else if m.proc.Early? {
      NothingNew(before, m.world);
    }
    hide NewUnhung;
    hide SeedsSound;
  }
}

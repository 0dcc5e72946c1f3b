/** Why a detachment that TrueNAS acknowledges has to have happened: exactly when one did not, and the image was deleted
    all the same, is a VM left with a seed that no longer exists. */
module VmDangling {
  import opened Names
  import opened Text
  import opened Provider
  import opened CloudInit
  import opened Vm
  import opened VmSafety
  import opened VmRespect
  import opened VmSeeds

  /** The operations that take the seed off one VM. */
  predicate TakesSeed(op: Op, id: int) {
    op == ReconcileOp(ProviderID(id)) || op == DeleteOp(ProviderID(id))
  }

  ghost predicate Dangles(w: World, id: int) {
    id in w.machines && Seeded(w.machines[id]) && w.machines[id].seedRef !in w.seeds
  }

  predicate Unhooking(p: Proc, id: int, ref: string) {
    p == Reconciling(Unhook(id, ref)) || p == Deleting(UnhookFirst(id, ref), Answering)
  }

  predicate DroppingImage(p: Proc, id: int, ref: string) {
    p == Reconciling(Drop(id, ref)) || p == Deleting(DropFirst(id, ref), Answering)
  }

  function Reached(s: Site, op: Op, before: World, oracle: nat -> Outcome, i: nat, j: nat): Moment
    requires i <= j
  {
    Run(s, Moment(before, Begin(op)), oracle, i, j)
  }

  /** Call `k` takes the seed off and is only acknowledged; call `k + 1` deletes the image and is carried out. */
  ghost predicate LiedAt(s: Site, op: Op, before: World, oracle: nat -> Outcome, i: nat, id: int, k: nat)
    requires i <= k && id in before.machines
  {
    && Unhooking(Reached(s, op, before, oracle, i, k).proc, id, before.machines[id].seedRef)
    && oracle(k).fate == Ignored && oracle(k + 1).fate != Refused
  }

  ghost predicate Lied(s: Site, op: Op, before: World, oracle: nat -> Outcome, i: nat, id: int, j: nat)
    requires id in before.machines
  {
    exists k | i <= k < j - 1 :: LiedAt(s, op, before, oracle, i, id, k)
  }

  // ----- what the two calls do -----

  lemma DetachExactly(casing: CaseMaps, w: World, id: int, ref: string, o: Outcome)
    requires id in w.machines && w.machines[id].seedRef == ref
    ensures var (w', r) := Serve(casing, w, DetachSeed(id, ref), o);
            && w'.seeds == w.seeds
            && w'.machines == (if o.fate == Refused || o.fate == Ignored then w.machines
                               else w.machines[id := Unseeded(w.machines[id])])
            && (r.Failed? <==> o.fate == Refused || o.fate == Lost)
  {
    hide InState;
  }

  lemma DropExactly(casing: CaseMaps, w: World, ref: string, o: Outcome)
    requires ref in w.seeds
    ensures var (w', r) := Serve(casing, w, DeleteSeed(ref), o);
            && w'.machines == w.machines
            && w'.seeds == (if o.fate == Refused then w.seeds else w.seeds - {ref})
            && (r.Failed? <==> o.fate == Refused || o.fate == Lost)
  {
    hide InState;
  }

  // ----- where the operation stands -----

  /** Where the operation stands, given whether its last call was only acknowledged and whether it has been lied to. */
  ghost predicate Trail(s: Site, before: World, m: Moment, id: int, ignored: bool, lied: bool)
    requires id in before.machines
  {
    var (first, w) := (before.machines[id], m.world);
    match m.proc
    case Reconciling(SeedFind(target)) => SameHoldings(before, w) && target == ProviderID(id) && !lied
    case Reconciling(AskConsumed(n, ref)) => SameHoldings(before, w) && n == id && ref == first.seedRef && Seeded(first) && !lied
    case Reconciling(Unhook(n, ref)) => SameHoldings(before, w) && n == id && ref == first.seedRef && Seeded(first) && !lied
    case Reconciling(Drop(n, ref)) => n == id && ref == first.seedRef && Unhooked(before, w, id, ignored) && !lied
    case Reconciling(SeedCheck(n)) => Settled(w, id, lied)
    case Deleting(DeleteFind(target), Answering) => SameHoldings(before, w) && target == ProviderID(id) && !lied
    case Deleting(UnhookFirst(n, ref), Answering) =>
      SameHoldings(before, w) && n == id && ref == first.seedRef && Seeded(first) && !lied
    case Deleting(DropFirst(n, ref), Answering) => n == id && ref == first.seedRef && Unhooked(before, w, id, ignored) && !lied
    case Deleting(DeleteCall(n), Answering) => n == id && Settled(w, id, lied)
    case Deleting(DeleteCheck(n), Answering) => n == id && Settled(w, id, lied)
    case Finished(_) => Settled(w, id, lied)
    case _ => false
  }

  /** Between the detachment and the deletion: the images are all there, and the VM has its seed if it kept it. */
  ghost predicate Unhooked(before: World, w: World, id: int, ignored: bool)
    requires id in before.machines
  {
    var first := before.machines[id];
    && Seeded(first) && w.seeds == before.seeds && id in w.machines
    && w.machines[id] == if ignored then first else Unseeded(first)
  }

  ghost predicate Settled(w: World, id: int, lied: bool) {
    Dangles(w, id) <==> lied && id in w.machines
  }

  lemma NothingDangles(before: World, w: World, id: int)
    requires SeedsSound(before) && id in before.machines && SameHoldings(before, w)
    ensures !Dangles(w, id)
  {
    hide Seeded;
  }

  lemma FindTrail(s: Site, before: World, w: World, id: int, o: Outcome)
    requires SeedsSound(before) && id in before.machines && SameHoldings(before, w)
    ensures var (w', r) := Serve(s.p.casing, w, List, o);
            && Trail(s, before, Moment(w', ResumeReconcile(s, SeedFind(ProviderID(id)), r)), id, o.fate == Ignored, false)
            && Trail(s, before, Moment(w', ResumeDelete(s, DeleteFind(ProviderID(id)), Answering, r)), id, o.fate == Ignored,
                     false)
  {
    hide Serve;
    hide Found;
    hide Owned;
    hide IsStopped;
    hide Seeded;
    hide ProviderID;
    hide Dangles;
    FoundTells(s, w, o, ProviderID(id));
    var (w', r) := Serve(s.p.casing, w, List, o);
    NothingDangles(before, w', id);
    var found := Found(s, r, ProviderID(id));
    if found.Ok? { SameProviderID(found.value.id, id); }
    hide SeedsSound;
  }

  lemma ConsumedTrail(s: Site, before: World, w: World, id: int, ref: string, o: Outcome)
    requires SeedsSound(before) && id in before.machines && Trail(s, before, Moment(w, Reconciling(AskConsumed(id, ref))), id, false, false)
    ensures var (w', r) := Serve(s.p.casing, w, BootstrapConsumed(id), o);
            Trail(s, before, Moment(w', ResumeReconcile(s, AskConsumed(id, ref), r)), id, o.fate == Ignored, false)
  {
    QuietCall(s.p.casing, w, BootstrapConsumed(id), o);
    hide Serve;
    hide Seeded;
    hide Dangles;
    NothingDangles(before, Serve(s.p.casing, w, BootstrapConsumed(id), o).0, id);
    hide SeedsSound;
  }

  lemma UnhookLeaves(s: Site, before: World, w: World, id: int, o: Outcome)
    requires SeedsSound(before) && id in before.machines && SameHoldings(before, w) && Seeded(before.machines[id])
    ensures var (w', r) := Serve(s.p.casing, w, DetachSeed(id, before.machines[id].seedRef), o);
            if r.Failed? then o.fate != Ignored && Settled(w', id, false) else Unhooked(before, w', id, o.fate == Ignored)
  {
    hide Serve;
    DetachExactly(s.p.casing, w, id, before.machines[id].seedRef, o);
    UnseededFree(before.machines[id]);
    hide Seeded;
  }

  lemma UnhookTrail(s: Site, before: World, w: World, id: int, o: Outcome)
    requires SeedsSound(before) && id in before.machines && SameHoldings(before, w) && Seeded(before.machines[id])
    ensures var ref := before.machines[id].seedRef;
            var (w', r) := Serve(s.p.casing, w, DetachSeed(id, ref), o);
            && Trail(s, before, Moment(w', ResumeReconcile(s, Unhook(id, ref), r)), id, o.fate == Ignored, false)
            && Trail(s, before, Moment(w', ResumeDelete(s, UnhookFirst(id, ref), Answering, r)), id, o.fate == Ignored, false)
            && (o.fate == Ignored ==> !r.Failed?)
  {
    UnhookLeaves(s, before, w, id, o);
    hide Serve;
    hide Settled;
    hide Unhooked;
    hide Seeded;
    hide Found;
    hide SameHoldings;
    hide ProviderID;
    hide SeedsSound;
  }

  lemma UnseededFree(m: Machine)
    ensures !Seeded(Unseeded(m))
  {
  }

  lemma DropSettles(s: Site, before: World, w: World, id: int, ignored: bool, o: Outcome)
    requires SeedsSound(before) && id in before.machines && Unhooked(before, w, id, ignored)
    ensures Settled(Serve(s.p.casing, w, DeleteSeed(before.machines[id].seedRef), o).0, id, ignored && o.fate != Refused)
  {
    hide Serve;
    DropExactly(s.p.casing, w, before.machines[id].seedRef, o);
    UnseededFree(before.machines[id]);
    hide Seeded;
  }

  lemma ReconcileDrops(s: Site, before: World, w: World, id: int, ignored: bool, o: Outcome)
    requires SeedsSound(before) && id in before.machines && Unhooked(before, w, id, ignored)
    ensures var ref := before.machines[id].seedRef;
            var (w', r) := Serve(s.p.casing, w, DeleteSeed(ref), o);
            Trail(s, before, Moment(w', ResumeReconcile(s, Drop(id, ref), r)), id, o.fate == Ignored, ignored && o.fate != Refused)
  {
    DropSettles(s, before, w, id, ignored, o);
    hide Serve;
    hide Settled;
    hide Unhooked;
    hide SeedsSound;
  }

  lemma DeleteDrops(s: Site, before: World, w: World, id: int, ignored: bool, o: Outcome)
    requires SeedsSound(before) && id in before.machines && Unhooked(before, w, id, ignored)
    ensures var ref := before.machines[id].seedRef;
            var (w', r) := Serve(s.p.casing, w, DeleteSeed(ref), o);
            Trail(s, before, Moment(w', ResumeDelete(s, DropFirst(id, ref), Answering, r)), id, o.fate == Ignored,
                  ignored && o.fate != Refused)
  {
    DropSettles(s, before, w, id, ignored, o);
    hide Serve;
    hide Settled;
    hide Unhooked;
    hide SeedsSound;
  }

  lemma DeleteTrail(s: Site, before: World, w: World, id: int, o: Outcome, lied: bool)
    requires id in before.machines && Settled(w, id, lied)
    ensures var (w', r) := Serve(s.p.casing, w, Delete(id), o);
            Trail(s, before, Moment(w', ResumeDelete(s, DeleteCall(id), Answering, r)), id, o.fate == Ignored, lied)
  {
    SeedsOver(s.p.casing, w, id, o);
    if id in w.machines { DeleteTells(s.p.casing, w, id, o); } else { GoneStays(s.p.casing, w, id, o); }
    hide Serve;
    hide Seeded;
  }

  lemma GoneStays(casing: CaseMaps, w: World, id: int, o: Outcome)
    requires id !in w.machines
    ensures id !in Serve(casing, w, Delete(id), o).0.machines
  {
    hide InState;
  }

  lemma CheckTrail(s: Site, before: World, w: World, n: int, id: int, o: Outcome, lied: bool)
    requires id in before.machines && Settled(w, id, lied)
    ensures var (w', r) := Serve(s.p.casing, w, Get(n), o);
            && Trail(s, before, Moment(w', ResumeReconcile(s, SeedCheck(n), r)), id, o.fate == Ignored, lied)
            && Trail(s, before, Moment(w', ResumeDelete(s, DeleteCheck(n), Answering, r)), id, o.fate == Ignored, lied)
  {
    QuietCall(s.p.casing, w, Get(n), o);
    hide Serve;
    hide Seeded;
  }

  /** The lie that the coming call would complete. */
  ghost predicate Completes(p: Proc, id: int, ref: string, ignored: bool, o: Outcome) {
    DroppingImage(p, id, ref) && ignored && o.fate != Refused
  }

  lemma StepTrail(s: Site, before: World, m: Moment, id: int, o: Outcome, ignored: bool, lied: bool)
    requires SeedsSound(before) && id in before.machines && Trail(s, before, m, id, ignored, lied)
    ensures Trail(s, before, Step(s, m, o), id, o.fate == Ignored,
                  lied || Completes(m.proc, id, before.machines[id].seedRef, ignored, o))
  {
    hide Serve;
    hide ResumeReconcile;
    hide ResumeDelete;
    hide SeedsSound;
    hide Seeded;
    hide Settled;
    hide Unhooked;
    hide ProviderID;
    hide SameHoldings;
    match m.proc {
      case Reconciling(SeedFind(_)) => FindTrail(s, before, m.world, id, o);
      case Reconciling(AskConsumed(n, ref)) => ConsumedTrail(s, before, m.world, id, ref, o);
      case Reconciling(Unhook(_, _)) => UnhookTrail(s, before, m.world, id, o);
      case Reconciling(Drop(_, _)) => ReconcileDrops(s, before, m.world, id, ignored, o);
      case Reconciling(SeedCheck(n)) => CheckTrail(s, before, m.world, n, id, o, lied);
      case Deleting(DeleteFind(_), _) => FindTrail(s, before, m.world, id, o);
      case Deleting(UnhookFirst(_, _), _) => UnhookTrail(s, before, m.world, id, o);
      case Deleting(DropFirst(_, _), _) => DeleteDrops(s, before, m.world, id, ignored, o);
      case Deleting(DeleteCall(_), _) => DeleteTrail(s, before, m.world, id, o, lied);
      case Deleting(DeleteCheck(n), _) => CheckTrail(s, before, m.world, n, id, o, lied);
      case _ =>
    }
    hide Trail;
  }

  lemma DroppingComesFrom(s: Site, before: World, m: Moment, id: int, o: Outcome, ignored: bool, lied: bool)
    requires SeedsSound(before) && id in before.machines && Trail(s, before, m, id, ignored, lied)
    ensures var ref := before.machines[id].seedRef;
            o.fate == Ignored ==> (Unhooking(m.proc, id, ref) <==> DroppingImage(Step(s, m, o).proc, id, ref))
  {
    hide Serve;
    hide Found;
    hide Seeded;
    hide SeedsSound;
    if m.proc.Reconciling? && m.proc.reconcile.Unhook? { UnhookTrail(s, before, m.world, id, o); }
    if m.proc.Deleting? && m.proc.step.UnhookFirst? { UnhookTrail(s, before, m.world, id, o); }
    hide SameHoldings;
    hide Unhooked;
    hide Settled;
  }

  // ----- whole runs -----

  ghost predicate WasIgnored(oracle: nat -> Outcome, i: nat, j: nat) {
    i < j && oracle(j - 1).fate == Ignored
  }

  lemma {:induction false} RunTrail(s: Site, op: Op, before: World, oracle: nat -> Outcome, i: nat, j: nat, id: int)
    requires i <= j && SeedsSound(before) && id in before.machines && TakesSeed(op, id)
    ensures Trail(s, before, Reached(s, op, before, oracle, i, j), id, WasIgnored(oracle, i, j),
                  Lied(s, op, before, oracle, i, id, j))
    decreases j, 1
  {
    hide SeedsSound;
    hide Step;
    hide ProviderID;
    if i < j {
      var (last, ref) := (j - 1, before.machines[id].seedRef);
      RunTrail(s, op, before, oracle, i, last, id);
      hide Trail;
      var m := Reached(s, op, before, oracle, i, last);
      StepTrail(s, before, m, id, oracle(last), WasIgnored(oracle, i, last), Lied(s, op, before, oracle, i, id, last));
      LiesGrow(s, op, before, oracle, i, last, id);
      hide Lied;
    }
  }

  /** One more call: what is told so far is what was told before, or the lie this call completes. */
  lemma {:induction false} LiesGrow(s: Site, op: Op, before: World, oracle: nat -> Outcome, i: nat, j: nat, id: int)
    requires i <= j && SeedsSound(before) && id in before.machines && TakesSeed(op, id)
    ensures Lied(s, op, before, oracle, i, id, j + 1) <==>
              || Lied(s, op, before, oracle, i, id, j)
              || Completes(Reached(s, op, before, oracle, i, j).proc, id, before.machines[id].seedRef,
                           WasIgnored(oracle, i, j), oracle(j))
    decreases j, 0
  {
    hide SeedsSound;
    hide Step;
    hide ProviderID;
    hide DroppingImage;
    hide Unhooking;
    if i < j {
      RunTrail(s, op, before, oracle, i, j - 1, id);
      hide Trail;
      DroppingComesFrom(s, before, Reached(s, op, before, oracle, i, j - 1), id, oracle(j - 1),
                        WasIgnored(oracle, i, j - 1), Lied(s, op, before, oracle, i, id, j - 1));
      assert LiedAt(s, op, before, oracle, i, id, j - 1) <==>
               Completes(Reached(s, op, before, oracle, i, j).proc, id, before.machines[id].seedRef,
                         WasIgnored(oracle, i, j), oracle(j));
      if k :| i <= k < j && LiedAt(s, op, before, oracle, i, id, k) {
        assert k == j - 1 || Lied(s, op, before, oracle, i, id, j);
      }
    }
    hide Reached;
  }

  /** At every point of a `ReconcileBootstrap` or a `Delete` of a VM, begun in a world whose seeds were sound: the VM has
      a seed that no longer exists if and only if the detachment was only acknowledged, the deletion of the image after
      it was carried out, and the VM is still there. */
  lemma LyingDetachDanglesExactly(s: Site, op: Op, before: World, oracle: nat -> Outcome, i: nat, j: nat, id: int)
    requires i <= j && SeedsSound(before) && id in before.machines && TakesSeed(op, id)
    ensures var w := Reached(s, op, before, oracle, i, j).world;
            Dangles(w, id) <==> Lied(s, op, before, oracle, i, id, j) && id in w.machines
  {
    hide Reached;
    hide Lied;
    hide ProviderID;
    RunTrail(s, op, before, oracle, i, j, id);
    TrailTells(s, before, Reached(s, op, before, oracle, i, j), id, WasIgnored(oracle, i, j),
               Lied(s, op, before, oracle, i, id, j));
    hide Trail;
    hide Dangles;
    hide SeedsSound;
  }

  lemma TrailTells(s: Site, before: World, m: Moment, id: int, ignored: bool, lied: bool)
    requires SeedsSound(before) && id in before.machines && Trail(s, before, m, id, ignored, lied)
    ensures Settled(m.world, id, lied)
  {
    UnseededFree(before.machines[id]);
    if !m.proc.Finished? && SameHoldings(before, m.world) { NothingDangles(before, m.world, id); }
    hide SeedsSound;
    hide SameHoldings;
    hide Seeded;
    hide ProviderID;
  }

  // ----- it happens -----

  /** The caller's own VM, stopped, with a seed on it. */
  function SeededVM(s: Site, b: Bootstrap): Machine {
    Requested(s, b, PINNED_TEMPLATE).(state := STOPPED, seedRef := "s")
  }

  /** A world with that VM alone, whose bootstrap has been consumed. */
  function SeededWorld(s: Site, b: Bootstrap): World {
    World(map[1 := SeededVM(s, b)], map["s" := Seed(s, b)], {"s"}, {1})
  }

  /** Every call is served but the third, the detachment, which is only acknowledged. */
  function LyingOnce(): nat -> Outcome {
    k => Outcome(if k == 2 then Ignored else Served, "", PINNED_TEMPLATE, 1, "", "", [1], {})
  }

  lemma SeededVMIs(s: Site, b: Bootstrap)
    requires s.Valid()
    ensures Owned(s, SeededVM(s, b)) && IsStopped(s, SeededVM(s, b)) && Seeded(SeededVM(s, b))
    ensures SeedsSound(SeededWorld(s, b))
  {
    hide Named;
    hide Seed;
    PlainSeeded();
    hide Blank;
  }

  lemma PlainSeeded()
    ensures !Blank("s")
  {
    assert TrimLeft("s", White) == "s";
  }

  lemma FindsAlone(s: Site, w: World, id: int, o: Outcome)
    requires w.machines.Keys == {id} && Owned(s, w.machines[id]) && o.fate == Served && o.order == [id]
    ensures var (w', r) := Serve(s.p.casing, w, List, o);
            SameHoldings(w, w') && Found(s, r, ProviderID(id)) == Ok(Item(id, w.machines[id]))
  {
    hide ProviderID;
    hide Sound;
    hide Identified;
    ListTells(s.p.casing, w, o);
    ServesList(s.p.casing, w, o);
    hide Serve;
    assert [id][1..] == [];
    assert Itemized(w, [id]) == [Item(id, w.machines[id])];
  }

  lemma ServesList(casing: CaseMaps, w: World, o: Outcome)
    requires o.fate == Served && Enumerates(o.order, w.machines.Keys)
    ensures Serve(casing, w, List, o).1.Many?
  {
    hide InState;
    hide Itemized;
  }

  lemma ReachedNext(s: Site, op: Op, before: World, oracle: nat -> Outcome, k: nat)
    ensures Reached(s, op, before, oracle, 0, k + 1) == Step(s, Reached(s, op, before, oracle, 0, k), oracle(k))
  {
    hide Step;
  }

  lemma FoundFirst(s: Site, w: World, o: Outcome)
    requires w.machines.Keys == {1} && Owned(s, w.machines[1]) && IsStopped(s, w.machines[1]) && Seeded(w.machines[1])
    requires o.fate == Served && o.order == [1]
    ensures var m := Step(s, Moment(w, Reconciling(SeedFind(ProviderID(1)))), o);
            m.proc == Reconciling(AskConsumed(1, w.machines[1].seedRef)) && SameHoldings(w, m.world)
  {
    FindsAlone(s, w, 1, o);
    hide ProviderID;
    hide Serve;
    hide Found;
    hide IsStopped;
    hide Seeded;
    hide Owned;
  }

  lemma ConsumedNext(s: Site, m: Moment, o: Outcome)
    requires m.proc == Reconciling(AskConsumed(1, "s")) && 1 in m.world.machines && 1 in m.world.consumed && o.fate == Served
    ensures var next := Step(s, m, o); next.proc == Reconciling(Unhook(1, "s")) && SameHoldings(m.world, next.world)
  {
    ConsumedServed(s.p.casing, m.world, 1, o);
    hide Serve;
  }

  lemma LyingFound(s: Site, b: Bootstrap)
    requires s.Valid()
    ensures var m := Reached(s, ReconcileOp(ProviderID(1)), SeededWorld(s, b), LyingOnce(), 0, 1);
            m.proc == Reconciling(AskConsumed(1, "s")) && SameHoldings(SeededWorld(s, b), m.world)
  {
    hide ProviderID;
    hide Step;
    hide IsStopped;
    hide Seeded;
    hide Owned;
    hide SeedsSound;
    hide Reached;
    hide SeededVM;
    hide PINNED_TEMPLATE;
    hide Seed;
    var (op, before) := (ReconcileOp(ProviderID(1)), SeededWorld(s, b));
    SeededVMIs(s, b);
    SeededVMHangs(s, b);
    ReachedStart(s, op, before, LyingOnce());
    ReachedNext(s, op, before, LyingOnce(), 0);
    FoundFirst(s, before, LyingOnce()(0));
  }

  /** At the detachment: everything was found in order, and nothing has changed. */
  lemma LyingStart(s: Site, b: Bootstrap)
    requires s.Valid()
    ensures var m := Reached(s, ReconcileOp(ProviderID(1)), SeededWorld(s, b), LyingOnce(), 0, 2);
            m.proc == Reconciling(Unhook(1, "s")) && SameHoldings(SeededWorld(s, b), m.world)
  {
    hide ProviderID;
    hide Step;
    hide Reached;
    hide SeededVM;
    hide PINNED_TEMPLATE;
    hide Seed;
    var (op, before) := (ReconcileOp(ProviderID(1)), SeededWorld(s, b));
    LyingFound(s, b);
    ReachedNext(s, op, before, LyingOnce(), 1);
    ConsumedNext(s, Reached(s, op, before, LyingOnce(), 0, 1), LyingOnce()(1));
  }

  lemma SeededVMHangs(s: Site, b: Bootstrap)
    ensures SeededVM(s, b).seedRef == "s"
  {
  }

  lemma ReachedStart(s: Site, op: Op, before: World, oracle: nat -> Outcome)
    ensures Reached(s, op, before, oracle, 0, 0) == Moment(before, Begin(op))
  {
  }

  lemma ConsumedServed(casing: CaseMaps, w: World, id: int, o: Outcome)
    requires id in w.machines && id in w.consumed && o.fate == Served
    ensures var (w', r) := Serve(casing, w, BootstrapConsumed(id), o); SameHoldings(w, w') && r == Consumed(true)
  {
    hide InState;
  }

  /** For every manager and request there is a `ReconcileBootstrap` of the caller's own stopped and consumed VM, in a
      world whose seeds are sound and with every call but the detachment served, that leaves the VM with a seed that no
      longer exists. */
  lemma LyingDetachDangles(s: Site, b: Bootstrap)
    requires s.Valid()
    ensures SeedsSound(SeededWorld(s, b))
    ensures Dangles(Reached(s, ReconcileOp(ProviderID(1)), SeededWorld(s, b), LyingOnce(), 0, 4).world, 1)
  {
    var (op, before) := (ReconcileOp(ProviderID(1)), SeededWorld(s, b));
    SeededVMIs(s, b);
    LyingStart(s, b);
    ReachedNext(s, op, before, LyingOnce(), 2);
    ReachedNext(s, op, before, LyingOnce(), 3);
    hide ProviderID;
    hide Step;
    hide Seeded;
    hide Reached;
    hide SeedsSound;
    hide Dangles;
    LyingEnd(s, Reached(s, op, before, LyingOnce(), 0, 2), LyingOnce()(2), LyingOnce()(3));
  }

  lemma LyingEnd(s: Site, m: Moment, lie: Outcome, drop: Outcome)
    requires m.proc == Reconciling(Unhook(1, "s")) && lie.fate == Ignored && drop.fate == Served
    requires var w := m.world; 1 in w.machines && Seeded(w.machines[1]) && w.machines[1].seedRef == "s" && "s" in w.seeds
    ensures Dangles(Step(s, Step(s, m, lie), drop).world, 1)
  {
    hide Serve;
    hide Seeded;
    DetachExactly(s.p.casing, m.world, 1, "s", lie);
    var next := Step(s, m, lie);
    assert next.proc == Reconciling(Drop(1, "s"));
    DropExactly(s.p.casing, next.world, "s", drop);
  }
}

/** No VM operation changes what another owner has; VMs and seeds go only from VMs seen stopped, and a reconciled seed
    only after it was consumed. */
module VmRespect {
  import opened Text
  import opened Names
  import opened Provider
  import opened CloudInit
  import opened Vm
  import opened VmSafety

  predicate Owned(s: Site, m: Machine) {
    Owner(s, m).Ok?
  }

  /** A VM its owner may take apart. */
  predicate Idle(s: Site, m: Machine) {
    Owned(s, m) && IsStopped(s, m)
  }

  function Unseeded(m: Machine): Machine {
    m.(seedRef := "")
  }

  /** An owned running VM of which only the power state has changed. */
  predicate Switched(s: Site, m: Machine, m': Machine) {
    Owned(s, m) && IsRunning(s, m) && m' == m.(state := m'.state)
  }

  /** Some idle VM of `before` had this seed on it. */
  ghost predicate SeedOfIdle(s: Site, before: World, ref: string) {
    exists id | id in before.machines :: Idle(s, before.machines[id]) && Seeded(before.machines[id])
                                         && before.machines[id].seedRef == ref
  }

  /** What an operation of `s` may have done to the world `before`. */
  ghost predicate Respects(s: Site, before: World, w: World) {
    && (forall id | id in before.machines && id !in w.machines :: Idle(s, before.machines[id]))
    && (forall id | id in before.machines && id in w.machines ::
          || w.machines[id] == before.machines[id]
          || Switched(s, before.machines[id], w.machines[id])
          || (Idle(s, before.machines[id]) && w.machines[id] == Unseeded(before.machines[id])))
    && (forall id | id in w.machines && id !in before.machines :: Identified(s, w.machines[id]))
    && (forall ref | ref in before.seeds && ref in before.refs && ref !in w.seeds :: SeedOfIdle(s, before, ref))
  }

  /** What taking VMs apart may have done: idle VMs may be gone or unseeded, and seeds of idle VMs may be gone. */
  ghost predicate Retired(s: Site, before: World, w: World) {
    && (forall id | id in before.machines && id !in w.machines :: Idle(s, before.machines[id]))
    && (forall id | id in w.machines ::
          && id in before.machines
          && (w.machines[id] == before.machines[id]
              || (Idle(s, before.machines[id]) && w.machines[id] == Unseeded(before.machines[id]))))
    && (forall ref | ref in before.seeds && ref !in w.seeds :: SeedOfIdle(s, before, ref))
  }

  /** The operation has VM `id` in hand: it was idle when it was found, with this seed. */
  ghost predicate InHand(s: Site, before: World, w: World, id: int, ref: string) {
    && Retired(s, before, w)
    && id in w.machines && id in before.machines && Idle(s, before.machines[id])
    && Seeded(before.machines[id]) && before.machines[id].seedRef == ref
  }

  /** What an unfinished operation other than `Create` keeps. */
  ghost predicate OpHolds(s: Site, before: World, w: World, p: Proc) {
    match p
    case Look(StopCall(id)) =>
      SameHoldings(before, w) && id in w.machines && Owned(s, w.machines[id]) && IsRunning(s, w.machines[id])
    case Look(StopCheck(_)) => Respects(s, before, w)
    case Look(_) => SameHoldings(before, w)
    case Reconciling(SeedFind(_)) => SameHoldings(before, w)
    case Reconciling(AskConsumed(id, ref)) => InHand(s, before, w, id, ref) && w.machines[id] == before.machines[id]
    case Reconciling(Unhook(id, ref)) =>
      InHand(s, before, w, id, ref) && w.machines[id] == before.machines[id] && id in w.consumed
    case Reconciling(Drop(id, ref)) => InHand(s, before, w, id, ref) && id in w.consumed
    case Reconciling(SeedCheck(_)) => Retired(s, before, w)
    case Deleting(UnhookFirst(id, ref), _) => InHand(s, before, w, id, ref) && w.machines[id] == before.machines[id]
    case Deleting(DropFirst(id, ref), _) => InHand(s, before, w, id, ref)
    case Deleting(DeleteCall(id), _) =>
      Retired(s, before, w) && id in w.machines && id in before.machines && Idle(s, before.machines[id])
    case Deleting(_, _) => Retired(s, before, w)
    case SweepList => SameHoldings(before, w)
    case SweepFind(_, _, _) => Retired(s, before, w)
    case Finished(_) => Respects(s, before, w)
    case _ => false
  }

  lemma SameRetired(s: Site, before: World, w: World)
    requires SameHoldings(before, w)
    ensures Retired(s, before, w) && Respects(s, before, w)
  {
    hide Idle;
  }

  lemma RetiredRespects(s: Site, before: World, w: World)
    requires Retired(s, before, w)
    ensures Respects(s, before, w)
  {
    hide Idle;
    hide Switched;
    hide Identified;
    hide SeedOfIdle;
  }

  lemma HoldingsOver(s: Site, before: World, w: World, w': World)
    requires SameHoldings(w, w')
    ensures Retired(s, before, w) == Retired(s, before, w')
    ensures Respects(s, before, w) == Respects(s, before, w')
  {
    hide Idle;
    hide Switched;
    hide Identified;
    hide SeedOfIdle;
  }

  // ----- what a listing finds -----

  lemma {:induction false} FindTells(w: World, ids: seq<int>, providerID: string)
    requires forall k | 0 <= k < |ids| :: ids[k] in w.machines
    ensures match Find(Itemized(w, ids), providerID)
            case None => forall k | 0 <= k < |ids| :: ProviderID(ids[k]) != providerID
            case Some(item) => item.id in ids && item.id in w.machines && item.machine == w.machines[item.id]
                               && ProviderID(item.id) == providerID
  {
    hide ProviderID;
    if ids != [] { FindTells(w, ids[1..], providerID); }
  }

  lemma SameProviderID(a: int, b: int)
    requires ProviderID(a) == ProviderID(b)
    ensures a == b
  {
    DecimalInjective("vm:", a, b);
  }

  lemma FoundTells(s: Site, w: World, o: Outcome, providerID: string)
    ensures var (w', r) := Serve(s.p.casing, w, List, o);
            && SameHoldings(w, w')
            && (match Found(s, r, providerID)
                case Err(e) => e == NotFound ==> forall id | id in w.machines :: ProviderID(id) != providerID
                case Ok(item) => item.id in w.machines && item.machine == w.machines[item.id]
                                 && ProviderID(item.id) == providerID && Owned(s, item.machine))
  {
    ListTells(s.p.casing, w, o);
    var r := Serve(s.p.casing, w, List, o).1;
    hide Serve;
    hide Itemized;
    hide Identified;
    hide Sound;
    hide Find;
    hide ProviderID;
    if r.Many? {
      FindTells(w, o.order, providerID);
      assert forall id | id in w.machines :: id in o.order;
    }
    hide SameHoldings;
  }

  // ----- every step -----

  lemma ReturnHolds(s: Site, before: World, w: World, after: After, r: Result<Unit>)
    requires Retired(s, before, w)
    ensures OpHolds(s, before, w, Return(after, r))
  {
    RetiredRespects(s, before, w);
    hide Retired;
    hide Respects;
  }

  lemma StoppingKeeps(s: Site, before: World, w: World, step: LookStep, o: Outcome)
    requires OpHolds(s, before, w, Look(step)) && (step.StopCall? || step.StopCheck?)
    ensures var (w', r) := Serve(s.p.casing, w, LookCall(step), o);
            OpHolds(s, before, w', ResumeLook(s, step, r))
  {
    hide Serve;
    hide Owned;
    hide IsRunning;
    hide IsStopped;
    hide Respects;
    var w' := Serve(s.p.casing, w, LookCall(step), o).0;
    match step
    case StopCall(id) =>
      PowerTells(s.p.casing, w, id, Stop(id, false), o);
      SwitchedRespects(s, before, w', id);
    case StopCheck(id) =>
      GetTells(s.p.casing, w, id, o);
      HoldingsOver(s, before, w, w');
  }

  lemma SwitchedRespects(s: Site, before: World, w: World, id: int)
    requires id in before.machines && Owned(s, before.machines[id]) && IsRunning(s, before.machines[id])
    requires id in w.machines && w.machines == before.machines[id := w.machines[id]] && w.seeds == before.seeds
    requires w.machines[id] == before.machines[id] || w.machines[id] == before.machines[id].(state := w.machines[id].state)
    ensures Respects(s, before, w)
  {
    hide Owned;
    hide IsStopped;
    hide IsRunning;
    hide Identified;
    hide SeedOfIdle;
  }

  lemma LookKeeps(s: Site, before: World, w: World, step: LookStep, o: Outcome)
    requires OpHolds(s, before, w, Look(step)) && !step.StopCall? && !step.StopCheck?
    ensures var (w', r) := Serve(s.p.casing, w, LookCall(step), o);
            OpHolds(s, before, w', ResumeLook(s, step, r))
  {
    hide Serve;
    hide Selected;
    hide Instances;
    hide ToInstance;
    hide Found;
    hide Owned;
    hide IsRunning;
    hide IsStopped;
    hide Respects;
    hide Retired;
    ListTells(s.p.casing, w, o);
    SameRetired(s, before, Serve(s.p.casing, w, List, o).0);
    if step.StopFind? { FoundTells(s, w, o, step.providerID); }
  }

  lemma InHandOver(s: Site, before: World, w: World, w': World, id: int, ref: string)
    requires InHand(s, before, w, id, ref) && SameHoldings(w, w')
    ensures InHand(s, before, w', id, ref)
  {
    HoldingsOver(s, before, w, w');
    hide Retired;
    hide Idle;
    hide Seeded;
  }

  lemma FoundInHand(s: Site, before: World, w: World, id: int)
    requires Retired(s, before, w) && id in w.machines && Idle(s, w.machines[id]) && Seeded(w.machines[id])
    ensures InHand(s, before, w, id, w.machines[id].seedRef) && w.machines[id] == before.machines[id]
  {
    BlankEmpty();
    hide Idle;
    hide SeedOfIdle;
  }

  lemma BlankEmpty()
    ensures Blank("")
  {
  }

  lemma FoundIdle(s: Site, before: World, w: World, id: int)
    requires Retired(s, before, w) && id in w.machines && Idle(s, w.machines[id])
    ensures id in before.machines && Idle(s, before.machines[id])
  {
    UnseededIdle(s, before.machines[id]);
    hide Idle;
    hide SeedOfIdle;
  }

  lemma UnseededIdle(s: Site, m: Machine)
    ensures Idle(s, Unseeded(m)) == Idle(s, m)
  {
    hide ExactTemplate;
    hide OWNER_SCHEMA;
    hide MANAGED_BY;
    hide FLAVOR;
    hide RUNNING;
    hide STOPPED;
  }

  lemma UnhookRetires(s: Site, before: World, w: World, w': World, id: int, ref: string)
    requires InHand(s, before, w, id, ref) && w.machines[id] == before.machines[id]
    requires w'.seeds == w.seeds
    requires w'.machines == w.machines || w'.machines == w.machines[id := Unseeded(w.machines[id])]
    ensures InHand(s, before, w', id, ref)
  {
    hide Idle;
    hide Seeded;
    hide SeedOfIdle;
  }

  lemma DropRetires(s: Site, before: World, w: World, w': World, id: int, ref: string)
    requires InHand(s, before, w, id, ref)
    requires w'.machines == w.machines && (w'.seeds == w.seeds || w'.seeds == w.seeds - {ref})
    ensures InHand(s, before, w', id, ref)
  {
    assert SeedOfIdle(s, before, ref);
    hide Idle;
    hide Seeded;
    hide SeedOfIdle;
  }

  lemma RemovalRetires(s: Site, before: World, w: World, w': World, id: int)
    requires Retired(s, before, w) && id in w.machines && id in before.machines && Idle(s, before.machines[id])
    requires w'.seeds == w.seeds && (w'.machines == w.machines || w'.machines == w.machines - {id})
    ensures Retired(s, before, w')
  {
    hide Idle;
    hide SeedOfIdle;
  }

  lemma ReconcileKeeps(s: Site, before: World, w: World, step: ReconcileStep, o: Outcome)
    requires OpHolds(s, before, w, Reconciling(step))
    ensures var (w', r) := Serve(s.p.casing, w, ReconcileCall(step), o);
            OpHolds(s, before, w', ResumeReconcile(s, step, r))
  {
    hide Serve;
    hide Found;
    hide Retired;
    hide Respects;
    hide Owned;
    hide IsStopped;
    hide Seeded;
    var (w', r) := Serve(s.p.casing, w, ReconcileCall(step), o);
    match step
    case SeedFind(providerID) =>
      FoundTells(s, w, o, providerID);
      SameRetired(s, before, w');
      var found := Found(s, r, providerID);
      if found.Ok? && Seeded(found.value.machine) && IsStopped(s, found.value.machine) {
        FoundInHand(s, before, w', found.value.id);
      }
    case AskConsumed(id, ref) =>
      ConsumedTells(s.p.casing, w, id, o);
      InHandOver(s, before, w, w', id, ref);
      RetiredRespects(s, before, w');
    case Unhook(id, ref) =>
      DetachTells(s.p.casing, w, id, ref, o);
      UnhookRetires(s, before, w, w', id, ref);
      RetiredRespects(s, before, w');
    case Drop(id, ref) =>
      DropTells(s.p.casing, w, ref, o);
      DropRetires(s, before, w, w', id, ref);
      RetiredRespects(s, before, w');
    case SeedCheck(id) =>
      GetTells(s.p.casing, w, id, o);
      HoldingsOver(s, before, w, w');
      RetiredRespects(s, before, w');
  }

  lemma DeleteFindKeeps(s: Site, before: World, w: World, providerID: string, after: After, o: Outcome)
    requires OpHolds(s, before, w, Deleting(DeleteFind(providerID), after))
    ensures var (w', r) := Serve(s.p.casing, w, List, o);
            OpHolds(s, before, w', ResumeDelete(s, DeleteFind(providerID), after, r))
  {
    hide Serve;
    hide Found;
    hide Owned;
    hide IsStopped;
    hide Seeded;
    hide Return;
    hide Respects;
    hide Retired;
    var (w', r) := Serve(s.p.casing, w, List, o);
    FoundTells(s, w, o, providerID);
    HoldingsOver(s, before, w, w');
    match Found(s, r, providerID)
    case Err(e) => ReturnHolds(s, before, w', after, if e == NotFound then Ok(Unit.Unit) else Err(e));
    case Ok(item) =>
      ReturnHolds(s, before, w', after, Err(Active));
      if IsStopped(s, item.machine) {
        FoundIdle(s, before, w', item.id);
        if Seeded(item.machine) { FoundInHand(s, before, w', item.id); }
      }
  }

  lemma UnhookFirstKeeps(s: Site, before: World, w: World, id: int, ref: string, after: After, o: Outcome)
    requires OpHolds(s, before, w, Deleting(UnhookFirst(id, ref), after))
    ensures var (w', r) := Serve(s.p.casing, w, DetachSeed(id, ref), o);
            OpHolds(s, before, w', ResumeDelete(s, UnhookFirst(id, ref), after, r))
  {
    hide Serve;
    hide Return;
    hide Respects;
    hide Retired;
    hide Idle;
    hide Seeded;
    var (w', r) := Serve(s.p.casing, w, DetachSeed(id, ref), o);
    DetachTells(s.p.casing, w, id, ref, o);
    UnhookRetires(s, before, w, w', id, ref);
    if r.Failed? { ReturnHolds(s, before, w', after, Err(r.error)); }
  }

  lemma DropFirstKeeps(s: Site, before: World, w: World, id: int, ref: string, after: After, o: Outcome)
    requires OpHolds(s, before, w, Deleting(DropFirst(id, ref), after))
    ensures var (w', r) := Serve(s.p.casing, w, DeleteSeed(ref), o);
            OpHolds(s, before, w', ResumeDelete(s, DropFirst(id, ref), after, r))
  {
    hide Serve;
    hide Return;
    hide Respects;
    hide Retired;
    hide Idle;
    hide Seeded;
    var (w', r) := Serve(s.p.casing, w, DeleteSeed(ref), o);
    DropTells(s.p.casing, w, ref, o);
    DropRetires(s, before, w, w', id, ref);
    if r.Failed? { ReturnHolds(s, before, w', after, Err(r.error)); }
  }

  lemma DeleteCallKeeps(s: Site, before: World, w: World, id: int, after: After, o: Outcome)
    requires OpHolds(s, before, w, Deleting(DeleteCall(id), after))
    ensures var (w', r) := Serve(s.p.casing, w, Delete(id), o);
            OpHolds(s, before, w', ResumeDelete(s, DeleteCall(id), after, r))
  {
    hide Serve;
    hide Return;
    hide Respects;
    hide Retired;
    hide Idle;
    var (w', r) := Serve(s.p.casing, w, Delete(id), o);
    DeleteTells(s.p.casing, w, id, o);
    RemovalRetires(s, before, w, w', id);
    if r.Failed? { ReturnHolds(s, before, w', after, Err(r.error)); }
  }

  lemma DeleteCheckKeeps(s: Site, before: World, w: World, id: int, after: After, o: Outcome)
    requires OpHolds(s, before, w, Deleting(DeleteCheck(id), after))
    ensures var (w', r) := Serve(s.p.casing, w, Get(id), o);
            OpHolds(s, before, w', ResumeDelete(s, DeleteCheck(id), after, r))
  {
    hide Serve;
    hide Return;
    hide Respects;
    hide Retired;
    var (w', r) := Serve(s.p.casing, w, Get(id), o);
    GetTells(s.p.casing, w, id, o);
    HoldingsOver(s, before, w, w');
    ReturnHolds(s, before, w', after,
                if r == Failed(NotFound) then Ok(Unit.Unit) else Err(if r.Failed? then r.error else ManagedDrift));
  }

  lemma DeleteKeeps(s: Site, before: World, w: World, step: DeleteStep, after: After, o: Outcome)
    requires OpHolds(s, before, w, Deleting(step, after))
    ensures var (w', r) := Serve(s.p.casing, w, DeleteStepCall(step), o);
            OpHolds(s, before, w', ResumeDelete(s, step, after, r))
  {
    hide Serve;
    hide OpHolds;
    hide ResumeDelete;
    match step
    case DeleteFind(providerID) => DeleteFindKeeps(s, before, w, providerID, after, o);
    case UnhookFirst(id, ref) => UnhookFirstKeeps(s, before, w, id, ref, after, o);
    case DropFirst(id, ref) => DropFirstKeeps(s, before, w, id, ref, after, o);
    case DeleteCall(id) => DeleteCallKeeps(s, before, w, id, after, o);
    case DeleteCheck(id) => DeleteCheckKeeps(s, before, w, id, after, o);
  }

  lemma SweepKeeps(s: Site, before: World, w: World, p: Proc, o: Outcome)
    requires OpHolds(s, before, w, p) && (p.SweepList? || p.SweepFind?)
    ensures var (w', r) := Serve(s.p.casing, w, List, o);
            OpHolds(s, before, w', Resume(s, p, r))
  {
    hide Serve;
    hide Found;
    hide Selected;
    hide ProviderIDs;
    hide IsStopped;
    hide ResumeEarly;
    hide ResumeLate;
    hide ResumeLook;
    hide ResumeReconcile;
    hide ResumeDelete;
    hide Retired;
    hide Respects;
    ListTells(s.p.casing, w, o);
    var w' := Serve(s.p.casing, w, List, o).0;
    HoldingsOver(s, before, w, w');
    if p.SweepList? { SameRetired(s, before, w'); }
    RetiredRespects(s, before, w');
  }

  lemma OpStepKeeps(s: Site, before: World, st: Moment, o: Outcome)
    requires OpHolds(s, before, st.world, st.proc)
    ensures var next := Step(s, st, o); OpHolds(s, before, next.world, next.proc)
  {
    hide Serve;
    hide Retired;
    hide Respects;
    hide InHand;
    hide ResumeLook;
    hide ResumeReconcile;
    hide ResumeDelete;
    hide Idle;
    match st.proc
    case Look(step) =>
      if step.StopCall? || step.StopCheck? {
        StoppingKeeps(s, before, st.world, step, o);
      } else {
        LookKeeps(s, before, st.world, step, o);
      }
    case Reconciling(step) => ReconcileKeeps(s, before, st.world, step, o);
    case Deleting(step, after) => DeleteKeeps(s, before, st.world, step, after, o);
    case SweepList => SweepKeeps(s, before, st.world, st.proc, o);
    case SweepFind(_, _, _) => SweepKeeps(s, before, st.world, st.proc, o);
    case _ =>
    hide OpHolds;
  }

  lemma {:induction false} OpRunHolds(s: Site, op: Op, before: World, oracle: nat -> Outcome, i: nat, j: nat)
    requires i <= j && !op.CreateOp?
    ensures var m := Run(s, Moment(before, Begin(op)), oracle, i, j); OpHolds(s, before, m.world, m.proc)
  {
    hide Step;
    hide OpHolds;
    if i == j {
      BeginHolds(s, op, before);
    } else {
      OpRunHolds(s, op, before, oracle, i, j - 1);
      OpStepKeeps(s, before, Run(s, Moment(before, Begin(op)), oracle, i, j - 1), oracle(j - 1));
    }
  }

  lemma BeginHolds(s: Site, op: Op, before: World)
    requires !op.CreateOp?
    ensures OpHolds(s, before, before, Begin(op))
  {
    SameRetired(s, before, before);
    hide Respects;
    hide Retired;
  }

  // ----- whole runs and whole histories -----

  lemma HoldingRespects(s: Site, before: World, w: World, p: Proc)
    requires OpHolds(s, before, w, p)
    ensures Respects(s, before, w)
  {
    hide Respects;
    hide Retired;
    hide Idle;
    hide Owned;
    hide IsRunning;
    hide Seeded;
    if SameHoldings(before, w) { SameRetired(s, before, w); }
    if Retired(s, before, w) { RetiredRespects(s, before, w); }
  }

  lemma CreationRespects(s: Site, b: Bootstrap, before: World, w: World, p: Proc)
    requires CreateHolds(s, b, before, w, p)
    ensures Respects(s, before, w)
    ensures forall id | id in before.machines :: id in w.machines && w.machines[id] == before.machines[id]
    ensures forall id, id' | id in w.machines && id' in w.machines ::
              id in before.machines || id' in before.machines || id == id'
    ensures forall id | id in w.machines && id !in before.machines :: Mine(s, b, w.machines[id])
  {
    hide LateHolds;
    hide Adopted;
    hide Delivered;
    hide Idle;
    hide Switched;
    hide ExactTemplate;
    hide Named;
    hide NameTaken;
  }

  /** Every operation, wherever it stops, respects the world it was called on. */
  lemma RunRespects(s: Site, op: Op, before: World, oracle: nat -> Outcome, i: nat, j: nat)
    requires i <= j
    ensures Respects(s, before, Run(s, Moment(before, Begin(op)), oracle, i, j).world)
  {
    hide Step;
    hide Respects;
    hide OpHolds;
    hide CreateHolds;
    hide Mine;
    var m := Run(s, Moment(before, Begin(op)), oracle, i, j);
    if op.CreateOp? {
      CreateRunHolds(s, op.b, before, oracle, i, j);
      CreationRespects(s, op.b, before, m.world, m.proc);
    } else {
      OpRunHolds(s, op, before, oracle, i, j);
      HoldingRespects(s, before, m.world, m.proc);
    }
  }

  /** Wherever a `Create` stops, every VM and every seed that was there is untouched and there is at most one more VM,
      the caller's own; a VM is never cleaned up again. */
  lemma CreateAddsAtMostOne(s: Site, b: Bootstrap, before: World, oracle: nat -> Outcome, i: nat, j: nat)
    requires i <= j && before.seeds.Keys <= before.refs
    ensures var w := Creation(s, b, before, oracle, i, j).world;
            && (forall id | id in before.machines :: id in w.machines && w.machines[id] == before.machines[id])
            && (forall id, id' | id in w.machines && id' in w.machines ::
                  id in before.machines || id' in before.machines || id == id')
            && (forall id | id in w.machines && id !in before.machines :: Mine(s, b, w.machines[id]))
            && (forall ref | ref in before.seeds :: ref in w.seeds && w.seeds[ref] == before.seeds[ref])
  {
    hide Step;
    hide Respects;
    hide Mine;
    CreateRunHolds(s, b, before, oracle, i, j);
    var m := Creation(s, b, before, oracle, i, j);
    hide Creation;
    CreationRespects(s, b, before, m.world, m.proc);
    hide LateHolds;
    hide OnlyNew;
    hide Adopted;
    hide Delivered;
  }

  /** The seed about to be dropped hung on the VM being reconciled, whose bootstrap has been consumed. */
  predicate DropsConsumed(before: World, m: Moment, ref: string)
    requires m.proc.Reconciling?
  {
    && m.proc.reconcile.Drop? && m.proc.reconcile.id in m.world.consumed
    && m.proc.reconcile.id in before.machines && before.machines[m.proc.reconcile.id].seedRef == ref
  }

  /** What an operation is about to do to a VM or a seed when it is about to take one away. */
  ghost predicate Gentle(s: Site, before: World, m: Moment) {
    !m.proc.Finished? ==>
      match Wants(s, m.proc)
      case Delete(id) => id in before.machines && Idle(s, before.machines[id])
      case DetachSeed(id, ref) =>
        && id in m.world.machines && id in before.machines && m.world.machines[id] == before.machines[id]
        && Idle(s, before.machines[id]) && before.machines[id].seedRef == ref
        && (m.proc.Reconciling? ==> id in m.world.consumed)
      case DeleteSeed(ref) =>
        && SeedOfIdle(s, before, ref)
        && (m.proc.Reconciling? ==> DropsConsumed(before, m, ref))
      case _ => true
  }

  /** At every call of every operation: a VM is deleted, and a seed detached or deleted, only where the VM is owned and
      was stopped; and `ReconcileBootstrap` does so only after that VM's bootstrap was consumed. */
  lemma TakesOnlyFromIdle(s: Site, op: Op, before: World, oracle: nat -> Outcome, i: nat, j: nat)
    requires i <= j
    ensures Gentle(s, before, Run(s, Moment(before, Begin(op)), oracle, i, j))
  {
    hide Step;
    hide Gentle;
    var m := Run(s, Moment(before, Begin(op)), oracle, i, j);
    if op.CreateOp? {
      CreateRunHolds(s, op.b, before, oracle, i, j);
      CreatingIsGentle(s, op.b, before, m);
    } else {
      OpRunHolds(s, op, before, oracle, i, j);
      HoldingIsGentle(s, before, m);
    }
    hide CreateHolds;
    hide OpHolds;
  }

  lemma CreatingIsGentle(s: Site, b: Bootstrap, before: World, m: Moment)
    requires CreateHolds(s, b, before, m.world, m.proc)
    ensures Gentle(s, before, m)
  {
    hide LateHolds;
    hide OnlyNew;
    hide Mine;
    hide Seed;
    hide Requested;
    hide Named;
    hide SeedsKept;
    hide Adopted;
    hide Delivered;
  }

  lemma HoldingIsGentle(s: Site, before: World, m: Moment)
    requires OpHolds(s, before, m.world, m.proc)
    ensures Gentle(s, before, m)
  {
    hide Retired;
    hide Respects;
    hide Idle;
    hide Owned;
    hide IsRunning;
    hide Seeded;
  }

  /** One operation of one manager, stopped after so many of its calls. */
  datatype Episode = Episode(site: Site, op: Op, oracle: nat -> Outcome, calls: nat)

  function Aftermath(w: World, episodes: seq<Episode>): World
    decreases |episodes|
  {
    if episodes == [] then w
    else
      var e := episodes[|episodes| - 1];
      Run(e.site, Moment(Aftermath(w, episodes[..|episodes| - 1]), Begin(e.op)), e.oracle, 0, e.calls).world
  }

  /** Over any sequence of operations of any managers, each cut off anywhere, a VM that none of them owns stays
      exactly as it was. */
  lemma {:induction false} ForeignUntouched(w: World, episodes: seq<Episode>, id: int)
    requires id in w.machines
    requires forall e | e in episodes :: !Identified(e.site, w.machines[id])
    ensures id in Aftermath(w, episodes).machines && Aftermath(w, episodes).machines[id] == w.machines[id]
    decreases |episodes|
  {
    hide Identified;
    hide Run;
    if episodes != [] {
      var (init, e) := (episodes[..|episodes| - 1], episodes[|episodes| - 1]);
      assert e in episodes;
      ForeignUntouched(w, init, id);
      RunRespects(e.site, e.op, Aftermath(w, init), e.oracle, 0, e.calls);
      OwnedIsIdentified(e.site, w.machines[id]);
      hide Owned;
      hide IsStopped;
      hide IsRunning;
    }
  }

  lemma OwnedIsIdentified(s: Site, c: Machine)
    ensures Owned(s, c) ==> Identified(s, c)
  {
    hide Identified;
    hide Sound;
  }

  /** Over any such sequence a VM disappears only in an operation of its owner that found it stopped. */
  lemma {:induction false} LostOnlyStopped(w: World, episodes: seq<Episode>, id: int)
    requires id in w.machines && id !in Aftermath(w, episodes).machines
    ensures exists k :: 0 <= k < |episodes| && Removes(w, episodes, k, id)
    decreases |episodes|
  {
    hide Run;
    hide Removes;
    if episodes != [] {
      var n := |episodes| - 1;
      var (init, e) := (episodes[..n], episodes[n]);
      assert episodes[..n + 1] == episodes && e in episodes;
      if id in Aftermath(w, init).machines {
        RunRespects(e.site, e.op, Aftermath(w, init), e.oracle, 0, e.calls);
        RemovesNow(w, episodes, n, id);
      } else {
        LostOnlyStopped(w, init, id);
        var k :| 0 <= k < |init| && Removes(w, init, k, id);
        assert init[..k] == episodes[..k] && init[..k + 1] == episodes[..k + 1] && init[k] == episodes[k];
        RemovesPrefix(w, init, episodes, k, id);
      }
    }
  }

  /** Episode `k` takes VM `id` away, which its manager owns and which was stopped before it. */
  ghost predicate Removes(w: World, episodes: seq<Episode>, k: nat, id: int)
    requires k < |episodes|
  {
    var (earlier, later) := (Aftermath(w, episodes[..k]).machines, Aftermath(w, episodes[..k + 1]).machines);
    && id in earlier && id !in later
    && Idle(episodes[k].site, earlier[id])
  }

  lemma RemovesNow(w: World, episodes: seq<Episode>, n: nat, id: int)
    requires |episodes| == n + 1 && id in Aftermath(w, episodes[..n]).machines && id !in Aftermath(w, episodes).machines
    requires Respects(episodes[n].site, Aftermath(w, episodes[..n]), Aftermath(w, episodes))
    ensures Removes(w, episodes, n, id)
  {
    hide Aftermath;
    hide Owned;
    hide Idle;
    hide Switched;
    hide Identified;
    hide SeedOfIdle;
    assert episodes[..n + 1] == episodes;
  }

  lemma RemovesPrefix(w: World, init: seq<Episode>, episodes: seq<Episode>, k: nat, id: int)
    requires k < |init| && k < |episodes| && Removes(w, init, k, id)
    requires init[..k] == episodes[..k] && init[..k + 1] == episodes[..k + 1] && init[k] == episodes[k]
    ensures Removes(w, episodes, k, id)
  {
    hide Aftermath;
    hide Owned;
    hide IsStopped;
  }

  // ----- a successful Delete -----

  /** How far `Delete` has come with VM `id`. */
  ghost predicate DeleteAims(s: Site, before: World, w: World, p: Proc, id: int)
    requires id in before.machines
  {
    var ref := before.machines[id].seedRef;
    match p
    case Deleting(DeleteFind(target), Answering) => SameHoldings(before, w) && target == ProviderID(id)
    case Deleting(UnhookFirst(i, r), Answering) => i == id && r == ref
    case Deleting(DropFirst(i, r), Answering) => i == id && r == ref
    case Deleting(DeleteCall(i), Answering) => i == id && (Seeded(before.machines[id]) ==> ref !in w.seeds)
    case Deleting(DeleteCheck(i), Answering) => i == id && (Seeded(before.machines[id]) ==> ref !in w.seeds)
    case Finished(Plain(Ok(_))) => id !in w.machines && (Seeded(before.machines[id]) ==> ref !in w.seeds)
    case Finished(Plain(Err(_))) => true
    case _ => false
  }

  lemma DeleteFindAims(s: Site, before: World, w: World, id: int, o: Outcome)
    requires id in before.machines && SameHoldings(before, w)
    ensures var (w', r) := Serve(s.p.casing, w, List, o);
            DeleteAims(s, before, w', ResumeDelete(s, DeleteFind(ProviderID(id)), Answering, r), id)
  {
    hide Serve;
    hide Found;
    hide Owned;
    hide IsStopped;
    hide Seeded;
    hide ProviderID;
    FoundTells(s, w, o, ProviderID(id));
    var (w', r) := Serve(s.p.casing, w, List, o);
    var found := Found(s, r, ProviderID(id));
    if found.Ok? { SameProviderID(found.value.id, id); }
    hide SameHoldings;
  }

  lemma DeletingAims(s: Site, before: World, w: World, step: DeleteStep, id: int, o: Outcome)
    requires id in before.machines && !step.DeleteFind? && DeleteAims(s, before, w, Deleting(step, Answering), id)
    ensures var (w', r) := Serve(s.p.casing, w, DeleteStepCall(step), o);
            DeleteAims(s, before, w', ResumeDelete(s, step, Answering, r), id)
  {
    hide Serve;
    hide Seeded;
    match step
    case UnhookFirst(i, ref) => DetachTells(s.p.casing, w, i, ref, o);
    case DropFirst(i, ref) => DropTells(s.p.casing, w, ref, o);
    case DeleteCall(i) => SeedsOver(s.p.casing, w, i, o);
    case DeleteCheck(i) => GetTells(s.p.casing, w, i, o);
  }

  lemma SeedsOver(casing: CaseMaps, w: World, id: int, o: Outcome)
    ensures Serve(casing, w, Delete(id), o).0.seeds == w.seeds
  {
    hide InState;
  }

  lemma DeleteStepAims(s: Site, before: World, m: Moment, id: int, o: Outcome)
    requires id in before.machines && DeleteAims(s, before, m.world, m.proc, id)
    ensures var next := Step(s, m, o); DeleteAims(s, before, next.world, next.proc, id)
  {
    hide Serve;
    hide ResumeDelete;
    hide ProviderID;
    if m.proc.Deleting? {
      if m.proc.step.DeleteFind? {
        DeleteFindAims(s, before, m.world, id, o);
      } else {
        DeletingAims(s, before, m.world, m.proc.step, id, o);
      }
    }
    hide ResumeEarly;
    hide ResumeLate;
    hide ResumeLook;
    hide ResumeReconcile;
  }

  lemma {:induction false} DeleteRunAims(s: Site, before: World, id: int, oracle: nat -> Outcome, i: nat, j: nat)
    requires i <= j && id in before.machines
    ensures var m := Run(s, Moment(before, Begin(DeleteOp(ProviderID(id)))), oracle, i, j);
            DeleteAims(s, before, m.world, m.proc, id)
  {
    hide Step;
    hide ProviderID;
    if i < j {
      DeleteRunAims(s, before, id, oracle, i, j - 1);
      hide DeleteAims;
      DeleteStepAims(s, before, Run(s, Moment(before, Begin(DeleteOp(ProviderID(id)))), oracle, i, j - 1), id, oracle(j - 1));
    }
  }

  /** A `Delete` that succeeds on a VM that was there leaves neither the VM nor the seed that hung on it, even if
      TrueNAS lied about the detaching or the deletion. */
  lemma DeleteLeavesNothing(s: Site, before: World, id: int, oracle: nat -> Outcome, i: nat, j: nat)
    requires i <= j && id in before.machines
    requires Run(s, Moment(before, Begin(DeleteOp(ProviderID(id)))), oracle, i, j).proc == Close(Ok(Unit.Unit))
    ensures var w := Run(s, Moment(before, Begin(DeleteOp(ProviderID(id)))), oracle, i, j).world;
            && id !in w.machines
            && (Seeded(before.machines[id]) ==> before.machines[id].seedRef !in w.seeds)
  {
    hide Run;
    hide ProviderID;
    hide Seeded;
    DeleteRunAims(s, before, id, oracle, i, j);
  }
}

/** What every step of a VM operation keeps, with no outside actor in mid-operation. */
module VmSafety {
  import opened Text
  import opened Names
  import opened Provider
  import opened CloudInit
  import opened Vm

  // ----- what the client calls do -----

  predicate Quiet(call: Call) {
    call.SystemVersion? || call.ResolveTemplate? || call.GetByName? || call.Get? || call.List? || call.BootstrapConsumed?
  }

  /** The two worlds hold the same VMs and seeds. */
  predicate SameHoldings(w: World, w': World) {
    w'.machines == w.machines && w'.seeds == w.seeds && w'.refs == w.refs && w.consumed <= w'.consumed
  }

  lemma QuietCall(casing: CaseMaps, w: World, call: Call, o: Outcome)
    requires Quiet(call)
    ensures SameHoldings(w, Serve(casing, w, call, o).0)
  {
    hide Itemized;
    hide NameTaken;
    hide Enumerates;
    hide InState;
  }

  lemma GetTells(casing: CaseMaps, w: World, id: int, o: Outcome)
    ensures var (w', r) := Serve(casing, w, Get(id), o);
            && SameHoldings(w, w')
            && (r.One? ==> id in w.machines && r.item == Item(id, w.machines[id]))
            && (id in w.machines ==> r != Failed(NotFound))
  {
    hide InState;
  }

  lemma ConsumedTells(casing: CaseMaps, w: World, id: int, o: Outcome)
    ensures var (w', r) := Serve(casing, w, BootstrapConsumed(id), o);
            && SameHoldings(w, w') && (r == Consumed(true) ==> id in w'.consumed)
  {
    hide InState;
  }

  lemma LookupTells(casing: CaseMaps, w: World, name: string, o: Outcome)
    ensures var (w', r) := Serve(casing, w, GetByName(name), o);
            && SameHoldings(w, w')
            && (r.One? ==> r.item.id in w.machines && r.item.machine == w.machines[r.item.id]
                           && r.item.machine.name == name)
            && (r == Failed(NotFound) ==> !NameTaken(w, name))
  {
    hide InState;
  }

  lemma ListTells(casing: CaseMaps, w: World, o: Outcome)
    ensures var (w', r) := Serve(casing, w, List, o);
            && SameHoldings(w, w')
            && (r.Many? ==> Enumerates(o.order, w.machines.Keys) && r.items == Itemized(w, o.order))
            && (r.Many? || r == Failed(Other))
  {
    hide InState;
    if Enumerates(o.order, w.machines.Keys) { ItemizedSame(w, Booted(casing, w, o.booted), o.order); }
    hide Itemized;
  }

  lemma {:induction false} ItemizedSame(w: World, w': World, ids: seq<int>)
    requires w'.machines == w.machines && forall k | 0 <= k < |ids| :: ids[k] in w.machines
    ensures Itemized(w', ids) == Itemized(w, ids)
  {
    if ids != [] { ItemizedSame(w, w', ids[1..]); }
  }

  predicate Makes(w: World, spec: Machine, o: Outcome) {
    o.fate != Refused && o.id !in w.machines && !NameTaken(w, spec.name)
  }

  function Made(spec: Machine, o: Outcome): Machine {
    spec.(state := o.state, seedRef := "")
  }

  lemma CloneTells(casing: CaseMaps, w: World, templateID: int, spec: Machine, o: Outcome)
    ensures var (w', r) := Serve(casing, w, Clone(templateID, spec), o);
            && w'.seeds == w.seeds && w'.refs == w.refs
            && if Makes(w, spec, o)
               then w'.machines == w.machines[o.id := Made(spec, o)]
                    && r == if o.fate == Lost then Failed(Other) else One(Item(o.id, Made(spec, o)))
               else w'.machines == w.machines && r == Failed(Other)
  {
    hide InState;
  }

  lemma StageTells(casing: CaseMaps, w: World, id: int, seed: SeedSpec, o: Outcome)
    ensures var (w', r) := Serve(casing, w, StageSeed(id, seed), o);
            && w'.machines == w.machines
            && ((w'.seeds == w.seeds && w'.refs == w.refs && r.Failed?)
                || (o.ref !in w.refs && w'.seeds == w.seeds[o.ref := seed] && w'.refs == w.refs + {o.ref}
                    && (r == Ref(o.ref) || r == Failed(Other))))
  {
    hide InState;
  }

  lemma AttachTells(casing: CaseMaps, w: World, id: int, ref: string, o: Outcome)
    ensures var (w', r) := Serve(casing, w, AttachSeed(id, ref), o);
            && w'.seeds == w.seeds && w'.refs == w.refs
            && ((w'.machines == w.machines && r.Failed?)
                || (id in w.machines && !Seeded(w.machines[id]) && ref in w.seeds
                    && w'.machines == w.machines[id := w.machines[id].(seedRef := ref)]))
  {
    hide InState;
    hide Blank;
  }

  lemma DetachTells(casing: CaseMaps, w: World, id: int, ref: string, o: Outcome)
    ensures var (w', r) := Serve(casing, w, DetachSeed(id, ref), o);
            r == Failed(NotFound) ==> id !in w.machines
    ensures var (w', r) := Serve(casing, w, DetachSeed(id, ref), o);
            && w'.seeds == w.seeds && w'.refs == w.refs && w.consumed <= w'.consumed
            && ((w'.machines == w.machines && (r.Failed? || o.fate == Ignored))
                || (id in w.machines && w.machines[id].seedRef == ref
                    && w'.machines == w.machines[id := w.machines[id].(seedRef := "")]))
  {
    hide InState;
  }

  lemma DropTells(casing: CaseMaps, w: World, ref: string, o: Outcome)
    ensures var (w', r) := Serve(casing, w, DeleteSeed(ref), o);
            && w'.machines == w.machines && w'.refs == w.refs && w.consumed <= w'.consumed
            && (w'.seeds == w.seeds || w'.seeds == w.seeds - {ref})
            && (!r.Failed? ==> ref !in w'.seeds)
  {
    hide InState;
  }

  lemma PowerTells(casing: CaseMaps, w: World, id: int, call: Call, o: Outcome)
    requires id in w.machines && (call == Start(id) || call == Stop(id, false))
    ensures var (w', r) := Serve(casing, w, call, o);
            && w'.seeds == w.seeds && w'.refs == w.refs
            && w'.machines == w.machines[id := w'.machines[id]]
            && w'.machines[id] == (if o.fate == Refused || o.fate == Ignored then w.machines[id]
                                   else w.machines[id].(state := o.state))
            && (r.Failed? <==> o.fate == Refused || o.fate == Lost) && r != Failed(NotFound)
  {
    hide InState;
  }

  lemma DeleteTells(casing: CaseMaps, w: World, id: int, o: Outcome)
    requires id in w.machines
    ensures var (w', r) := Serve(casing, w, Delete(id), o);
            && w'.seeds == w.seeds && w'.refs == w.refs
            && w'.machines == (if o.fate == Refused || o.fate == Ignored then w.machines else w.machines - {id})
            && (r.Failed? <==> o.fate == Refused || o.fate == Lost) && r != Failed(NotFound)
  {
    hide InState;
  }

  // ----- Create -----

  /** The VM an unfinished or failed `Create` has made is the only difference among the VMs, and its name is new. */
  ghost predicate OnlyNew(before: World, w: World, id: int) {
    && id !in before.machines && id in w.machines && w.machines == before.machines[id := w.machines[id]]
    && !NameTaken(before, w.machines[id].name)
  }

  /** The VM is as requested, from an exact template; only its state and its seed reference have moved. */
  predicate Mine(s: Site, b: Bootstrap, m: Machine) {
    && ExactTemplate(m.template)
    && m == Requested(s, b, m.template).(state := m.state, seedRef := m.seedRef)
  }

  /** Every seed that was there is still there. */
  predicate SeedsKept(before: World, w: World) {
    forall ref | ref in before.seeds && ref in before.refs :: ref in w.seeds && w.seeds[ref] == before.seeds[ref]
  }

  predicate Staged(s: Site, b: Bootstrap, w: World, ref: string) {
    SafeRef(ref, b.token) && ref in w.seeds && w.seeds[ref] == Seed(s, b)
  }

  ghost predicate LateHolds(s: Site, b: Bootstrap, w: World, m: Machine, step: LateStep) {
    match step
    case StageIt => m.seedRef == "" && IsStopped(s, m)
    case AttachIt(ref) => m.seedRef == "" && IsStopped(s, m) && Staged(s, b, w, ref)
    case StartIt(ref) => m.seedRef == ref && IsStopped(s, m) && Staged(s, b, w, ref)
    case ReadBack(ref) => m.seedRef == ref && Staged(s, b, w, ref)
  }

  /** What an unfinished or finished `Create` keeps; `before` is the world it was called in. */
  ghost predicate CreateHolds(s: Site, b: Bootstrap, before: World, w: World, p: Proc) {
    && SeedsKept(before, w) && before.refs <= w.refs
    && match p
       case Early(b', step) => b' == b && w.machines == before.machines && (step.AskClone? ==> ExactTemplate(step.template))
       case Late(b', id, step) =>
         b' == b && OnlyNew(before, w, id) && Mine(s, b, w.machines[id]) && LateHolds(s, b, w, w.machines[id], step)
       case Finished(Single(r)) =>
         || (w.machines == before.machines && (r.Ok? ==> Adopted(s, b, before, r.value)))
         || exists id :: OnlyNew(before, w, id) && Mine(s, b, w.machines[id]) && (r.Ok? ==> Delivered(s, b, w, id, r.value))
       case _ => false
  }

  /** `Create` found a VM of this name and hands it out as it is. */
  ghost predicate Adopted(s: Site, b: Bootstrap, before: World, instance: Instance) {
    exists id | id in before.machines ::
      && before.machines[id].name == Named(s, b)
      && VerifyOwnership(s, before.machines[id], b.poolID).Ok?
      && instance == ToInstance(s, Item(id, before.machines[id]), b.poolID)
  }

  /** What a newly made VM is when `Create` returns it: running, owned, with the request's own seed on it. */
  ghost predicate Delivered(s: Site, b: Bootstrap, w: World, id: int, instance: Instance)
    requires id in w.machines
  {
    var m := w.machines[id];
    && IsRunning(s, m) && VerifyOwnership(s, m, b.poolID).Ok? && Staged(s, b, w, m.seedRef)
    && instance == ToInstance(s, Item(id, m), b.poolID)
  }

  lemma SameInventory(s: Site, b: Bootstrap, before: World, w: World, p: Proc)
    requires w.machines == before.machines && SeedsKept(before, w) && before.refs <= w.refs
    requires (p.Early? && p.b == b && (p.early.AskClone? ==> ExactTemplate(p.early.template)))
          || (p.Finished? && p.answer.Single?)
    requires p.Finished? && p.answer.instance.Ok? ==> Adopted(s, b, before, p.answer.instance.value)
    ensures CreateHolds(s, b, before, w, p)
  {
    hide Adopted;
    hide Mine;
    hide OnlyNew;
    hide Delivered;
    hide ExactTemplate;
    hide SeedsKept;
  }

  lemma LeftBehind(s: Site, b: Bootstrap, before: World, w: World, id: int, e: Error)
    requires OnlyNew(before, w, id) && Mine(s, b, w.machines[id]) && SeedsKept(before, w) && before.refs <= w.refs
    ensures CreateHolds(s, b, before, w, Fail(e))
  {
    hide Mine;
    hide OnlyNew;
    hide Delivered;
    hide SeedsKept;
  }

  lemma KeptSame(before: World, w: World, w': World)
    requires SeedsKept(before, w) && before.refs <= w.refs && w'.seeds == w.seeds && w'.refs == w.refs
    ensures SeedsKept(before, w') && before.refs <= w'.refs
  {
  }

  lemma KeptAdded(before: World, w: World, w': World, ref: string, seed: SeedSpec)
    requires SeedsKept(before, w) && before.refs <= w.refs
    requires ref !in w.refs && w'.seeds == w.seeds[ref := seed] && w'.refs == w.refs + {ref}
    ensures SeedsKept(before, w') && before.refs <= w'.refs
  {
  }

  lemma EarlyKeeps(s: Site, b: Bootstrap, before: World, w: World, step: EarlyStep, o: Outcome)
    requires CreateHolds(s, b, before, w, Early(b, step)) && !step.AskClone?
    ensures var (w', r) := Serve(s.p.casing, w, EarlyCall(s, b, step), o);
            CreateHolds(s, b, before, w', ResumeEarly(s, b, step, r))
  {
    hide VerifyOwnership;
    hide Serve;
    hide Trouble;
    hide TrimSpace;
    hide ToInstance;
    hide TEMPLATE_FAMILY;
    hide Named;
    hide ExactTemplate;
    hide SeedsKept;
    QuietCall(s.p.casing, w, EarlyCall(s, b, step), o);
    if step.AskName? { LookupTells(s.p.casing, w, Named(s, b), o); }
    var (w', r) := Serve(s.p.casing, w, EarlyCall(s, b, step), o);
    KeptSame(before, w, w');
    hide CreateHolds;
    SameInventory(s, b, before, w', ResumeEarly(s, b, step, r));
  }

  lemma CloningKeeps(s: Site, b: Bootstrap, before: World, w: World, template: Template, o: Outcome)
    requires CreateHolds(s, b, before, w, Early(b, AskClone(template)))
    ensures var (w', r) := Serve(s.p.casing, w, EarlyCall(s, b, AskClone(template)), o);
            CreateHolds(s, b, before, w', ResumeEarly(s, b, AskClone(template), r))
  {
    hide Serve;
    hide ExactTemplate;
    hide OwnerRecord;
    hide Named;
    hide IsStopped;
    hide VerifyOwnership;
    hide SeedsKept;
    var spec := Requested(s, b, template);
    CloneTells(s.p.casing, w, template.id, spec, o);
    var (w', r) := Serve(s.p.casing, w, Clone(template.id, spec), o);
    KeptSame(before, w, w');
    if !Makes(w, spec, o) {
      hide CreateHolds;
      hide Makes;
      SameInventory(s, b, before, w', ResumeEarly(s, b, AskClone(template), r));
    } else {
      assert OnlyNew(before, w', o.id) && Mine(s, b, Made(spec, o));
      hide Mine;
      hide OnlyNew;
      hide NameTaken;
      if o.fate == Lost {
        LeftBehind(s, b, before, w', o.id, Other);
      } else if VerifyOwnership(s, Made(spec, o), b.poolID).Err? {
        LeftBehind(s, b, before, w', o.id, VerifyOwnership(s, Made(spec, o), b.poolID).error);
      } else if !IsStopped(s, Made(spec, o)) {
        LeftBehind(s, b, before, w', o.id, ManagedDrift);
      }
    }
  }

  lemma MovedIsMine(s: Site, b: Bootstrap, m: Machine, m': Machine)
    requires Mine(s, b, m) && m' == m.(state := m'.state, seedRef := m'.seedRef)
    ensures Mine(s, b, m')
  {
    hide ExactTemplate;
    hide Named;
    hide OwnerRecord;
  }

  lemma StageKeeps(s: Site, b: Bootstrap, before: World, w: World, id: int, o: Outcome)
    requires CreateHolds(s, b, before, w, Late(b, id, StageIt))
    ensures var (w', r) := Serve(s.p.casing, w, StageSeed(id, Seed(s, b)), o);
            CreateHolds(s, b, before, w', ResumeLate(s, b, id, StageIt, r))
  {
    hide Serve;
    hide Seed;
    hide Mine;
    hide SafeRef;
    hide IsStopped;
    hide SeedsKept;
    hide Trouble;
    StageTells(s.p.casing, w, id, Seed(s, b), o);
    var (w', r) := Serve(s.p.casing, w, StageSeed(id, Seed(s, b)), o);
    if w'.refs == w.refs { KeptSame(before, w, w'); } else { KeptAdded(before, w, w', o.ref, Seed(s, b)); }
    assert OnlyNew(before, w', id);
    hide OnlyNew;
    var p := ResumeLate(s, b, id, StageIt, r);
    if p.Finished? { LeftBehind(s, b, before, w', id, p.answer.instance.error); }
  }

  lemma AttachKeeps(s: Site, b: Bootstrap, before: World, w: World, id: int, ref: string, o: Outcome)
    requires CreateHolds(s, b, before, w, Late(b, id, AttachIt(ref)))
    ensures var (w', r) := Serve(s.p.casing, w, AttachSeed(id, ref), o);
            CreateHolds(s, b, before, w', ResumeLate(s, b, id, AttachIt(ref), r))
  {
    hide Serve;
    hide Seed;
    hide SafeRef;
    hide SeedsKept;
    hide Seeded;
    hide Named;
    hide OwnerRecord;
    hide ExactTemplate;
    AttachTells(s.p.casing, w, id, ref, o);
    var (w', r) := Serve(s.p.casing, w, AttachSeed(id, ref), o);
    KeptSame(before, w, w');
    MovedIsMine(s, b, w.machines[id], w'.machines[id]);
    hide Mine;
    assert OnlyNew(before, w', id);
    hide OnlyNew;
    if r.Failed? { LeftBehind(s, b, before, w', id, r.error); }
  }

  lemma StartKeeps(s: Site, b: Bootstrap, before: World, w: World, id: int, ref: string, o: Outcome)
    requires CreateHolds(s, b, before, w, Late(b, id, StartIt(ref)))
    ensures var (w', r) := Serve(s.p.casing, w, Start(id), o);
            CreateHolds(s, b, before, w', ResumeLate(s, b, id, StartIt(ref), r))
  {
    hide Serve;
    hide Seed;
    hide SafeRef;
    hide SeedsKept;
    hide IsStopped;
    hide Named;
    hide OwnerRecord;
    hide ExactTemplate;
    PowerTells(s.p.casing, w, id, Start(id), o);
    var (w', r) := Serve(s.p.casing, w, Start(id), o);
    KeptSame(before, w, w');
    MovedIsMine(s, b, w.machines[id], w'.machines[id]);
    hide Mine;
    assert OnlyNew(before, w', id);
    hide OnlyNew;
    if r.Failed? { LeftBehind(s, b, before, w', id, r.error); }
  }

  lemma ReadBackKeeps(s: Site, b: Bootstrap, before: World, w: World, id: int, ref: string, o: Outcome)
    requires CreateHolds(s, b, before, w, Late(b, id, ReadBack(ref)))
    ensures var (w', r) := Serve(s.p.casing, w, Get(id), o);
            var p := ResumeLate(s, b, id, ReadBack(ref), r);
            && CreateHolds(s, b, before, w', p)
            && (p.Finished? && p.answer.Single? && p.answer.instance.Ok? ==>
                  OnlyNew(before, w', id) && Delivered(s, b, w', id, p.answer.instance.value))
  {
    hide Serve;
    hide Seed;
    hide SafeRef;
    hide SeedsKept;
    hide IsRunning;
    hide Mine;
    hide VerifyOwnership;
    hide ToInstance;
    hide Trouble;
    GetTells(s.p.casing, w, id, o);
    var (w', r) := Serve(s.p.casing, w, Get(id), o);
    KeptSame(before, w, w');
    assert OnlyNew(before, w', id);
    hide OnlyNew;
    var p := ResumeLate(s, b, id, ReadBack(ref), r);
    if p.answer.instance.Err? {
      LeftBehind(s, b, before, w', id, p.answer.instance.error);
    } else {
      assert Delivered(s, b, w', id, p.answer.instance.value);
    }
  }

  lemma CreateStepKeeps(s: Site, b: Bootstrap, before: World, st: Moment, o: Outcome)
    requires CreateHolds(s, b, before, st.world, st.proc)
    ensures var next := Step(s, st, o); CreateHolds(s, b, before, next.world, next.proc)
  {
    hide Serve;
    hide ResumeEarly;
    hide ResumeLate;
    hide LateHolds;
    hide OnlyNew;
    hide Mine;
    hide Seed;
    hide Requested;
    hide SeedsKept;
    match st.proc
    case Early(_, step) =>
      if step.AskClone? {
        CloningKeeps(s, b, before, st.world, step.template, o);
      } else {
        EarlyKeeps(s, b, before, st.world, step, o);
      }
    case Late(_, id, step) =>
      match step {
        case StageIt => StageKeeps(s, b, before, st.world, id, o);
        case AttachIt(ref) => AttachKeeps(s, b, before, st.world, id, ref, o);
        case StartIt(ref) => StartKeeps(s, b, before, st.world, id, ref, o);
        case ReadBack(ref) => ReadBackKeeps(s, b, before, st.world, id, ref, o);
      }
    case _ =>
    hide CreateHolds;
  }

  function Creation(s: Site, b: Bootstrap, before: World, oracle: nat -> Outcome, i: nat, j: nat): Moment
    requires i <= j
  {
    Run(s, Moment(before, Begin(CreateOp(b))), oracle, i, j)
  }

  /** At every point of every run of `Create`, whatever TrueNAS answers and wherever it stops. */
  lemma {:induction false} CreateRunHolds(s: Site, b: Bootstrap, before: World, oracle: nat -> Outcome, i: nat, j: nat)
    requires i <= j
    ensures var m := Creation(s, b, before, oracle, i, j); CreateHolds(s, b, before, m.world, m.proc)
  {
    hide CreateHolds;
    hide Step;
    hide Accepts;
    if i == j {
      SeedsKeptAtFirst(before);
      SameInventory(s, b, before, before, Begin(CreateOp(b)));
    } else {
      CreateRunHolds(s, b, before, oracle, i, j - 1);
      CreateStepKeeps(s, b, before, Creation(s, b, before, oracle, i, j - 1), oracle(j - 1));
    }
  }

  lemma SeedsKeptAtFirst(before: World)
    ensures SeedsKept(before, before)
  {
  }
}

/** The VM backend: what TrueNAS holds, what one client call does to it, and each manager operation as the sequence of
    calls it makes. An operation that dies is one that is not stepped any further. */
module Vm {
  import opened Text
  import opened Names
  import opened Provider
  import opened CloudInit

  const TEMPLATE_FAMILY := "ubuntu-24.04-amd64-template"
  const OWNER_SCHEMA := "semper-supra.garm-vm-owner/1"
  const MANAGED_BY := "garm-provider-truenas"
  const RUNNING := "RUNNING"
  const STOPPED := "STOPPED"

  datatype Template = Template(
    id: int, name: string, runtimeName: string, version: string, sourceURL: string, sourceSHA256: string)

  /** The one template release this provider clones. */
  const PINNED_TEMPLATE := Template(
    1, TEMPLATE_FAMILY, "garm_tpl_ubuntu_2404_20260926_amd64", "ubuntu-24.04-release-20260926-amd64",
    "https://cloud-images.ubuntu.com/" + "releases/noble/release-20260926/" + "ubuntu-24.04-server-cloudimg-" + "amd64.img",
    "6a81c37564db9b1e" + "e84e141922625e1d" + "7c5b389b99bb3c57" + "2e0243607d5bb4d2")

  datatype Ownership = Ownership(
    schema: string, managedBy: string, controllerID: string, poolID: string, runnerName: string, profile: string)

  /** A VM as TrueNAS reports it; the description is what its JSON text decodes to. */
  datatype Machine = Machine(
    name: string, description: Option<Ownership>, state: string, autostart: bool, vcpus: int, memoryBytes: int,
    template: Template, seedRef: string)

  /** `refs` are the seed references ever handed out, `consumed` the VMs whose launcher has shown its marker. */
  datatype World = World(machines: map<int, Machine>, seeds: map<string, SeedSpec>, refs: set<string>, consumed: set<int>)

  datatype Site = Site(p: Platform, programs: Programs, controllerID: string, systemVersion: string)
  {
    ghost predicate Valid() {
      p.Valid() && !Blank(controllerID)
    }
  }

  // ----- what the manager demands of a VM -----

  predicate InState(casing: CaseMaps, m: Machine, state: string) {
    casing.EqualFold(m.state, state)
  }

  predicate IsRunning(s: Site, m: Machine) {
    InState(s.p.casing, m, RUNNING)
  }

  predicate IsStopped(s: Site, m: Machine) {
    InState(s.p.casing, m, STOPPED)
  }

  predicate Identified(s: Site, m: Machine) {
    match m.description
    case None => false
    case Some(owner) =>
      owner.schema == OWNER_SCHEMA && owner.managedBy == MANAGED_BY && owner.controllerID == s.controllerID
      && owner.profile == FLAVOR
  }

  /** `verifyTemplate`: any ID TrueNAS gave it, and every other field as pinned. */
  predicate ExactTemplate(t: Template) {
    t.id > 0 && t.(id := PINNED_TEMPLATE.id) == PINNED_TEMPLATE
  }

  /** `verifyRuntime` */
  predicate Sound(casing: CaseMaps, m: Machine) {
    && !m.autostart && m.vcpus == GENERAL_CPU && m.memoryBytes == GENERAL_MEMORY_BYTES
    && ExactTemplate(m.template)
    && (casing.upper(m.state) == RUNNING || casing.upper(m.state) == STOPPED)
  }

  function Owner(s: Site, m: Machine): Result<Ownership> {
    if !Identified(s, m) then Err(Foreign)
    else if !Sound(s.p.casing, m) then Err(ManagedDrift)
    else Ok(m.description.value)
  }

  predicate InPool(m: Machine, poolID: string) {
    poolID == "" || (m.description.Some? && m.description.value.poolID == poolID)
  }

  function VerifyOwnership(s: Site, m: Machine, poolID: string): Result<Unit> {
    match Owner(s, m)
    case Err(e) => Err(e)
    case Ok(_) => if InPool(m, poolID) then Ok(Unit.Unit) else Err(Foreign)
  }

  /** Whether a seed hangs on the VM, as `Delete` and `ReconcileBootstrap` ask. */
  predicate Seeded(m: Machine) {
    !Blank(m.seedRef)
  }

  function Named(s: Site, b: Bootstrap): string {
    DigestedName(s.p.casing, s.p.digest, s.controllerID, b.name, '_')
  }

  function OwnerRecord(s: Site, b: Bootstrap): Ownership {
    Ownership(OWNER_SCHEMA, MANAGED_BY, s.controllerID, b.poolID, b.name, FLAVOR)
  }

  /** The VM `Create` asks for; TrueNAS fills in its state and what it was cloned from. */
  function Requested(s: Site, b: Bootstrap, template: Template): Machine {
    Machine(Named(s, b), Some(OwnerRecord(s, b)), "", false, GENERAL_CPU, GENERAL_MEMORY_BYTES, template, "")
  }

  function Seed(s: Site, b: Bootstrap): SeedSpec {
    SeedFor(s.programs, s.p.contract.tool, b, Named(s, b))
  }

  // ----- client calls -----

  datatype Call =
    | SystemVersion
    | ResolveTemplate(family: string)
    | GetByName(name: string)
    | Get(id: int)
    | List
    | Clone(templateID: int, spec: Machine)
    | StageSeed(id: int, seed: SeedSpec)
    | AttachSeed(id: int, ref: string)
    | DetachSeed(id: int, ref: string)
    | DeleteSeed(ref: string)
    | BootstrapConsumed(id: int)
    | Start(id: int)
    | Stop(id: int, force: bool)
    | Delete(id: int)

  datatype Item = Item(id: int, machine: Machine)

  datatype Reply =
    | Failed(error: Error)
    | Text(text: string)
    | TemplateIs(template: Template)
    | One(item: Item)
    | Many(items: seq<Item>)
    | Ref(ref: string)
    | Consumed(consumed: bool)
    | Acknowledged

  datatype Fate = Served | Refused | Lost | Ignored

  /** Everything about one call that TrueNAS decides. `booted` names running VMs whose launcher has by then consumed
      its bootstrap file. */
  datatype Outcome = Outcome(
    fate: Fate, text: string, template: Template, id: int, state: string, ref: string, order: seq<int>, booted: set<int>)

  predicate NameTaken(w: World, name: string) {
    exists id | id in w.machines :: w.machines[id].name == name
  }

  predicate Enumerates(ids: seq<int>, all: set<int>) {
    && (forall k | 0 <= k < |ids| :: ids[k] in all) && (forall i | i in all :: i in ids)
    && forall j, k | 0 <= j < k < |ids| :: ids[j] != ids[k]
  }

  function Itemized(w: World, ids: seq<int>): seq<Item>
    requires forall k | 0 <= k < |ids| :: ids[k] in w.machines
  {
    if ids == [] then [] else [Item(ids[0], w.machines[ids[0]])] + Itemized(w, ids[1..])
  }

  function Changed(w: World, id: int, m: Machine): World {
    w.(machines := w.machines[id := m])
  }

  function Powered(w: World, id: int, state: string): (World, Reply) {
    if id !in w.machines then (w, Failed(NotFound))
    else (Changed(w, id, w.machines[id].(state := state)), Acknowledged)
  }

  /** A call that is carried out. */
  function Effect(w: World, call: Call, o: Outcome): (World, Reply) {
    match call
    case SystemVersion => (w, Text(o.text))
    case ResolveTemplate(_) => (w, TemplateIs(o.template))
    case GetByName(name) =>
      if o.id in w.machines && w.machines[o.id].name == name then (w, One(Item(o.id, w.machines[o.id])))
      else (w, Failed(if NameTaken(w, name) then Other else NotFound))
    case Get(id) => (w, if id in w.machines then One(Item(id, w.machines[id])) else Failed(NotFound))
    case List => (w, if Enumerates(o.order, w.machines.Keys) then Many(Itemized(w, o.order)) else Failed(Other))
    case Clone(_, spec) =>
      if o.id in w.machines || NameTaken(w, spec.name) then (w, Failed(Other))
      else
        var made := spec.(state := o.state, seedRef := "");
        (Changed(w, o.id, made).(consumed := w.consumed - {o.id}), One(Item(o.id, made)))
    case StageSeed(id, seed) =>
      if id !in w.machines then (w, Failed(NotFound))
      else if o.ref in w.refs then (w, Failed(Other))
      else (w.(seeds := w.seeds[o.ref := seed], refs := w.refs + {o.ref}), Ref(o.ref))
    case AttachSeed(id, ref) =>
      if id !in w.machines || ref !in w.seeds then (w, Failed(NotFound))
      else if Seeded(w.machines[id]) then (w, Failed(Other))
      else (Changed(w, id, w.machines[id].(seedRef := ref)), Acknowledged)
    case DetachSeed(id, ref) =>
      if id !in w.machines then (w, Failed(NotFound))
      else if w.machines[id].seedRef != ref then (w, Failed(Other))
      else (Changed(w, id, w.machines[id].(seedRef := "")), Acknowledged)
    case DeleteSeed(ref) =>
      if ref in w.seeds then (w.(seeds := w.seeds - {ref}), Acknowledged) else (w, Failed(NotFound))
    case BootstrapConsumed(id) => (w, if id in w.machines then Consumed(id in w.consumed) else Failed(NotFound))
    case Start(id) => Powered(w, id, o.state)
    case Stop(id, _) => Powered(w, id, o.state)
    case Delete(id) =>
      if id in w.machines then (w.(machines := w.machines - {id}), Acknowledged) else (w, Failed(NotFound))
  }

  /** The launchers of running VMs consume their bootstrap files in their own time. */
  function Booted(casing: CaseMaps, w: World, booted: set<int>): World {
    w.(consumed := w.consumed + set id | id in booted && id in w.machines && InState(casing, w.machines[id], RUNNING))
  }

  /** The calls TrueNAS may acknowledge without carrying them out. */
  predicate Ignorable(call: Call) {
    call.DetachSeed? || call.Start? || call.Stop? || call.Delete?
  }

  function Serve(casing: CaseMaps, w: World, call: Call, o: Outcome): (World, Reply) {
    var w := Booted(casing, w, o.booted);
    var (done, reply) := Effect(w, call, o);
    match o.fate
    case Refused => (w, Failed(Other))
    case Lost => (done, Failed(Other))
    case Ignored => (if Ignorable(call) then w else done, reply)
    case Served => (done, reply)
  }

  // ----- the operations, call by call -----

  datatype Answer = Single(instance: Result<Instance>) | Several(instances: Result<seq<Instance>>) | Plain(done: Result<Unit>)

  /** `Create` before its VM exists. */
  datatype EarlyStep = AskVersion | AskName | AskTemplate | AskClone(template: Template)

  /** `Create` once it has a VM. */
  datatype LateStep = StageIt | AttachIt(ref: string) | StartIt(ref: string) | ReadBack(ref: string)

  datatype LookStep = GetFind(providerID: string) | ListPool(poolID: string)
    | StopFind(providerID: string) | StopCall(id: int) | StopCheck(id: int)

  /** `ReconcileBootstrap` */
  datatype ReconcileStep = SeedFind(providerID: string) | AskConsumed(id: int, ref: string)
    | Unhook(id: int, ref: string) | Drop(id: int, ref: string) | SeedCheck(id: int)

  datatype DeleteStep = DeleteFind(providerID: string) | UnhookFirst(id: int, ref: string) | DropFirst(id: int, ref: string)
    | DeleteCall(id: int) | DeleteCheck(id: int)

  /** What `Delete` returns to: its caller, or the loop of `RemoveAll`. */
  datatype After = Answering | Sweeping(todo: seq<string>, active: bool)

  datatype Proc =
    | Early(b: Bootstrap, early: EarlyStep)
    | Late(b: Bootstrap, id: int, late: LateStep)
    | Look(look: LookStep)
    | Reconciling(reconcile: ReconcileStep)
    | Deleting(step: DeleteStep, after: After)
    | SweepList
    | SweepFind(providerID: string, todo: seq<string>, active: bool)
    | Finished(answer: Answer)

  function EarlyCall(s: Site, b: Bootstrap, step: EarlyStep): Call {
    match step
    case AskVersion => SystemVersion
    case AskName => GetByName(Named(s, b))
    case AskTemplate => ResolveTemplate(TEMPLATE_FAMILY)
    case AskClone(template) => Clone(template.id, Requested(s, b, template))
  }

  function LateCall(s: Site, b: Bootstrap, id: int, step: LateStep): Call {
    match step
    case StageIt => StageSeed(id, Seed(s, b))
    case AttachIt(ref) => AttachSeed(id, ref)
    case StartIt(_) => Start(id)
    case ReadBack(_) => Get(id)
  }

  function LookCall(step: LookStep): Call {
    match step
    case StopCall(id) => Stop(id, false)
    case StopCheck(id) => Get(id)
    case _ => List
  }

  function ReconcileCall(step: ReconcileStep): Call {
    match step
    case SeedFind(_) => List
    case AskConsumed(id, _) => BootstrapConsumed(id)
    case Unhook(id, ref) => DetachSeed(id, ref)
    case Drop(_, ref) => DeleteSeed(ref)
    case SeedCheck(id) => Get(id)
  }

  function DeleteStepCall(step: DeleteStep): Call {
    match step
    case DeleteFind(_) => List
    case UnhookFirst(id, ref) => DetachSeed(id, ref)
    case DropFirst(_, ref) => DeleteSeed(ref)
    case DeleteCall(id) => Delete(id)
    case DeleteCheck(id) => Get(id)
  }

  function Wants(s: Site, p: Proc): Call
    requires !p.Finished?
  {
    match p
    case Early(b, step) => EarlyCall(s, b, step)
    case Late(b, id, step) => LateCall(s, b, id, step)
    case Look(step) => LookCall(step)
    case Reconciling(step) => ReconcileCall(step)
    case Deleting(step, _) => DeleteStepCall(step)
    case SweepList => List
    case SweepFind(_, _, _) => List
  }

  function Fail(error: Error): Proc {
    Finished(Single(Err(error)))
  }

  function Close(r: Result<Unit>): Proc {
    Finished(Plain(r))
  }

  function ProviderID(id: int): string {
    "vm:" + Decimal(id)
  }

  function ToInstance(s: Site, item: Item, poolID: string): Instance {
    Instance(ProviderID(item.id), item.machine.name, "truenas-vm", item.machine.template.version,
             s.p.casing.lower(item.machine.state), poolID)
  }

  /** The error of a reply that is not what was asked for. */
  function Trouble(r: Reply): Error {
    if r.Failed? then r.error else Other
  }

  function ResumeEarly(s: Site, b: Bootstrap, step: EarlyStep, r: Reply): Proc {
    match step
    case AskVersion =>
      if !r.Text? then Fail(Trouble(r))
      else if TrimSpace(r.text) == TrimSpace(s.systemVersion) then Early(b, AskName) else Fail(ManagedDrift)
    case AskName =>
      if r == Failed(NotFound) then Early(b, AskTemplate)
      else if !r.One? then Fail(Trouble(r))
      else Finished(Single(match VerifyOwnership(s, r.item.machine, b.poolID)
                           case Err(e) => Err(e)
                           case Ok(_) => Ok(ToInstance(s, r.item, b.poolID))))
    case AskTemplate =>
      if !r.TemplateIs? then Fail(Trouble(r))
      else if ExactTemplate(r.template) then Early(b, AskClone(r.template)) else Fail(ManagedDrift)
    case AskClone(_) => if r.One? then Admitted(s, b, r.item) else Fail(Trouble(r))
  }

  function Admitted(s: Site, b: Bootstrap, made: Item): Proc {
    match VerifyOwnership(s, made.machine, b.poolID)
    case Err(e) => Fail(e)
    case Ok(_) => if IsStopped(s, made.machine) then Late(b, made.id, StageIt) else Fail(ManagedDrift)
  }

  /** A reference that can be used: not blank, and without the token in it. */
  predicate SafeRef(ref: string, token: string) {
    !Blank(ref) && !Contains(ref, token)
  }

  function ResumeLate(s: Site, b: Bootstrap, id: int, step: LateStep, r: Reply): Proc {
    match step
    case StageIt =>
      if !r.Ref? then Fail(Trouble(r))
      else if SafeRef(r.ref, b.token) then Late(b, id, AttachIt(r.ref)) else Fail(ManagedDrift)
    case AttachIt(ref) => if r.Failed? then Fail(r.error) else Late(b, id, StartIt(ref))
    case StartIt(ref) => if r.Failed? then Fail(r.error) else Late(b, id, ReadBack(ref))
    case ReadBack(ref) =>
      if !r.One? then Fail(Trouble(r))
      else (match VerifyOwnership(s, r.item.machine, b.poolID)
            case Err(e) => Fail(e)
            case Ok(_) =>
              if IsRunning(s, r.item.machine) && r.item.machine.seedRef == ref
              then Finished(Single(Ok(ToInstance(s, r.item, b.poolID)))) else Fail(ManagedDrift))
  }

  function Find(items: seq<Item>, providerID: string): Option<Item> {
    if items == [] then None
    else if ProviderID(items[0].id) == providerID then Some(items[0])
    else Find(items[1..], providerID)
  }

  function FindOwned(s: Site, items: seq<Item>, providerID: string): Result<Item> {
    match Find(items, providerID)
    case None => Err(NotFound)
    case Some(item) =>
      match Owner(s, item.machine)
      case Err(e) => Err(e)
      case Ok(_) => Ok(item)
  }

  /** `findOwned` on the reply to its `List` call. */
  function Found(s: Site, r: Reply, providerID: string): Result<Item> {
    if r.Many? then FindOwned(s, r.items, providerID) else Err(Trouble(r))
  }

  function PoolOf(m: Machine): string {
    if m.description.Some? then m.description.value.poolID else ""
  }

  /** The VMs `List` looks at: it asks for less than full ownership before it insists on a sound runtime. */
  predicate Claimed(s: Site, m: Machine, poolID: string) {
    && m.description.Some? && m.description.value.controllerID == s.controllerID
    && m.description.value.managedBy == MANAGED_BY
    && (poolID == "" || m.description.value.poolID == poolID)
  }

  function Listed(s: Site, items: seq<Item>, poolID: string): Result<seq<Item>> {
    if items == [] then Ok([])
    else if !Claimed(s, items[0].machine, poolID) then Listed(s, items[1..], poolID)
    else if !Sound(s.p.casing, items[0].machine) then Err(ManagedDrift)
    else match Listed(s, items[1..], poolID)
      case Err(e) => Err(e)
      case Ok(rest) => Ok([items[0]] + rest)
  }

  function Selected(s: Site, r: Reply, poolID: string): Result<seq<Item>> {
    if r.Many? then Listed(s, r.items, poolID) else Err(Trouble(r))
  }

  function Instances(s: Site, items: seq<Item>): seq<Instance> {
    if items == [] then [] else [ToInstance(s, items[0], PoolOf(items[0].machine))] + Instances(s, items[1..])
  }

  function ProviderIDs(items: seq<Item>): seq<string> {
    if items == [] then [] else [ProviderID(items[0].id)] + ProviderIDs(items[1..])
  }

  function ResumeLook(s: Site, step: LookStep, r: Reply): Proc {
    match step
    case GetFind(providerID) =>
      Finished(Single(match Found(s, r, providerID)
                      case Err(e) => Err(e)
                      case Ok(item) => Ok(ToInstance(s, item, PoolOf(item.machine)))))
    case ListPool(poolID) =>
      Finished(Several(match Selected(s, r, poolID) case Err(e) => Err(e) case Ok(items) => Ok(Instances(s, items))))
    case StopFind(providerID) =>
      (match Found(s, r, providerID)
       case Err(e) => Close(Err(e))
       case Ok(item) =>
         if IsStopped(s, item.machine) then Close(Ok(Unit.Unit))
         else if IsRunning(s, item.machine) then Look(StopCall(item.id)) else Close(Err(UnsafeOperation)))
    case StopCall(id) => if r.Failed? then Close(Err(r.error)) else Look(StopCheck(id))
    case StopCheck(_) =>
      Close(if !r.One? then Err(Trouble(r))
            else if IsStopped(s, r.item.machine) then Ok(Unit.Unit) else Err(ManagedDrift))
  }

  function ResumeReconcile(s: Site, step: ReconcileStep, r: Reply): Proc {
    match step
    case SeedFind(providerID) =>
      (match Found(s, r, providerID)
       case Err(e) => Close(Err(e))
       case Ok(item) =>
         if !Seeded(item.machine) then Close(Ok(Unit.Unit))
         else if !IsStopped(s, item.machine) then Close(Err(UnsafeOperation))
         else Reconciling(AskConsumed(item.id, item.machine.seedRef)))
    case AskConsumed(id, ref) =>
      if !r.Consumed? then Close(Err(Trouble(r)))
      else if r.consumed then Reconciling(Unhook(id, ref)) else Close(Err(UnsafeOperation))
    case Unhook(id, ref) => if r.Failed? then Close(Err(r.error)) else Reconciling(Drop(id, ref))
    case Drop(id, ref) => if r.Failed? then Close(Err(r.error)) else Reconciling(SeedCheck(id))
    case SeedCheck(_) =>
      Close(if !r.One? then Err(Trouble(r)) else if Seeded(r.item.machine) then Err(ManagedDrift) else Ok(Unit.Unit))
  }

  function NextSweep(todo: seq<string>, active: bool): Proc {
    if todo == [] then Close(if active then Err(Active) else Ok(Unit.Unit)) else SweepFind(todo[0], todo[1..], active)
  }

  function Return(after: After, r: Result<Unit>): Proc {
    if after.Answering? || r.Err? then Close(r) else NextSweep(after.todo, after.active)
  }

  function ResumeDelete(s: Site, step: DeleteStep, after: After, r: Reply): Proc {
    match step
    case DeleteFind(providerID) =>
      (match Found(s, r, providerID)
       case Err(e) => Return(after, if e == NotFound then Ok(Unit.Unit) else Err(e))
       case Ok(item) =>
         if !IsStopped(s, item.machine) then Return(after, Err(Active))
         else Deleting(if Seeded(item.machine) then UnhookFirst(item.id, item.machine.seedRef) else DeleteCall(item.id), after))
    case UnhookFirst(id, ref) => if r.Failed? then Return(after, Err(r.error)) else Deleting(DropFirst(id, ref), after)
    case DropFirst(id, _) => if r.Failed? then Return(after, Err(r.error)) else Deleting(DeleteCall(id), after)
    case DeleteCall(id) => if r.Failed? then Return(after, Err(r.error)) else Deleting(DeleteCheck(id), after)
    case DeleteCheck(_) =>
      Return(after, if r == Failed(NotFound) then Ok(Unit.Unit) else Err(if r.Failed? then r.error else ManagedDrift))
  }

  function ResumeSweep(s: Site, providerID: string, todo: seq<string>, active: bool, r: Reply): Proc {
    match Found(s, r, providerID)
    case Err(e) => Close(Err(e))
    case Ok(item) =>
      if IsStopped(s, item.machine) then Deleting(DeleteFind(providerID), Sweeping(todo, active))
      else NextSweep(todo, true)
  }

  function Resume(s: Site, p: Proc, r: Reply): Proc
    requires !p.Finished?
  {
    match p
    case Early(b, step) => ResumeEarly(s, b, step, r)
    case Late(b, id, step) => ResumeLate(s, b, id, step, r)
    case Look(step) => ResumeLook(s, step, r)
    case Reconciling(step) => ResumeReconcile(s, step, r)
    case Deleting(step, after) => ResumeDelete(s, step, after, r)
    case SweepList =>
      (match Selected(s, r, "")
       case Err(e) => Close(Err(e))
       case Ok(items) => NextSweep(ProviderIDs(items), false))
    case SweepFind(providerID, todo, active) => ResumeSweep(s, providerID, todo, active, r)
  }

  // ----- runs -----

  datatype Op =
    | CreateOp(b: Bootstrap)
    | GetOp(target: string)
    | ListOp(poolID: string)
    | StopOp(target: string)
    | ReconcileOp(target: string)
    | DeleteOp(target: string)
    | RemoveAllOp

  function Begin(op: Op): Proc {
    match op
    case CreateOp(b) => if Accepts(b) then Early(b, AskVersion) else Fail(Unsupported)
    case GetOp(target) => Look(GetFind(target))
    case ListOp(poolID) => Look(ListPool(poolID))
    case StopOp(target) => Look(StopFind(target))
    case ReconcileOp(target) => Reconciling(SeedFind(target))
    case DeleteOp(target) => Deleting(DeleteFind(target), Answering)
    case RemoveAllOp => SweepList
  }

  datatype Moment = Moment(world: World, proc: Proc)

  function Step(s: Site, st: Moment, o: Outcome): Moment {
    if st.proc.Finished? then st
    else
      var (w, reply) := Serve(s.p.casing, st.world, Wants(s, st.proc), o);
      Moment(w, Resume(s, st.proc, reply))
  }

  /** The moment after the calls numbered from `i` up to `j`; every `j` is a point where the process may die. */
  function Run(s: Site, st: Moment, oracle: nat -> Outcome, i: nat, j: nat): Moment
    requires i <= j
  {
    if i == j then st else Step(s, Run(s, st, oracle, i, j - 1), oracle(j - 1))
  }
}

/** What the answers of `Get`, `List`, `Stop` and `Delete` of the VM backend mean over the inventory, with its
    owners, states and fields spelled out. */
module VmAnswers {
  import opened Text
  import opened Names
  import opened Provider
  import opened CloudInit
  import opened Vm
  import opened VmSafety
  import opened VmRespect
  import opened VmCreate

  // ----- in words -----

  function PID(id: int): string {
    "vm:" + Decimal(id)
  }

  /** The VM carries this manager's owner record, whatever pool and runner it names. */
  predicate Bears(s: Site, c: Machine) {
    match c.description
    case None => false
    case Some(owner) =>
      owner == Ownership("semper-supra.garm-vm-owner/1", "garm-provider-truenas", s.controllerID, owner.poolID,
                         owner.runnerName, "truenas-vm-linux-general")
  }

  predicate HasState(s: Site, c: Machine, word: string) {
    s.p.casing.EqualFold(c.state, word)
  }

  /** A clone of the one template release, whatever ID TrueNAS gave it. */
  predicate Cloned(t: Template) {
    && t.id > 0 && t.name == "ubuntu-24.04-amd64-template" && t.runtimeName == "garm_tpl_ubuntu_2404_20260926_amd64"
    && t.version == "ubuntu-24.04-release-20260926-amd64"
    && t.sourceURL == "https://cloud-images.ubuntu.com/" + "releases/noble/release-20260926/" + "ubuntu-24.04-server-cloudimg-" + "amd64.img"
    && t.sourceSHA256 == "6a81c37564db9b1e" + "e84e141922625e1d" + "7c5b389b99bb3c57" + "2e0243607d5bb4d2"
  }

  /** A VM as `Create` leaves it, up or down, its seed apart. */
  predicate Settled(s: Site, c: Machine) {
    && !c.autostart && c.vcpus == 4 && c.memoryBytes == 8 * 1024 * 1024 * 1024 && Cloned(c.template)
    && (s.p.casing.upper(c.state) == "RUNNING" || s.p.casing.upper(c.state) == "STOPPED")
  }

  /** The instance a VM is shown as. */
  function Shown(s: Site, id: int, c: Machine, poolID: string): Instance {
    Instance(PID(id), c.name, "truenas-vm", c.template.version, s.p.casing.lower(c.state), poolID)
  }

  lemma IdentifiedBears(s: Site, c: Machine)
    ensures Identified(s, c) <==> Bears(s, c)
  {
  }

  lemma SoundSettled(s: Site, c: Machine)
    ensures Sound(s.p.casing, c) <==> Settled(s, c)
  {
    TemplateCloned(c.template);
    hide ExactTemplate;
    hide Cloned;
  }

  lemma TemplateCloned(t: Template)
    ensures ExactTemplate(t) <==> Cloned(t)
  {
  }

  lemma InstanceShown(s: Site, item: Item, poolID: string)
    ensures ToInstance(s, item, poolID) == Shown(s, item.id, item.machine, poolID)
  {
  }

  /** What looking a VM up comes to. */
  function Looked(s: Site, id: int, c: Machine): Result<Item> {
    if !Bears(s, c) then Err(Foreign) else if !Settled(s, c) then Err(ManagedDrift) else Ok(Item(id, c))
  }

  lemma OwnerLooked(s: Site, id: int, c: Machine)
    ensures match Owner(s, c)
            case Err(e) => Looked(s, id, c) == Err(e)
            case Ok(owner) => Looked(s, id, c) == Ok(Item(id, c)) && c.description == Some(owner)
  {
    IdentifiedBears(s, c);
    SoundSettled(s, c);
    hide Bears;
    hide Settled;
    hide Sound;
    assert Identified(s, c) ==> c.description.Some?;
    hide Identified;
  }

  /** Which VM of the inventory a provider ID names, if any. */
  predicate Designates(w: World, target: string, at: Option<int>) {
    match at
    case None => forall id | id in w.machines :: PID(id) != target
    case Some(id) => id in w.machines && target == PID(id)
  }

  lemma AlwaysDesignates(w: World, target: string)
    ensures exists at :: Designates(w, target, at)
  {
    if id :| id in w.machines && PID(id) == target {
      assert Designates(w, target, Some(id));
    } else {
      assert Designates(w, target, None);
    }
  }

  function LookedUp(s: Site, w: World, at: Option<int>): Result<Item>
    requires at.Some? ==> at.value in w.machines
  {
    match at
    case None => Err(NotFound)
    case Some(id) => Looked(s, id, w.machines[id])
  }

  // ----- replies -----

  /** The call is answered truthfully, and the listing names every VM once. */
  predicate ListsAll(w: World, o: Outcome) {
    Answered(o) && Enumerates(o.order, w.machines.Keys)
  }

  lemma ListReply(casing: CaseMaps, w: World, o: Outcome)
    requires ListsAll(w, o)
    ensures var (w', r) := Serve(casing, w, List, o); SameHoldings(w, w') && r == Many(Itemized(w, o.order))
  {
    hide InState;
    ItemizedSame(w, Booted(casing, w, o.booted), o.order);
    hide Itemized;
  }

  lemma FoundReply(s: Site, w: World, o: Outcome, target: string, at: Option<int>)
    requires ListsAll(w, o) && Designates(w, target, at)
    ensures var (w', r) := Serve(s.p.casing, w, List, o);
            SameHoldings(w, w') && Found(s, r, target) == LookedUp(s, w, at)
  {
    ListReply(s.p.casing, w, o);
    FindTells(w, o.order, target);
    hide Serve;
    hide Itemized;
    hide Looked;
    assert forall id :: PID(id) == ProviderID(id);
    assert at.Some? ==> at.value in o.order;
    match Find(Itemized(w, o.order), target)
    case None =>
    case Some(item) =>
      assert item.id in w.machines;
      if at.Some? { SameProviderID(item.id, at.value); }
      OwnerLooked(s, item.id, item.machine);
    hide Owner;
    hide PID;
    hide ProviderID;
    hide Find;
  }

  lemma GetReply(casing: CaseMaps, w: World, id: int, o: Outcome)
    requires Answered(o)
    ensures var (w', r) := Serve(casing, w, Get(id), o);
            SameHoldings(w, w') && r == if id in w.machines then One(Item(id, w.machines[id])) else Failed(NotFound)
  {
    hide InState;
  }

  // ----- `Get` -----

  /** Over a listing answered truthfully: `Get` of an unknown ID is not found, of a foreign VM foreign, of one that
      has drifted drift, and otherwise the VM field by field; nothing changes. */
  lemma GetExactly(s: Site, before: World, o: Outcome, target: string, at: Option<int>)
    requires ListsAll(before, o) && Designates(before, target, at)
    ensures var m := Step(s, Moment(before, Begin(GetOp(target))), o);
            && SameHoldings(before, m.world)
            && m.proc == Finished(Single(match LookedUp(s, before, at)
                                         case Err(e) => Err(e)
                                         case Ok(item) =>
                                           Ok(Shown(s, item.id, item.machine, item.machine.description.value.poolID))))
  {
    FoundReply(s, before, o, target, at);
    var r := Serve(s.p.casing, before, List, o).1;
    hide Serve;
    hide Found;
    hide Settled;
    if LookedUp(s, before, at).Ok? {
      var item := LookedUp(s, before, at).value;
      InstanceShown(s, item, PoolOf(item.machine));
    }
    hide ToInstance;
    hide Shown;
    hide Designates;
  }

  // ----- `List` -----

  /** A VM `List` looks at: of this manager, and of the pool asked for, if one is. */
  predicate Counts(s: Site, c: Machine, poolID: string) {
    match c.description
    case None => false
    case Some(owner) =>
      && owner.controllerID == s.controllerID && owner.managedBy == "garm-provider-truenas"
      && poolID in {"", owner.poolID}
  }

  lemma ClaimedCounts(s: Site, c: Machine, poolID: string)
    ensures Claimed(s, c, poolID) <==> Counts(s, c, poolID)
  {
  }

  /** The instance a listed VM is shown as. */
  function Picture(s: Site, id: int, c: Machine): Instance {
    Shown(s, id, c, if c.description.Some? then c.description.value.poolID else "")
  }

  predicate Wanted(s: Site, w: World, id: int, poolID: string) {
    id in w.machines && Counts(s, w.machines[id], poolID)
  }

  predicate Distinct(ids: seq<int>) {
    forall j, k | 0 <= j < k < |ids| :: ids[j] != ids[k]
  }

  /** The items are exactly the VMs of `ids` that count, each once and settled, shown in order. */
  ghost predicate ListedWell(s: Site, w: World, ids: seq<int>, poolID: string, shown: seq<Instance>, kept: seq<int>) {
    && Distinct(kept) && (forall id :: id in kept <==> id in ids && Wanted(s, w, id, poolID))
    && |shown| == |kept| && (forall k | 0 <= k < |kept| :: kept[k] in w.machines && shown[k] == Picture(s, kept[k], w.machines[kept[k]]))
    && forall id | id in kept :: Settled(s, w.machines[id])
  }

  ghost predicate Drifted(s: Site, w: World, id: int, poolID: string) {
    Wanted(s, w, id, poolID) && !Settled(s, w.machines[id])
  }

  lemma NoneListed(s: Site, w: World, poolID: string)
    ensures ListedWell(s, w, [], poolID, [], [])
  {
  }

  lemma OneMoreListed(s: Site, w: World, ids: seq<int>, poolID: string, shown: seq<Instance>, kept: seq<int>)
    requires ids != [] && Distinct(ids) && ids[0] in w.machines && ListedWell(s, w, ids[1..], poolID, shown, kept)
    ensures !Wanted(s, w, ids[0], poolID) ==> ListedWell(s, w, ids, poolID, shown, kept)
    ensures Wanted(s, w, ids[0], poolID) && Settled(s, w.machines[ids[0]]) ==>
              ListedWell(s, w, ids, poolID, [Picture(s, ids[0], w.machines[ids[0]])] + shown, [ids[0]] + kept)
  {
    hide Picture;
    hide Counts;
    hide Settled;
    assert ids == [ids[0]] + ids[1..] && ids[0] !in ids[1..];
  }

  lemma ItemPicture(s: Site, item: Item)
    ensures ToInstance(s, item, PoolOf(item.machine)) == Picture(s, item.id, item.machine)
  {
    InstanceShown(s, item, PoolOf(item.machine));
  }

  lemma {:induction false} ListedExactly(s: Site, w: World, ids: seq<int>, poolID: string) returns (kept: seq<int>)
    requires Distinct(ids) && forall k | 0 <= k < |ids| :: ids[k] in w.machines
    ensures match Listed(s, Itemized(w, ids), poolID)
            case Err(e) => e == ManagedDrift && exists id | id in ids :: Drifted(s, w, id, poolID)
            case Ok(items) => ListedWell(s, w, ids, poolID, Instances(s, items), kept)
  {
    kept := [];
    if ids == [] { NoneListed(s, w, poolID); return; }
    hide Sound;
    hide Claimed;
    hide ToInstance;
    hide Picture;
    var c := w.machines[ids[0]];
    ClaimedCounts(s, c, poolID);
    SoundSettled(s, c);
    hide Counts;
    hide Settled;
    assert forall k | 0 <= k < |ids[1..]| :: ids[1..][k] == ids[k + 1];
    var rest := ListedExactly(s, w, ids[1..], poolID);
    assert Itemized(w, ids)[1..] == Itemized(w, ids[1..]);
    var listed := Listed(s, Itemized(w, ids[1..]), poolID);
    if listed.Ok? {
      OneMoreListed(s, w, ids, poolID, Instances(s, listed.value), rest);
      ItemPicture(s, Item(ids[0], c));
      assert ([Item(ids[0], c)] + listed.value)[1..] == listed.value;
      kept := if Claimed(s, c, poolID) then [ids[0]] + rest else rest;
    }
    hide ListedWell;
    assert Wanted(s, w, ids[0], poolID) == Claimed(s, c, poolID);
    assert Drifted(s, w, ids[0], poolID) == (Claimed(s, c, poolID) && !Sound(s.p.casing, c));
    hide Wanted;
    hide Drifted;
    assert ids == [ids[0]] + ids[1..];
  }

  /** `List` over a listing answered truthfully fails with drift exactly if a VM that counts has drifted, and
      otherwise shows each of those that count once, field by field; nothing changes. */
  lemma ListExactly(s: Site, before: World, o: Outcome, poolID: string)
    requires ListsAll(before, o)
    ensures var m := Step(s, Moment(before, Begin(ListOp(poolID))), o);
            && SameHoldings(before, m.world) && m.proc.Finished? && m.proc.answer.Several?
            && match m.proc.answer.instances
               case Err(e) => e == ManagedDrift && exists id :: Drifted(s, before, id, poolID)
               case Ok(shown) =>
                 && (forall id :: !Drifted(s, before, id, poolID))
                 && (set i | i in shown) == (set id | id in before.machines && Wanted(s, before, id, poolID)
                                                    :: Picture(s, id, before.machines[id]))
                 && forall j, k | 0 <= j < k < |shown| :: shown[j].providerID != shown[k].providerID
  {
    ListReply(s.p.casing, before, o);
    assert forall k | 0 <= k < |o.order| :: o.order[k] in before.machines;
    var kept := ListedExactly(s, before, o.order, poolID);
    hide Serve;
    hide Itemized;
    var listed := Listed(s, Itemized(before, o.order), poolID);
    if listed.Ok? {
      WellListed(s, before, o.order, poolID, Instances(s, listed.value), kept);
    }
    hide Listed;
    hide Picture;
    hide Wanted;
    hide Drifted;
    hide ListedWell;
    hide Enumerates;
  }

  lemma WellListed(s: Site, w: World, ids: seq<int>, poolID: string, shown: seq<Instance>, kept: seq<int>)
    requires ListedWell(s, w, ids, poolID, shown, kept) && Enumerates(ids, w.machines.Keys)
    ensures forall id :: !Drifted(s, w, id, poolID)
    ensures (set i | i in shown) == set id | id in w.machines && Wanted(s, w, id, poolID) :: Picture(s, id, w.machines[id])
    ensures forall j, k | 0 <= j < k < |shown| :: shown[j].providerID != shown[k].providerID
  {
    hide Counts;
    hide Settled;
    forall j, k | 0 <= j < k < |shown| ensures shown[j].providerID != shown[k].providerID {
      if ProviderID(kept[j]) == ProviderID(kept[k]) { SameProviderID(kept[j], kept[k]); }
    }
    hide PID;
    hide Picture;
    forall id | id in w.machines && Wanted(s, w, id, poolID)
      ensures Picture(s, id, w.machines[id]) in shown
    {
      assert id in kept;
      var k :| 0 <= k < |kept| && kept[k] == id;
      assert shown[k] == Picture(s, id, w.machines[id]);
    }
    forall i | i in shown
      ensures exists id | id in w.machines && Wanted(s, w, id, poolID) :: i == Picture(s, id, w.machines[id])
    {
      var k :| 0 <= k < |shown| && shown[k] == i;
      assert kept[k] in kept;
    }
  }

  // ----- `Stop` -----

  function Ran(s: Site, op: Op, before: World, oracle: nat -> Outcome, i: nat, j: nat): Moment
    requires i <= j
  {
    Run(s, Moment(before, Begin(op)), oracle, i, j)
  }

  /** How far `Stop` has come with VM `id`. */
  predicate StopAims(s: Site, w: World, p: Proc, id: int) {
    match p
    case Look(StopFind(target)) => target == PID(id)
    case Look(StopCall(n)) => n == id && id in w.machines && Bears(s, w.machines[id])
    case Look(StopCheck(n)) => n == id && id in w.machines && Bears(s, w.machines[id])
    case Finished(Plain(r)) =>
      r.Ok? ==> id in w.machines && Bears(s, w.machines[id]) && HasState(s, w.machines[id], "STOPPED")
    case _ => false
  }

  lemma StopFindAims(s: Site, w: World, id: int, o: Outcome)
    ensures var (w', r) := Serve(s.p.casing, w, List, o); StopAims(s, w', ResumeLook(s, StopFind(PID(id)), r), id)
  {
    FoundTells(s, w, o, PID(id));
    var r := Serve(s.p.casing, w, List, o).1;
    hide Serve;
    assert PID(id) == ProviderID(id);
    if Found(s, r, PID(id)).Ok? {
      var item := Found(s, r, PID(id)).value;
      SameProviderID(item.id, id);
      OwnerLooked(s, item.id, item.machine);
    }
    hide Found;
    hide PID;
    hide ProviderID;
    hide Owner;
    hide Settled;
    hide Bears;
  }

  lemma StoppingAims(s: Site, w: World, step: LookStep, id: int, o: Outcome)
    requires step.StopCall? || step.StopCheck?
    requires StopAims(s, w, Look(step), id)
    ensures var (w', r) := Serve(s.p.casing, w, LookCall(step), o); StopAims(s, w', ResumeLook(s, step, r), id)
  {
    GetTells(s.p.casing, w, id, o);
    PowerTells(s.p.casing, w, id, Stop(id, false), o);
    hide Serve;
  }

  lemma StopStepAims(s: Site, m: Moment, id: int, o: Outcome)
    requires StopAims(s, m.world, m.proc, id)
    ensures var next := Step(s, m, o); StopAims(s, next.world, next.proc, id)
  {
    if m.proc.Finished? { return; }
    var step := m.proc.look;
    if step.StopFind? { StopFindAims(s, m.world, id, o); } else { StoppingAims(s, m.world, step, id, o); }
    hide Serve;
    hide PID;
    hide ResumeLook;
  }

  /** Whatever TrueNAS does and wherever it lies about the stopping: when `Stop` succeeds, the VM it names is there,
      is this manager's, and is stopped. */
  lemma {:induction false} StopMeansStopped(s: Site, id: int, before: World, oracle: nat -> Outcome, i: nat, j: nat)
    requires i <= j
    ensures var m := Ran(s, StopOp("vm:" + Decimal(id)), before, oracle, i, j);
            && StopAims(s, m.world, m.proc, id)
            && (m.proc == Finished(Plain(Ok(Unit.Unit))) ==>
                  id in m.world.machines && Bears(s, m.world.machines[id])
                  && HasState(s, m.world.machines[id], "STOPPED"))
  {
    hide Step;
    if i < j {
      StopMeansStopped(s, id, before, oracle, i, j - 1);
      StopStepAims(s, Ran(s, StopOp("vm:" + Decimal(id)), before, oracle, i, j - 1), id, oracle(j - 1));
    }
  }

  lemma ThreeSteps(s: Site, op: Op, before: World, oracle: nat -> Outcome, i: nat)
    ensures Ran(s, op, before, oracle, i, i + 3)
         == Step(s, Step(s, Step(s, Moment(before, Begin(op)), oracle(i)), oracle(i + 1)), oracle(i + 2))
  {
    hide Step;
    hide Begin;
    assert Ran(s, op, before, oracle, i, i + 1) == Step(s, Ran(s, op, before, oracle, i, i), oracle(i));
    assert Ran(s, op, before, oracle, i, i + 2) == Step(s, Ran(s, op, before, oracle, i, i + 1), oracle(i + 1));
  }

  lemma Rests(s: Site, m: Moment, o: Outcome)
    requires m.proc.Finished?
    ensures Step(s, m, o) == m
  {
  }

  lemma StopFirst(s: Site, before: World, o: Outcome, target: string, at: Option<int>)
    requires ListsAll(before, o) && Designates(before, target, at)
    ensures var m := Step(s, Moment(before, Begin(StopOp(target))), o);
            && SameHoldings(before, m.world)
            && m.proc == match LookedUp(s, before, at)
                         case Err(e) => Finished(Plain(Err(e)))
                         case Ok(item) =>
                           if HasState(s, item.machine, "STOPPED") then Finished(Plain(Ok(Unit.Unit)))
                           else if HasState(s, item.machine, "RUNNING") then Look(StopCall(item.id))
                           else Finished(Plain(Err(UnsafeOperation)))
  {
    FoundReply(s, before, o, target, at);
    hide Serve;
    hide Found;
    hide LookedUp;
    hide Designates;
  }

  lemma StopRest(s: Site, w: World, id: int, stop: Outcome, get: Outcome)
    requires id in w.machines && stop.fate == Served && Answered(get)
    ensures var stopped := w.machines[id].(state := stop.state);
            var m := Step(s, Step(s, Moment(w, Look(StopCall(id))), stop), get);
            && m.world.machines == w.machines[id := stopped] && m.world.seeds == w.seeds
            && m.proc == Finished(Plain(if HasState(s, stopped, "STOPPED") then Ok(Unit.Unit) else Err(ManagedDrift)))
  {
    PowerTells(s.p.casing, w, id, Stop(id, false), stop);
    var next := Step(s, Moment(w, Look(StopCall(id))), stop);
    assert next.proc == Look(StopCheck(id)) by { hide Serve; }
    GetReply(s.p.casing, next.world, id, get);
    hide Serve;
  }

  /** Over a client that serves its calls `Stop` does what it says: a VM already stopped is left alone, a running one
      is told to stop and reported stopped or drifted as TrueNAS left it, and everything else is refused untouched. */
  lemma StopExactly(s: Site, before: World, oracle: nat -> Outcome, i: nat, target: string, at: Option<int>)
    requires ListsAll(before, oracle(i)) && oracle(i + 1).fate == Served && Answered(oracle(i + 2))
    requires Designates(before, target, at)
    ensures var m := Ran(s, StopOp(target), before, oracle, i, i + 3);
            match LookedUp(s, before, at)
            case Err(e) => SameHoldings(before, m.world) && m.proc == Finished(Plain(Err(e)))
            case Ok(Item(id, c)) =>
              if HasState(s, c, "STOPPED") || !HasState(s, c, "RUNNING")
              then && SameHoldings(before, m.world)
                   && m.proc == Finished(Plain(if HasState(s, c, "STOPPED") then Ok(Unit.Unit) else Err(UnsafeOperation)))
              else var left := c.(state := oracle(i + 1).state);
                   && m.world.machines == before.machines[id := left] && m.world.seeds == before.seeds
                   && m.proc == Finished(Plain(if HasState(s, left, "STOPPED") then Ok(Unit.Unit) else Err(ManagedDrift)))
  {
    assert at.Some? ==> at.value in before.machines;
    hide Step;
    hide Ran;
    hide Begin;
    hide Designates;
    hide HasState;
    ThreeSteps(s, StopOp(target), before, oracle, i);
    StopFirst(s, before, oracle(i), target, at);
    LookedAt(s, before, at);
    hide LookedUp;
    var m := Step(s, Moment(before, Begin(StopOp(target))), oracle(i));
    if m.proc.Finished? {
      Rests(s, m, oracle(i + 1));
      Rests(s, m, oracle(i + 2));
    } else {
      StopRest(s, m.world, m.proc.look.id, oracle(i + 1), oracle(i + 2));
    }
  }

  lemma LookedAt(s: Site, w: World, at: Option<int>)
    requires at.Some? ==> at.value in w.machines
    ensures LookedUp(s, w, at).Ok? ==>
              var item := LookedUp(s, w, at).value;
              at == Some(item.id) && item.id in w.machines && item.machine == w.machines[item.id]
  {
    hide Bears;
    hide Settled;
  }

  // ----- `ReconcileBootstrap` -----

  predicate HasSeed(c: Machine) {
    TrimSpace(c.seedRef) != ""
  }

  /** The VM is there without a seed, and the one it had before is gone. */
  predicate Cleared(before: World, w: World, id: int) {
    && id in w.machines && !HasSeed(w.machines[id])
    && id in before.machines && (HasSeed(before.machines[id]) ==> before.machines[id].seedRef !in w.seeds)
  }

  predicate ReconcileAims(before: World, w: World, p: Proc, id: int) {
    match p
    case Reconciling(SeedFind(target)) => target == PID(id) && SameHoldings(before, w)
    case Reconciling(AskConsumed(n, ref)) => n == id && id in before.machines && ref == before.machines[id].seedRef
    case Reconciling(Unhook(n, ref)) => n == id && id in before.machines && ref == before.machines[id].seedRef
    case Reconciling(Drop(n, ref)) => n == id && id in before.machines && ref == before.machines[id].seedRef
    case Reconciling(SeedCheck(n)) => n == id && id in before.machines && before.machines[id].seedRef !in w.seeds
    case Finished(Plain(r)) => r.Ok? ==> Cleared(before, w, id)
    case _ => false
  }

  lemma SeedFindAims(s: Site, before: World, w: World, id: int, o: Outcome)
    requires SameHoldings(before, w)
    ensures var (w', r) := Serve(s.p.casing, w, List, o);
            ReconcileAims(before, w', ResumeReconcile(s, SeedFind(PID(id)), r), id)
  {
    FoundTells(s, w, o, PID(id));
    var r := Serve(s.p.casing, w, List, o).1;
    hide Serve;
    assert PID(id) == ProviderID(id);
    if Found(s, r, PID(id)).Ok? { SameProviderID(Found(s, r, PID(id)).value.id, id); }
    hide Found;
    hide PID;
    hide ProviderID;
    hide TrimSpace;
    hide Owned;
  }

  lemma ReconcilingAims(s: Site, before: World, w: World, step: ReconcileStep, id: int, o: Outcome)
    requires !step.SeedFind? && ReconcileAims(before, w, Reconciling(step), id)
    ensures var (w', r) := Serve(s.p.casing, w, ReconcileCall(step), o);
            ReconcileAims(before, w', ResumeReconcile(s, step, r), id)
  {
    GetTells(s.p.casing, w, id, o);
    DropTells(s.p.casing, w, before.machines[id].seedRef, o);
    hide Serve;
    hide TrimSpace;
  }

  lemma ReconcileStepAims(s: Site, before: World, m: Moment, id: int, o: Outcome)
    requires ReconcileAims(before, m.world, m.proc, id)
    ensures var next := Step(s, m, o); ReconcileAims(before, next.world, next.proc, id)
  {
    if m.proc.Finished? { return; }
    var step := m.proc.reconcile;
    if step.SeedFind? { SeedFindAims(s, before, m.world, id, o); } else { ReconcilingAims(s, before, m.world, step, id, o); }
    hide Serve;
    hide PID;
    hide ResumeReconcile;
  }

  /** Whatever TrueNAS does and wherever it lies about the detaching: when `ReconcileBootstrap` succeeds, the VM is there
      without a seed, and the seed it had is gone. */
  lemma {:induction false} ReconcileMeansCleared(s: Site, id: int, before: World, oracle: nat -> Outcome, i: nat, j: nat)
    requires i <= j
    ensures var m := Ran(s, ReconcileOp("vm:" + Decimal(id)), before, oracle, i, j);
            && ReconcileAims(before, m.world, m.proc, id)
            && (m.proc == Finished(Plain(Ok(Unit.Unit))) ==> Cleared(before, m.world, id))
  {
    hide Step;
    hide Cleared;
    if i < j {
      ReconcileMeansCleared(s, id, before, oracle, i, j - 1);
      ReconcileStepAims(s, before, Ran(s, ReconcileOp("vm:" + Decimal(id)), before, oracle, i, j - 1), id, oracle(j - 1));
    }
  }

  lemma FiveSteps(s: Site, op: Op, before: World, oracle: nat -> Outcome, i: nat)
    ensures Ran(s, op, before, oracle, i, i + 5)
         == Step(s, Step(s, Step(s, Step(s, Step(s, Moment(before, Begin(op)), oracle(i)), oracle(i + 1)), oracle(i + 2)),
                         oracle(i + 3)), oracle(i + 4))
  {
    ThreeSteps(s, op, before, oracle, i);
    hide Step;
    hide Begin;
    assert Ran(s, op, before, oracle, i, i + 4) == Step(s, Ran(s, op, before, oracle, i, i + 3), oracle(i + 3));
    assert Ran(s, op, before, oracle, i, i + 5) == Step(s, Ran(s, op, before, oracle, i, i + 4), oracle(i + 4));
  }

  lemma SeedFindFirst(s: Site, before: World, o: Outcome, target: string, at: Option<int>)
    requires ListsAll(before, o) && Designates(before, target, at)
    ensures var m := Step(s, Moment(before, Begin(ReconcileOp(target))), o);
            && SameHoldings(before, m.world)
            && m.proc == match LookedUp(s, before, at)
                         case Err(e) => Finished(Plain(Err(e)))
                         case Ok(item) =>
                           if !HasSeed(item.machine) then Finished(Plain(Ok(Unit.Unit)))
                           else if !HasState(s, item.machine, "STOPPED") then Finished(Plain(Err(UnsafeOperation)))
                           else Reconciling(AskConsumed(item.id, item.machine.seedRef))
  {
    FoundReply(s, before, o, target, at);
    hide Serve;
    hide Found;
    hide LookedUp;
    hide Designates;
    hide TrimSpace;
  }

  lemma ConsumedReply(s: Site, w: World, id: int, o: Outcome)
    requires s.Valid() && id in w.machines && Answered(o) && HasState(s, w.machines[id], "STOPPED")
    ensures var (w', r) := Serve(s.p.casing, w, BootstrapConsumed(id), o);
            SameHoldings(w, w') && r == Consumed(id in w.consumed)
  {
    assert !InState(s.p.casing, w.machines[id], RUNNING);
  }

  lemma DetachReply(casing: CaseMaps, w: World, id: int, o: Outcome)
    requires id in w.machines && o.fate == Served
    ensures var (w', r) := Serve(casing, w, DetachSeed(id, w.machines[id].seedRef), o);
            && w'.seeds == w.seeds && w'.refs == w.refs && w'.machines == w.machines[id := w.machines[id].(seedRef := "")]
            && !r.Failed?
  {
    hide InState;
  }

  lemma DropReply(casing: CaseMaps, w: World, ref: string, o: Outcome)
    requires o.fate == Served
    ensures var (w', r) := Serve(casing, w, DeleteSeed(ref), o);
            && w'.machines == w.machines && w'.refs == w.refs && w'.seeds == w.seeds - {ref}
            && r == if ref in w.seeds then Acknowledged else Failed(NotFound)
  {
    hide InState;
  }

  /** The VM without its seed, and the image gone. */
  function Freed(w: World, id: int): World
    requires id in w.machines
  {
    w.(machines := w.machines[id := w.machines[id].(seedRef := "")], seeds := w.seeds - {w.machines[id].seedRef})
  }

  predicate Looks(w: World, w': World) {
    w'.machines == w.machines && w'.seeds == w.seeds
  }

  /** Detaching and deleting the seed of a VM, when both are served. */
  lemma Freeing(s: Site, w: World, id: int, detach: Outcome, drop: Outcome)
    requires id in w.machines && detach.fate == Served && drop.fate == Served
    ensures var (w', r) := Serve(s.p.casing, w, DetachSeed(id, w.machines[id].seedRef), detach);
            var (w'', q) := Serve(s.p.casing, w', DeleteSeed(w.machines[id].seedRef), drop);
            && Looks(Freed(w, id), w'') && !r.Failed?
            && q == if w.machines[id].seedRef in w.seeds then Acknowledged else Failed(NotFound)
  {
    DetachReply(s.p.casing, w, id, detach);
    DropReply(s.p.casing, Serve(s.p.casing, w, DetachSeed(id, w.machines[id].seedRef), detach).0, w.machines[id].seedRef, drop);
    hide Serve;
  }

  lemma ReconcileUnhook(s: Site, w: World, id: int, detach: Outcome, drop: Outcome)
    requires id in w.machines && detach.fate == Served && drop.fate == Served
    ensures var ref := w.machines[id].seedRef;
            var m := Step(s, Step(s, Moment(w, Reconciling(Unhook(id, ref))), detach), drop);
            && Looks(Freed(w, id), m.world)
            && m.proc == if ref in w.seeds then Reconciling(SeedCheck(id)) else Finished(Plain(Err(NotFound)))
  {
    Freeing(s, w, id, detach, drop);
    hide Serve;
    hide Freed;
  }

  lemma ReconcileCheck(s: Site, w: World, id: int, get: Outcome)
    requires id in w.machines && Answered(get) && w.machines[id].seedRef == ""
    ensures var m := Step(s, Moment(w, Reconciling(SeedCheck(id))), get);
            Looks(w, m.world) && m.proc == Finished(Plain(Ok(Unit.Unit)))
  {
    GetReply(s.p.casing, w, id, get);
    hide Serve;
    assert TrimSpace("") == "";
  }

  lemma ReconcileAsk(s: Site, w: World, id: int, ref: string, o: Outcome)
    requires s.Valid() && id in w.machines && Answered(o) && HasState(s, w.machines[id], "STOPPED")
    ensures var m := Step(s, Moment(w, Reconciling(AskConsumed(id, ref))), o);
            && SameHoldings(w, m.world)
            && m.proc == if id in w.consumed then Reconciling(Unhook(id, ref)) else Finished(Plain(Err(UnsafeOperation)))
  {
    ConsumedReply(s, w, id, o);
    hide Serve;
  }

  lemma ListConsumes(s: Site, w: World, id: int, o: Outcome, target: string)
    requires s.Valid() && id in w.machines && HasState(s, w.machines[id], "STOPPED")
    ensures id in Step(s, Moment(w, Begin(ReconcileOp(target))), o).world.consumed <==> id in w.consumed
  {
    assert !InState(s.p.casing, w.machines[id], RUNNING);
    hide ResumeReconcile;
    hide InState;
    hide Itemized;
    hide Enumerates;
  }

  ghost predicate AllServed(oracle: nat -> Outcome, i: nat, j: nat) {
    forall k | i <= k < j :: oracle(k).fate == Served
  }

  /** What `ReconcileBootstrap` makes of a stopped VM with a seed whose bootstrap was looked for. */
  ghost predicate Reconciled(before: World, m: Moment, id: int, consumed: bool)
    requires id in before.machines
  {
    if !consumed then Looks(before, m.world) && m.proc == Finished(Plain(Err(UnsafeOperation)))
    else && Looks(Freed(before, id), m.world)
         && m.proc == Finished(Plain(if before.machines[id].seedRef in before.seeds then Ok(Unit.Unit) else Err(NotFound)))
  }

  lemma ReconcileRest(s: Site, w: World, id: int, oracle: nat -> Outcome, i: nat)
    requires s.Valid() && id in w.machines && HasState(s, w.machines[id], "STOPPED") && AllServed(oracle, i, i + 4)
    ensures var ref := w.machines[id].seedRef;
            var m := Step(s, Step(s, Step(s, Step(s, Moment(w, Reconciling(AskConsumed(id, ref))), oracle(i)), oracle(i + 1)),
                                  oracle(i + 2)), oracle(i + 3));
            Reconciled(w, m, id, id in w.consumed)
  {
    var ref := w.machines[id].seedRef;
    ReconcileAsk(s, w, id, ref, oracle(i));
    var m := Step(s, Moment(w, Reconciling(AskConsumed(id, ref))), oracle(i));
    hide HasState;
    if m.proc.Finished? {
      Rests(s, m, oracle(i + 1));
      Rests(s, m, oracle(i + 2));
      Rests(s, m, oracle(i + 3));
      hide Step;
    } else {
      ReconcileUnhook(s, m.world, id, oracle(i + 1), oracle(i + 2));
      var next := Step(s, Step(s, m, oracle(i + 1)), oracle(i + 2));
      hide Step;
      if next.proc.Finished? { Rests(s, next, oracle(i + 3)); } else { ReconcileCheck(s, next.world, id, oracle(i + 3)); }
    }
  }

  lemma FourRests(s: Site, m: Moment, oracle: nat -> Outcome, i: nat)
    requires m.proc.Finished?
    ensures Step(s, Step(s, Step(s, Step(s, m, oracle(i)), oracle(i + 1)), oracle(i + 2)), oracle(i + 3)) == m
  {
    hide Step;
    Rests(s, m, oracle(i));
    Rests(s, m, oracle(i + 1));
    Rests(s, m, oracle(i + 2));
    Rests(s, m, oracle(i + 3));
  }

  lemma ReconciledSame(w: World, w': World, id: int)
    requires SameHoldings(w, w') && id in w.machines
    ensures forall m, consumed :: Reconciled(w', m, id, consumed) == Reconciled(w, m, id, consumed)
  {
  }

  /** Over a client that serves its calls `ReconcileBootstrap` does what it says: a VM without a seed is left alone; one
      that is up, or whose bootstrap was not consumed, is refused untouched; and a stopped VM whose bootstrap was consumed
      loses its seed, image and all, while nothing else changes. */
  lemma ReconcileExactly(s: Site, before: World, oracle: nat -> Outcome, i: nat, target: string, at: Option<int>)
    requires s.Valid() && ListsAll(before, oracle(i)) && AllServed(oracle, i, i + 5) && Designates(before, target, at)
    ensures var m := Ran(s, ReconcileOp(target), before, oracle, i, i + 5);
            match LookedUp(s, before, at)
            case Err(e) => Looks(before, m.world) && m.proc == Finished(Plain(Err(e)))
            case Ok(Item(id, c)) =>
              if !HasSeed(c) then Looks(before, m.world) && m.proc == Finished(Plain(Ok(Unit.Unit)))
              else if !HasState(s, c, "STOPPED") then Looks(before, m.world) && m.proc == Finished(Plain(Err(UnsafeOperation)))
              else id in before.machines && Reconciled(before, m, id, id in before.consumed)
  {
    hide Step;
    hide Ran;
    hide Begin;
    assert at.Some? ==> at.value in before.machines;
    hide Designates;
    hide HasState;
    hide HasSeed;
    FiveSteps(s, ReconcileOp(target), before, oracle, i);
    SeedFindFirst(s, before, oracle(i), target, at);
    LookedAt(s, before, at);
    hide LookedUp;
    var m := Step(s, Moment(before, Begin(ReconcileOp(target))), oracle(i));
    if m.proc.Finished? {
      FourRests(s, m, oracle, i + 1);
    } else {
      ListConsumes(s, before, m.proc.reconcile.id, oracle(i), target);
      ReconcileRest(s, m.world, m.proc.reconcile.id, oracle, i + 1);
      ReconciledSame(before, m.world, m.proc.reconcile.id);
    }
    hide Reconciled;
  }

  // ----- `Delete` -----

  lemma DeleteFirst(s: Site, before: World, o: Outcome, target: string, at: Option<int>)
    requires ListsAll(before, o) && Designates(before, target, at)
    ensures var m := Step(s, Moment(before, Begin(DeleteOp(target))), o);
            && SameHoldings(before, m.world)
            && m.proc == match LookedUp(s, before, at)
                         case Err(e) => Finished(Plain(if at.None? then Ok(Unit.Unit) else Err(e)))
                         case Ok(item) =>
                           if !HasState(s, item.machine, "STOPPED") then Finished(Plain(Err(Active)))
                           else Deleting(if HasSeed(item.machine) then UnhookFirst(item.id, item.machine.seedRef)
                                         else DeleteCall(item.id), Answering)
  {
    FoundReply(s, before, o, target, at);
    hide Serve;
    hide Found;
    hide Bears;
    hide Settled;
    hide Designates;
    hide TrimSpace;
  }

  lemma DeleteRest(s: Site, w: World, id: int, delete: Outcome, get: Outcome)
    requires id in w.machines && delete.fate == Served && Answered(get)
    ensures var m := Step(s, Step(s, Moment(w, Deleting(DeleteCall(id), Answering)), delete), get);
            && m.world.machines == w.machines - {id} && m.world.seeds == w.seeds
            && m.proc == Finished(Plain(Ok(Unit.Unit)))
  {
    DeleteTells(s.p.casing, w, id, delete);
    var next := Step(s, Moment(w, Deleting(DeleteCall(id), Answering)), delete);
    assert next.proc == Deleting(DeleteCheck(id), Answering) by { hide Serve; }
    GetReply(s.p.casing, next.world, id, get);
    hide Serve;
  }

  lemma DeleteUnhook(s: Site, w: World, id: int, detach: Outcome, drop: Outcome)
    requires id in w.machines && detach.fate == Served && drop.fate == Served
    ensures var ref := w.machines[id].seedRef;
            var m := Step(s, Step(s, Moment(w, Deleting(UnhookFirst(id, ref), Answering)), detach), drop);
            && Looks(Freed(w, id), m.world)
            && m.proc == if ref in w.seeds then Deleting(DeleteCall(id), Answering) else Finished(Plain(Err(NotFound)))
  {
    Freeing(s, w, id, detach, drop);
    hide Serve;
    hide Freed;
  }

  /** What `Delete` makes of a stopped VM: it and its seed are gone, unless the seed's image was gone already; then the VM
      stays, without the seed, and the caller is told of the missing image. */
  ghost predicate Deleted(before: World, m: Moment, id: int, seeded: bool)
    requires id in before.machines
  {
    if seeded && before.machines[id].seedRef !in before.seeds
    then Looks(Freed(before, id), m.world) && m.proc == Finished(Plain(Err(NotFound)))
    else && m.world.machines == before.machines - {id}
         && m.world.seeds == (if seeded then before.seeds - {before.machines[id].seedRef} else before.seeds)
         && m.proc == Finished(Plain(Ok(Unit.Unit)))
  }

  lemma DeleteSeeded(s: Site, w: World, id: int, oracle: nat -> Outcome, i: nat)
    requires id in w.machines && AllServed(oracle, i, i + 4)
    ensures var ref := w.machines[id].seedRef;
            var m := Step(s, Step(s, Step(s, Step(s, Moment(w, Deleting(UnhookFirst(id, ref), Answering)), oracle(i)),
                                          oracle(i + 1)), oracle(i + 2)), oracle(i + 3));
            Deleted(w, m, id, true)
  {
    var ref := w.machines[id].seedRef;
    DeleteUnhook(s, w, id, oracle(i), oracle(i + 1));
    var next := Step(s, Step(s, Moment(w, Deleting(UnhookFirst(id, ref), Answering)), oracle(i)), oracle(i + 1));
    if next.proc.Finished? {
      Rests(s, next, oracle(i + 2));
      Rests(s, next, oracle(i + 3));
      hide Step;
    } else {
      DeleteRest(s, next.world, id, oracle(i + 2), oracle(i + 3));
      hide Step;
      assert Freed(w, id).machines - {id} == w.machines - {id};
    }
  }

  lemma DeleteUnseeded(s: Site, w: World, id: int, oracle: nat -> Outcome, i: nat)
    requires id in w.machines && AllServed(oracle, i, i + 4)
    ensures var m := Step(s, Step(s, Step(s, Step(s, Moment(w, Deleting(DeleteCall(id), Answering)), oracle(i)),
                                          oracle(i + 1)), oracle(i + 2)), oracle(i + 3));
            Deleted(w, m, id, false)
  {
    DeleteRest(s, w, id, oracle(i), oracle(i + 1));
    var next := Step(s, Step(s, Moment(w, Deleting(DeleteCall(id), Answering)), oracle(i)), oracle(i + 1));
    Rests(s, next, oracle(i + 2));
    Rests(s, next, oracle(i + 3));
    hide Step;
  }

  lemma DeletedSame(w: World, w': World, id: int)
    requires SameHoldings(w, w') && id in w.machines
    ensures forall m, seeded :: Deleted(w', m, id, seeded) == Deleted(w, m, id, seeded)
  {
  }

  /** Over a client that serves its calls `Delete` does what it says: a stopped VM goes with its seed and nothing else
      changes, an unknown ID is success, one that is up is active, and everything else is refused untouched. */
  lemma DeleteExactly(s: Site, before: World, oracle: nat -> Outcome, i: nat, target: string, at: Option<int>)
    requires ListsAll(before, oracle(i)) && AllServed(oracle, i, i + 5) && Designates(before, target, at)
    ensures var m := Ran(s, DeleteOp(target), before, oracle, i, i + 5);
            match LookedUp(s, before, at)
            case Err(e) => Looks(before, m.world) && m.proc == Finished(Plain(if at.None? then Ok(Unit.Unit) else Err(e)))
            case Ok(Item(id, c)) =>
              if !HasState(s, c, "STOPPED") then Looks(before, m.world) && m.proc == Finished(Plain(Err(Active)))
              else id in before.machines && Deleted(before, m, id, HasSeed(c))
  {
    hide Step;
    hide Ran;
    hide Begin;
    assert at.Some? ==> at.value in before.machines;
    hide Designates;
    hide HasState;
    hide HasSeed;
    FiveSteps(s, DeleteOp(target), before, oracle, i);
    DeleteFirst(s, before, oracle(i), target, at);
    LookedAt(s, before, at);
    hide LookedUp;
    var m := Step(s, Moment(before, Begin(DeleteOp(target))), oracle(i));
    if m.proc.Finished? {
      FourRests(s, m, oracle, i + 1);
    } else {
      if m.proc.step.UnhookFirst? {
        DeleteSeeded(s, m.world, m.proc.step.id, oracle, i + 1);
      } else {
        DeleteUnseeded(s, m.world, m.proc.step.id, oracle, i + 1);
      }
      DeletedSame(before, m.world, m.proc.step.id);
    }
    hide Deleted;
  }

  // ----- `RemoveAll` -----

  /** Of the VMs that were there and count, those still there are among the ones to visit, or one was seen up. */
  ghost predicate Awaited(s: Site, before: World, w: World, todo: seq<string>, active: bool) {
    forall id | id in w.machines && Wanted(s, before, id, "") :: PID(id) in todo || active
  }

  ghost predicate SweepAims(s: Site, before: World, w: World, p: Proc) {
    match p
    case SweepList => w.machines == before.machines
    case SweepFind(target, todo, active) => Awaited(s, before, w, [target] + todo, active)
    case Deleting(DeleteFind(target), Sweeping(todo, active)) => Awaited(s, before, w, [target] + todo, active)
    case Deleting(UnhookFirst(n, _), Sweeping(todo, active)) => Awaited(s, before, w, [PID(n)] + todo, active)
    case Deleting(DropFirst(n, _), Sweeping(todo, active)) => Awaited(s, before, w, [PID(n)] + todo, active)
    case Deleting(DeleteCall(n), Sweeping(todo, active)) => Awaited(s, before, w, [PID(n)] + todo, active)
    case Deleting(DeleteCheck(n), Sweeping(todo, active)) => Awaited(s, before, w, [PID(n)] + todo, active)
    case Finished(Plain(r)) => r.Ok? ==> Awaited(s, before, w, [], false)
    case _ => false
  }

  lemma FewerAwaited(s: Site, before: World, w: World, w': World, todo: seq<string>, active: bool)
    requires Awaited(s, before, w, todo, active) && w'.machines.Keys <= w.machines.Keys
    ensures Awaited(s, before, w', todo, active)
  {
    hide Counts;
    hide PID;
  }

  lemma GoneAwaited(s: Site, before: World, w: World, target: string, todo: seq<string>, active: bool)
    requires Awaited(s, before, w, [target] + todo, active) && forall id | id in w.machines :: PID(id) != target
    ensures Awaited(s, before, w, todo, active)
  {
    hide Counts;
    hide PID;
    forall id | id in w.machines && Wanted(s, before, id, "") ensures PID(id) in todo || active {
      assert PID(id) in [target] + todo || active;
    }
  }

  lemma NextAims(s: Site, before: World, w: World, todo: seq<string>, active: bool)
    requires Awaited(s, before, w, todo, active)
    ensures SweepAims(s, before, w, NextSweep(todo, active))
  {
    hide Counts;
    hide PID;
    if todo != [] { assert [todo[0]] + todo[1..] == todo; }
  }

  lemma SweepListAims(s: Site, before: World, w: World, o: Outcome)
    requires w.machines == before.machines
    ensures var (w', r) := Serve(s.p.casing, w, List, o); SweepAims(s, before, w', Resume(s, SweepList, r))
  {
    ListTells(s.p.casing, w, o);
    var (w', r) := Serve(s.p.casing, w, List, o);
    hide Serve;
    hide Itemized;
    if Selected(s, r, "").Ok? {
      assert forall k | 0 <= k < |o.order| :: o.order[k] in w.machines;
      var kept := ListedExactly(s, w, o.order, "");
      ListedAwaited(s, before, w, o.order, kept, r.items);
      hide ListedWell;
      FewerAwaited(s, before, w, w', ProviderIDs(Selected(s, r, "").value), false);
      NextAims(s, before, w', ProviderIDs(Selected(s, r, "").value), false);
    }
    hide Listed;
    hide SweepAims;
    hide Awaited;
    hide NextSweep;
    hide ResumeEarly;
    hide ResumeLate;
    hide ResumeReconcile;
    hide ResumeLook;
    hide ResumeDelete;
    hide ResumeSweep;
  }

  lemma {:induction false} IDsOfInstances(s: Site, items: seq<Item>)
    ensures |Instances(s, items)| == |ProviderIDs(items)| == |items|
    ensures forall k | 0 <= k < |items| :: Instances(s, items)[k].providerID == ProviderIDs(items)[k]
  {
    hide ProviderID;
    if items != [] { IDsOfInstances(s, items[1..]); }
  }

  lemma ListedAwaited(s: Site, before: World, w: World, order: seq<int>, kept: seq<int>, items: seq<Item>)
    requires w.machines == before.machines && Enumerates(order, w.machines.Keys) && Listed(s, items, "").Ok?
    requires ListedWell(s, w, order, "", Instances(s, Listed(s, items, "").value), kept)
    ensures Awaited(s, before, w, ProviderIDs(Listed(s, items, "").value), false)
  {
    var chosen := Listed(s, items, "").value;
    hide Listed;
    IDsOfInstances(s, chosen);
    hide Counts;
    hide Settled;
    hide PID;
    forall id | id in w.machines && Wanted(s, before, id, "") ensures PID(id) in ProviderIDs(chosen) {
      assert id in order && Wanted(s, w, id, "");
      assert id in kept;
      var k :| 0 <= k < |kept| && kept[k] == id;
      assert ProviderIDs(chosen)[k] == PID(id);
    }
  }

  lemma SweepFindAims(s: Site, before: World, w: World, target: string, todo: seq<string>, active: bool, o: Outcome)
    requires Awaited(s, before, w, [target] + todo, active)
    ensures var (w', r) := Serve(s.p.casing, w, List, o); SweepAims(s, before, w', ResumeSweep(s, target, todo, active, r))
  {
    ListTells(s.p.casing, w, o);
    var (w', r) := Serve(s.p.casing, w, List, o);
    hide Serve;
    FewerAwaited(s, before, w, w', [target] + todo, active);
    AnyAwaited(s, before, w', todo);
    NextAims(s, before, w', todo, true);
    hide Awaited;
    hide Found;
    hide NextSweep;
  }

  lemma AnyAwaited(s: Site, before: World, w: World, todo: seq<string>)
    ensures Awaited(s, before, w, todo, true)
  {
    hide Counts;
    hide PID;
  }

  lemma AbsentTarget(s: Site, w: World, o: Outcome, target: string)
    ensures var (w', r) := Serve(s.p.casing, w, List, o);
            w'.machines == w.machines
            && match Found(s, r, target)
               case Err(e) => e == NotFound ==> forall id | id in w.machines :: PID(id) != target
               case Ok(item) => PID(item.id) == target
  {
    ListTells(s.p.casing, w, o);
    FoundTells(s, w, o, target);
    var r := Serve(s.p.casing, w, List, o).1;
    assert forall id :: PID(id) == ProviderID(id);
    if r.Many? {
      FindTells(w, o.order, target);
      assert forall id | id in w.machines :: id in o.order;
    }
    hide Serve;
    hide Itemized;
    hide Sound;
    hide Identified;
    hide Find;
    hide PID;
    hide ProviderID;
  }

  lemma SweepDeleteAims(s: Site, before: World, w: World, step: DeleteStep, todo: seq<string>, active: bool, o: Outcome)
    requires SweepAims(s, before, w, Deleting(step, Sweeping(todo, active)))
    ensures var (w', r) := Serve(s.p.casing, w, DeleteStepCall(step), o);
            SweepAims(s, before, w', ResumeDelete(s, step, Sweeping(todo, active), r))
  {
    var (w', r) := Serve(s.p.casing, w, DeleteStepCall(step), o);
    match step
    case DeleteFind(target) =>
      AbsentTarget(s, w, o, target);
      hide Serve;
      FewerAwaited(s, before, w, w', [target] + todo, active);
      if Found(s, r, target) == Err(NotFound) {
        GoneAwaited(s, before, w', target, todo, active);
        NextAims(s, before, w', todo, active);
      }
      hide Found;
      hide Awaited;
      hide PID;
      hide NextSweep;
    case UnhookFirst(n, _) =>
      OnlyFewer(s, w, DeleteStepCall(step), o);
      hide Serve;
      FewerAwaited(s, before, w, w', [PID(n)] + todo, active);
      hide Awaited;
      hide PID;
      hide NextSweep;
    case DropFirst(n, _) =>
      OnlyFewer(s, w, DeleteStepCall(step), o);
      hide Serve;
      FewerAwaited(s, before, w, w', [PID(n)] + todo, active);
      hide Awaited;
      hide PID;
      hide NextSweep;
    case DeleteCall(n) =>
      OnlyFewer(s, w, DeleteStepCall(step), o);
      hide Serve;
      FewerAwaited(s, before, w, w', [PID(n)] + todo, active);
      hide Awaited;
      hide PID;
      hide NextSweep;
    case DeleteCheck(n) =>
      GetTells(s.p.casing, w, n, o);
      hide Serve;
      FewerAwaited(s, before, w, w', [PID(n)] + todo, active);
      if r == Failed(NotFound) {
        OnlyItself(w', n);
        GoneAwaited(s, before, w', PID(n), todo, active);
        NextAims(s, before, w', todo, active);
      }
      hide Awaited;
      hide PID;
      hide NextSweep;
  }

  lemma OnlyFewer(s: Site, w: World, call: Call, o: Outcome)
    requires call.DetachSeed? || call.DeleteSeed? || call.Delete?
    ensures Serve(s.p.casing, w, call, o).0.machines.Keys <= w.machines.Keys
  {
    hide InState;
  }

  lemma OnlyItself(w: World, n: int)
    requires n !in w.machines
    ensures forall id | id in w.machines :: PID(id) != PID(n)
  {
    forall id | id in w.machines ensures PID(id) != PID(n) {
      if PID(id) == PID(n) { SameProviderID(id, n); }
    }
  }

  lemma SweepStepAims(s: Site, before: World, m: Moment, o: Outcome)
    requires SweepAims(s, before, m.world, m.proc)
    ensures var next := Step(s, m, o); SweepAims(s, before, next.world, next.proc)
  {
    match m.proc
    case SweepList => SweepListAims(s, before, m.world, o);
    case SweepFind(target, todo, active) => SweepFindAims(s, before, m.world, target, todo, active, o);
    case Deleting(step, Sweeping(todo, active)) => SweepDeleteAims(s, before, m.world, step, todo, active, o);
    case Finished(_) =>
    hide Serve;
    hide Awaited;
    hide ResumeSweep;
    hide ResumeDelete;
    hide Selected;
  }

  /** Whatever TrueNAS does and wherever it lies about a deletion: when `RemoveAll` succeeds, none of the manager's VMs
      that were there is left. */
  lemma {:induction false} RemoveAllMeansGone(s: Site, before: World, oracle: nat -> Outcome, i: nat, j: nat)
    requires i <= j
    ensures var m := Ran(s, RemoveAllOp, before, oracle, i, j);
            && SweepAims(s, before, m.world, m.proc)
            && (m.proc == Finished(Plain(Ok(Unit.Unit))) ==>
                  forall id | id in before.machines && Counts(s, before.machines[id], "") :: id !in m.world.machines)
  {
    hide Step;
    hide Counts;
    hide PID;
    if i < j {
      RemoveAllMeansGone(s, before, oracle, i, j - 1);
      SweepStepAims(s, before, Ran(s, RemoveAllOp, before, oracle, i, j - 1), oracle(j - 1));
    }
    var m := Ran(s, RemoveAllOp, before, oracle, i, j);
    hide Ran;
    assert m.proc == Finished(Plain(Ok(Unit.Unit))) ==> Awaited(s, before, m.world, [], false);
  }
}

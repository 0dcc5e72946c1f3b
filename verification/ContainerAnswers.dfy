/** What the answers of `Get`, `List`, `Stop` and `Delete` of the container backend mean over the inventory, with its
    owners, states and fields spelled out. */
module ContainerAnswers {
  import opened Text
  import opened Names
  import opened Provider
  import opened Container
  import opened ContainerSafety
  import opened ContainerCreate
  import opened ContainerFailure
  import opened ContainerRespect

  // ----- in words -----

  function PID(id: int): string {
    "container:" + Decimal(id)
  }

  /** The container carries this manager's owner record, whatever pool and runner it names. */
  predicate Bears(s: Site, c: Container) {
    match c.description
    case None => false
    case Some(owner) =>
      owner == Ownership("semper-supra.garm-container-owner/1", "garm-provider-truenas", s.controllerID, owner.poolID,
                         owner.runnerName, "truenas-container-linux-general")
  }

  predicate HasState(s: Site, c: Container, word: string) {
    s.p.casing.EqualFold(c.state, word)
  }

  /** A container as `Create` leaves it, up or down. */
  predicate Settled(s: Site, c: Container) {
    && !c.autostart && c.idMap == "DEFAULT" && c.capabilities == "DEFAULT" && TrimSpace(c.dataset) != ""
    && c.image.name == "ubuntu:noble:amd64:default" && TrimSpace(c.image.version) != ""
    && (s.p.casing.upper(c.state) == "RUNNING" || s.p.casing.upper(c.state) == "STOPPED")
    && c.init == "/sbin/init" && c.env == map[]
  }

  /** The instance a container is shown as. */
  function Shown(s: Site, id: int, c: Container, poolID: string): Instance {
    Instance(PID(id), c.name, "truenas-system-container", c.image.version, s.p.casing.lower(c.state), poolID)
  }

  lemma IdentifiedBears(s: Site, c: Container)
    ensures Identified(s, c) <==> Bears(s, c)
  {
  }

  lemma SteadySettled(s: Site, c: Container)
    ensures Steady(s.p.casing, c) <==> Settled(s, c)
  {
    hide TrimSpace;
  }

  lemma InstanceShown(s: Site, item: Item, poolID: string)
    ensures ToInstance(s, item, poolID) == Shown(s, item.id, item.container, poolID)
  {
  }

  /** What looking a container up comes to. */
  function Looked(s: Site, id: int, c: Container): Result<Item> {
    if !Bears(s, c) then Err(Foreign) else if !Settled(s, c) then Err(ManagedDrift) else Ok(Item(id, c))
  }

  lemma OwnerLooked(s: Site, id: int, c: Container)
    ensures match Owner(s, c)
            case Err(e) => Looked(s, id, c) == Err(e)
            case Ok(owner) => Looked(s, id, c) == Ok(Item(id, c)) && c.description == Some(owner)
  {
    IdentifiedBears(s, c);
    SteadySettled(s, c);
    hide Bears;
    hide Settled;
    hide Steady;
    assert Identified(s, c) ==> c.description.Some?;
    hide Identified;
  }

  /** Which container of the inventory a provider ID names, if any. */
  predicate Designates(w: World, target: string, at: Option<int>) {
    match at
    case None => forall id | id in w.containers :: PID(id) != target
    case Some(id) => id in w.containers && target == PID(id)
  }

  lemma AlwaysDesignates(w: World, target: string)
    ensures exists at :: Designates(w, target, at)
  {
    if id :| id in w.containers && PID(id) == target {
      assert Designates(w, target, Some(id));
    } else {
      assert Designates(w, target, None);
    }
  }

  function LookedUp(s: Site, w: World, at: Option<int>): Result<Item>
    requires at.Some? ==> at.value in w.containers
  {
    match at
    case None => Err(NotFound)
    case Some(id) => Looked(s, id, w.containers[id])
  }

  // ----- replies -----

  /** The call is answered truthfully, and the listing names every container once. */
  predicate ListsAll(w: World, o: Outcome) {
    Answered(o) && Enumerates(o.order, w.containers.Keys)
  }

  lemma ListReply(casing: CaseMaps, w: World, o: Outcome)
    requires ListsAll(w, o)
    ensures var (w', r) := Serve(casing, w, List, o); w'.containers == w.containers && r == Many(Itemized(w, o.order))
  {
    hide Wipes;
    ItemizedSame(w, Wiped(casing, w, o.wiped), o.order);
    hide Itemized;
  }

  lemma FoundReply(s: Site, w: World, o: Outcome, target: string, at: Option<int>)
    requires ListsAll(w, o) && Designates(w, target, at)
    ensures var (w', r) := Serve(s.p.casing, w, List, o);
            w'.containers == w.containers && Found(s, r, target) == LookedUp(s, w, at)
  {
    ListReply(s.p.casing, w, o);
    FindTells(w, o.order, target);
    hide Serve;
    hide Itemized;
    hide Looked;
    assert forall id :: PID(id) == ProviderID(id);
    assert at.Some? ==> at.value in o.order;
    match Find(Itemized(w, o.order), target)
    case None =>
    case Some(item) =>
      assert item.id in w.containers;
      if at.Some? { SameProviderID(item.id, at.value); }
      OwnerLooked(s, item.id, item.container);
    hide Owner;
    hide PID;
    hide ProviderID;
    hide Find;
  }

  lemma GetReply(casing: CaseMaps, w: World, id: int, o: Outcome)
    requires Answered(o)
    ensures var (w', r) := Serve(casing, w, Get(id), o);
            w'.containers == w.containers && r == if id in w.containers then One(Item(id, w.containers[id])) else Failed(NotFound)
  {
    hide Wipes;
  }

  // ----- `Get` -----

  /** Over a listing answered truthfully: `Get` of an unknown ID is not found, of a foreign container foreign, of one that
      has drifted drift, and otherwise the container field by field; nothing changes. */
  lemma GetExactly(s: Site, before: World, o: Outcome, target: string, at: Option<int>)
    requires ListsAll(before, o) && Designates(before, target, at)
    ensures var m := Step(s, Moment(before, Begin(GetOp(target))), o);
            && m.world.containers == before.containers
            && m.proc == Finished(Single(match LookedUp(s, before, at)
                                         case Err(e) => Err(e)
                                         case Ok(item) =>
                                           Ok(Shown(s, item.id, item.container, item.container.description.value.poolID))))
  {
    FoundReply(s, before, o, target, at);
    var r := Serve(s.p.casing, before, List, o).1;
    hide Serve;
    hide Found;
    hide Settled;
    if LookedUp(s, before, at).Ok? {
      var item := LookedUp(s, before, at).value;
      InstanceShown(s, item, PoolOf(item.container));
    }
    hide ToInstance;
    hide Shown;
    hide Designates;
  }

  // ----- `List` -----

  /** A container `List` looks at: of this manager, and of the pool asked for, if one is. */
  predicate Counts(s: Site, c: Container, poolID: string) {
    match c.description
    case None => false
    case Some(owner) =>
      && owner.controllerID == s.controllerID && owner.managedBy == "garm-provider-truenas"
      && poolID in {"", owner.poolID}
  }

  lemma ClaimedCounts(s: Site, c: Container, poolID: string)
    ensures Claimed(s, c, poolID) <==> Counts(s, c, poolID)
  {
  }

  /** The instance a listed container is shown as. */
  function Picture(s: Site, id: int, c: Container): Instance {
    Shown(s, id, c, if c.description.Some? then c.description.value.poolID else "")
  }

  predicate Wanted(s: Site, w: World, id: int, poolID: string) {
    id in w.containers && Counts(s, w.containers[id], poolID)
  }

  predicate Distinct(ids: seq<int>) {
    forall j, k | 0 <= j < k < |ids| :: ids[j] != ids[k]
  }

  /** The items are exactly the containers of `ids` that count, each once and settled, shown in order. */
  ghost predicate ListedWell(s: Site, w: World, ids: seq<int>, poolID: string, shown: seq<Instance>, kept: seq<int>) {
    && Distinct(kept) && (forall id :: id in kept <==> id in ids && Wanted(s, w, id, poolID))
    && |shown| == |kept| && (forall k | 0 <= k < |kept| :: kept[k] in w.containers && shown[k] == Picture(s, kept[k], w.containers[kept[k]]))
    && forall id | id in kept :: Settled(s, w.containers[id])
  }

  ghost predicate Drifted(s: Site, w: World, id: int, poolID: string) {
    Wanted(s, w, id, poolID) && !Settled(s, w.containers[id])
  }

  lemma NoneListed(s: Site, w: World, poolID: string)
    ensures ListedWell(s, w, [], poolID, [], [])
  {
  }

  lemma OneMoreListed(s: Site, w: World, ids: seq<int>, poolID: string, shown: seq<Instance>, kept: seq<int>)
    requires ids != [] && Distinct(ids) && ids[0] in w.containers && ListedWell(s, w, ids[1..], poolID, shown, kept)
    ensures !Wanted(s, w, ids[0], poolID) ==> ListedWell(s, w, ids, poolID, shown, kept)
    ensures Wanted(s, w, ids[0], poolID) && Settled(s, w.containers[ids[0]]) ==>
              ListedWell(s, w, ids, poolID, [Picture(s, ids[0], w.containers[ids[0]])] + shown, [ids[0]] + kept)
  {
    hide Picture;
    hide Counts;
    hide Settled;
    assert ids == [ids[0]] + ids[1..] && ids[0] !in ids[1..];
  }

  lemma ItemPicture(s: Site, item: Item)
    ensures ToInstance(s, item, PoolOf(item.container)) == Picture(s, item.id, item.container)
  {
    InstanceShown(s, item, PoolOf(item.container));
  }

  lemma {:induction false} ListedExactly(s: Site, w: World, ids: seq<int>, poolID: string) returns (kept: seq<int>)
    requires Distinct(ids) && forall k | 0 <= k < |ids| :: ids[k] in w.containers
    ensures match Listed(s, Itemized(w, ids), poolID)
            case Err(e) => e == ManagedDrift && exists id | id in ids :: Drifted(s, w, id, poolID)
            case Ok(items) => ListedWell(s, w, ids, poolID, Instances(s, items), kept)
  {
    kept := [];
    if ids == [] { NoneListed(s, w, poolID); return; }
    hide Steady;
    hide Claimed;
    hide ToInstance;
    hide Picture;
    var c := w.containers[ids[0]];
    ClaimedCounts(s, c, poolID);
    SteadySettled(s, c);
    hide Counts;
    hide Settled;
    assert forall k | 0 <= k < |ids[1..]| :: ids[1..][k] == ids[k + 1];
    var rest := ListedExactly(s, w, ids[1..], poolID);
    assert Itemized(w, ids)[1..] == Itemized(w, ids[1..]);
    var listed := Listed(s, Itemized(w, ids[1..]), poolID);
    if listed.Ok? {
      OneMoreListed(s, w, ids, poolID, Instances(s, listed.value), rest);
      ItemPicture(s, Item(ids[0], c));
      assert ([Item(ids[0], c)] + listed.value)[1..] == listed.value;
      kept := if Claimed(s, c, poolID) then [ids[0]] + rest else rest;
    }
    hide ListedWell;
    assert Wanted(s, w, ids[0], poolID) == Claimed(s, c, poolID);
    assert Drifted(s, w, ids[0], poolID) == (Claimed(s, c, poolID) && !Steady(s.p.casing, c));
    hide Wanted;
    hide Drifted;
    assert ids == [ids[0]] + ids[1..];
  }

  /** `List` over a listing answered truthfully fails with drift exactly if a container that counts has drifted, and
      otherwise shows each of those that count once, field by field; nothing changes. */
  lemma ListExactly(s: Site, before: World, o: Outcome, poolID: string)
    requires ListsAll(before, o)
    ensures var m := Step(s, Moment(before, Begin(ListOp(poolID))), o);
            && m.world.containers == before.containers && m.proc.Finished? && m.proc.answer.Several?
            && match m.proc.answer.instances
               case Err(e) => e == ManagedDrift && exists id :: Drifted(s, before, id, poolID)
               case Ok(shown) =>
                 && (forall id :: !Drifted(s, before, id, poolID))
                 && (set i | i in shown) == (set id | id in before.containers && Wanted(s, before, id, poolID)
                                                    :: Picture(s, id, before.containers[id]))
                 && forall j, k | 0 <= j < k < |shown| :: shown[j].providerID != shown[k].providerID
  {
    ListReply(s.p.casing, before, o);
    assert forall k | 0 <= k < |o.order| :: o.order[k] in before.containers;
    var kept := ListedExactly(s, before, o.order, poolID);
    hide Serve;
    hide Itemized;
    var listed := Listed(s, Itemized(before, o.order), poolID);
    if listed.Ok? {
      WellListed(s, before, o.order, poolID, Instances(s, listed.value), kept);
    }
    hide Listed;
    hide Picture;
    hide Wanted;
    hide Drifted;
    hide ListedWell;
    hide Enumerates;
  }

  lemma WellListed(s: Site, w: World, ids: seq<int>, poolID: string, shown: seq<Instance>, kept: seq<int>)
    requires ListedWell(s, w, ids, poolID, shown, kept) && Enumerates(ids, w.containers.Keys)
    ensures forall id :: !Drifted(s, w, id, poolID)
    ensures (set i | i in shown) == set id | id in w.containers && Wanted(s, w, id, poolID) :: Picture(s, id, w.containers[id])
    ensures forall j, k | 0 <= j < k < |shown| :: shown[j].providerID != shown[k].providerID
  {
    hide Counts;
    hide Settled;
    forall j, k | 0 <= j < k < |shown| ensures shown[j].providerID != shown[k].providerID {
      if ProviderID(kept[j]) == ProviderID(kept[k]) { SameProviderID(kept[j], kept[k]); }
    }
    hide PID;
    hide Picture;
    forall id | id in w.containers && Wanted(s, w, id, poolID)
      ensures Picture(s, id, w.containers[id]) in shown
    {
      assert id in kept;
      var k :| 0 <= k < |kept| && kept[k] == id;
      assert shown[k] == Picture(s, id, w.containers[id]);
    }
    forall i | i in shown
      ensures exists id | id in w.containers && Wanted(s, w, id, poolID) :: i == Picture(s, id, w.containers[id])
    {
      var k :| 0 <= k < |shown| && shown[k] == i;
      assert kept[k] in kept;
    }
  }

  // ----- `Stop` -----

  function Ran(s: Site, op: Op, before: World, oracle: nat -> Outcome, i: nat, j: nat): Moment
    requires i <= j
  {
    Run(s, Moment(before, Begin(op)), oracle, i, j)
  }

  /** How far `Stop` has come with container `id`. */
  predicate StopAims(s: Site, w: World, p: Proc, id: int) {
    match p
    case Look(StopFind(target)) => target == PID(id)
    case Look(StopCall(n)) => n == id && id in w.containers && Bears(s, w.containers[id])
    case Look(StopCheck(n)) => n == id && id in w.containers && Bears(s, w.containers[id])
    case Finished(Plain(r)) =>
      r.Ok? ==> id in w.containers && Bears(s, w.containers[id]) && HasState(s, w.containers[id], "STOPPED")
    case _ => false
  }

  lemma StopFindAims(s: Site, w: World, id: int, o: Outcome)
    ensures var (w', r) := Serve(s.p.casing, w, List, o); StopAims(s, w', ResumeLook(s, StopFind(PID(id)), r), id)
  {
    FoundTells(s, w, o, PID(id));
    var r := Serve(s.p.casing, w, List, o).1;
    hide Serve;
    assert PID(id) == ProviderID(id);
    if Found(s, r, PID(id)).Ok? {
      var item := Found(s, r, PID(id)).value;
      SameProviderID(item.id, id);
      OwnerLooked(s, item.id, item.container);
    }
    hide Found;
    hide PID;
    hide ProviderID;
    hide Owner;
    hide Settled;
    hide Bears;
  }

  lemma StoppingAims(s: Site, w: World, step: LookStep, id: int, o: Outcome)
    requires step.StopCall? || step.StopCheck?
    requires StopAims(s, w, Look(step), id)
    ensures var (w', r) := Serve(s.p.casing, w, LookCall(step), o); StopAims(s, w', ResumeLook(s, step, r), id)
  {
    GetTells(s.p.casing, w, id, o);
    PowerTells(s.p.casing, w, id, Stop(id, false), o);
    hide Serve;
  }

  lemma StopStepAims(s: Site, m: Moment, id: int, o: Outcome)
    requires StopAims(s, m.world, m.proc, id)
    ensures var next := Step(s, m, o); StopAims(s, next.world, next.proc, id)
  {
    if m.proc.Finished? { return; }
    var step := m.proc.look;
    if step.StopFind? { StopFindAims(s, m.world, id, o); } else { StoppingAims(s, m.world, step, id, o); }
    hide Serve;
    hide PID;
    hide ResumeLook;
  }

  /** Whatever TrueNAS does and wherever it lies about the stopping: when `Stop` succeeds, the container it names is there,
      is this manager's, and is stopped. */
  lemma {:induction false} StopMeansStopped(s: Site, id: int, before: World, oracle: nat -> Outcome, i: nat, j: nat)
    requires i <= j
    ensures var m := Ran(s, StopOp("container:" + Decimal(id)), before, oracle, i, j);
            && StopAims(s, m.world, m.proc, id)
            && (m.proc == Finished(Plain(Ok(Unit.Unit))) ==>
                  id in m.world.containers && Bears(s, m.world.containers[id])
                  && HasState(s, m.world.containers[id], "STOPPED"))
  {
    hide Step;
    if i < j {
      StopMeansStopped(s, id, before, oracle, i, j - 1);
      StopStepAims(s, Ran(s, StopOp("container:" + Decimal(id)), before, oracle, i, j - 1), id, oracle(j - 1));
    }
  }

  lemma ThreeSteps(s: Site, op: Op, before: World, oracle: nat -> Outcome, i: nat)
    ensures Ran(s, op, before, oracle, i, i + 3)
         == Step(s, Step(s, Step(s, Moment(before, Begin(op)), oracle(i)), oracle(i + 1)), oracle(i + 2))
  {
    hide Step;
    hide Begin;
    assert Ran(s, op, before, oracle, i, i + 1) == Step(s, Ran(s, op, before, oracle, i, i), oracle(i));
    assert Ran(s, op, before, oracle, i, i + 2) == Step(s, Ran(s, op, before, oracle, i, i + 1), oracle(i + 1));
  }

  lemma Rests(s: Site, m: Moment, o: Outcome)
    requires m.proc.Finished?
    ensures Step(s, m, o) == m
  {
  }

  lemma StopFirst(s: Site, before: World, o: Outcome, target: string, at: Option<int>)
    requires ListsAll(before, o) && Designates(before, target, at)
    ensures var m := Step(s, Moment(before, Begin(StopOp(target))), o);
            && m.world.containers == before.containers
            && m.proc == match LookedUp(s, before, at)
                         case Err(e) => Finished(Plain(Err(e)))
                         case Ok(item) =>
                           if HasState(s, item.container, "STOPPED") then Finished(Plain(Ok(Unit.Unit)))
                           else if HasState(s, item.container, "RUNNING") then Look(StopCall(item.id))
                           else Finished(Plain(Err(UnsafeOperation)))
  {
    FoundReply(s, before, o, target, at);
    hide Serve;
    hide Found;
    hide LookedUp;
    hide Designates;
  }

  lemma StopRest(s: Site, w: World, id: int, stop: Outcome, get: Outcome)
    requires id in w.containers && stop.fate == Served && Answered(get)
    ensures var stopped := w.containers[id].(state := stop.state);
            var m := Step(s, Step(s, Moment(w, Look(StopCall(id))), stop), get);
            && m.world.containers == w.containers[id := stopped]
            && m.proc == Finished(Plain(if HasState(s, stopped, "STOPPED") then Ok(Unit.Unit) else Err(ManagedDrift)))
  {
    PowerTells(s.p.casing, w, id, Stop(id, false), stop);
    var next := Step(s, Moment(w, Look(StopCall(id))), stop);
    assert next.proc == Look(StopCheck(id)) by { hide Serve; }
    GetReply(s.p.casing, next.world, id, get);
    hide Serve;
  }

  /** Over a client that serves its calls `Stop` does what it says: a container already stopped is left alone, a running one
      is told to stop and reported stopped or drifted as TrueNAS left it, and everything else is refused untouched. */
  lemma StopExactly(s: Site, before: World, oracle: nat -> Outcome, i: nat, target: string, at: Option<int>)
    requires ListsAll(before, oracle(i)) && oracle(i + 1).fate == Served && Answered(oracle(i + 2))
    requires Designates(before, target, at)
    ensures var m := Ran(s, StopOp(target), before, oracle, i, i + 3);
            match LookedUp(s, before, at)
            case Err(e) => m.world.containers == before.containers && m.proc == Finished(Plain(Err(e)))
            case Ok(Item(id, c)) =>
              if HasState(s, c, "STOPPED") || !HasState(s, c, "RUNNING")
              then && m.world.containers == before.containers
                   && m.proc == Finished(Plain(if HasState(s, c, "STOPPED") then Ok(Unit.Unit) else Err(UnsafeOperation)))
              else var left := c.(state := oracle(i + 1).state);
                   && m.world.containers == before.containers[id := left]
                   && m.proc == Finished(Plain(if HasState(s, left, "STOPPED") then Ok(Unit.Unit) else Err(ManagedDrift)))
  {
    assert at.Some? ==> at.value in before.containers;
    hide Step;
    hide Ran;
    hide Begin;
    hide Designates;
    hide HasState;
    ThreeSteps(s, StopOp(target), before, oracle, i);
    StopFirst(s, before, oracle(i), target, at);
    LookedAt(s, before, at);
    hide LookedUp;
    var m := Step(s, Moment(before, Begin(StopOp(target))), oracle(i));
    if m.proc.Finished? {
      Rests(s, m, oracle(i + 1));
      Rests(s, m, oracle(i + 2));
    } else {
      StopRest(s, m.world, m.proc.look.id, oracle(i + 1), oracle(i + 2));
    }
  }

  lemma LookedAt(s: Site, w: World, at: Option<int>)
    requires at.Some? ==> at.value in w.containers
    ensures LookedUp(s, w, at).Ok? ==>
              var item := LookedUp(s, w, at).value;
              at == Some(item.id) && item.id in w.containers && item.container == w.containers[item.id]
  {
    hide Bears;
    hide Settled;
  }

  // ----- `Delete` -----

  predicate DeleteAims(w: World, p: Proc, id: int) {
    match p
    case Deleting(DeleteFind(target), Answering) => target == PID(id)
    case Deleting(DeleteCall(n), Answering) => n == id
    case Deleting(DeleteCheck(n), Answering) => n == id
    case Finished(Plain(r)) => r.Ok? ==> id !in w.containers
    case _ => false
  }

  lemma DeleteFindAims(s: Site, w: World, id: int, o: Outcome)
    ensures var (w', r) := Serve(s.p.casing, w, List, o);
            DeleteAims(w', ResumeDelete(s, DeleteFind(PID(id)), Answering, r), id)
  {
    ListTells(s.p.casing, w, o);
    FoundTells(s, w, o, PID(id));
    var r := Serve(s.p.casing, w, List, o).1;
    assert PID(id) == ProviderID(id);
    if r.Many? {
      FindTells(w, o.order, PID(id));
      assert id in w.containers ==> id in o.order;
    }
    hide Serve;
    hide Itemized;
    hide Steady;
    hide Identified;
    if Found(s, r, PID(id)).Ok? { SameProviderID(Found(s, r, PID(id)).value.id, id); }
    hide Find;
    hide PID;
    hide ProviderID;
    hide Enumerates;
  }

  lemma DeletingAims(s: Site, w: World, step: DeleteStep, id: int, o: Outcome)
    requires !step.DeleteFind? && DeleteAims(w, Deleting(step, Answering), id)
    ensures var (w', r) := Serve(s.p.casing, w, DeleteStepCall(step), o);
            DeleteAims(w', ResumeDelete(s, step, Answering, r), id)
  {
    GetTells(s.p.casing, w, id, o);
    hide Serve;
  }

  lemma DeleteStepAims(s: Site, m: Moment, id: int, o: Outcome)
    requires DeleteAims(m.world, m.proc, id)
    ensures var next := Step(s, m, o); DeleteAims(next.world, next.proc, id)
  {
    if m.proc.Finished? { return; }
    var step := m.proc.step;
    if step.DeleteFind? { DeleteFindAims(s, m.world, id, o); } else { DeletingAims(s, m.world, step, id, o); }
    hide Serve;
    hide PID;
    hide ResumeDelete;
  }

  /** Whatever TrueNAS does and wherever it lies about the deletion: when `Delete` succeeds, no container of that ID is
      left. */
  lemma {:induction false} DeleteMeansGone(s: Site, id: int, before: World, oracle: nat -> Outcome, i: nat, j: nat)
    requires i <= j
    ensures var m := Ran(s, DeleteOp("container:" + Decimal(id)), before, oracle, i, j);
            && DeleteAims(m.world, m.proc, id)
            && (m.proc == Finished(Plain(Ok(Unit.Unit))) ==> id !in m.world.containers)
  {
    hide Step;
    if i < j {
      DeleteMeansGone(s, id, before, oracle, i, j - 1);
      DeleteStepAims(s, Ran(s, DeleteOp("container:" + Decimal(id)), before, oracle, i, j - 1), id, oracle(j - 1));
    }
  }

  lemma DeleteFirst(s: Site, before: World, o: Outcome, target: string, at: Option<int>)
    requires ListsAll(before, o) && Designates(before, target, at)
    ensures var m := Step(s, Moment(before, Begin(DeleteOp(target))), o);
            && m.world.containers == before.containers
            && m.proc == match LookedUp(s, before, at)
                         case Err(e) => Finished(Plain(if at.None? then Ok(Unit.Unit) else Err(e)))
                         case Ok(item) =>
                           if HasState(s, item.container, "STOPPED") then Deleting(DeleteCall(item.id), Answering)
                           else Finished(Plain(Err(Active)))
  {
    FoundReply(s, before, o, target, at);
    hide Serve;
    hide Found;
    hide Bears;
    hide Settled;
    hide Designates;
  }

  lemma DeleteRest(s: Site, w: World, id: int, delete: Outcome, get: Outcome)
    requires id in w.containers && delete.fate == Served && Answered(get)
    ensures var m := Step(s, Step(s, Moment(w, Deleting(DeleteCall(id), Answering)), delete), get);
            m.world.containers == w.containers - {id} && m.proc == Finished(Plain(Ok(Unit.Unit)))
  {
    DeleteTells(s.p.casing, w, id, delete);
    var next := Step(s, Moment(w, Deleting(DeleteCall(id), Answering)), delete);
    assert next.proc == Deleting(DeleteCheck(id), Answering) by { hide Serve; }
    GetReply(s.p.casing, next.world, id, get);
    hide Serve;
  }

  /** Over a client that serves its calls `Delete` does what it says: a stopped container goes and nothing else changes, an
      unknown ID is success, one that is up is active, and everything else is refused untouched. */
  lemma DeleteExactly(s: Site, before: World, oracle: nat -> Outcome, i: nat, target: string, at: Option<int>)
    requires ListsAll(before, oracle(i)) && oracle(i + 1).fate == Served && Answered(oracle(i + 2))
    requires Designates(before, target, at)
    ensures var m := Ran(s, DeleteOp(target), before, oracle, i, i + 3);
            match LookedUp(s, before, at)
            case Err(e) =>
              && m.world.containers == before.containers
              && m.proc == Finished(Plain(if at.None? then Ok(Unit.Unit) else Err(e)))
            case Ok(Item(id, c)) =>
              if HasState(s, c, "STOPPED")
              then m.world.containers == before.containers - {id} && m.proc == Finished(Plain(Ok(Unit.Unit)))
              else m.world.containers == before.containers && m.proc == Finished(Plain(Err(Active)))
  {
    assert at.Some? ==> at.value in before.containers;
    hide Step;
    hide Ran;
    hide Begin;
    hide Designates;
    hide HasState;
    ThreeSteps(s, DeleteOp(target), before, oracle, i);
    DeleteFirst(s, before, oracle(i), target, at);
    LookedAt(s, before, at);
    hide LookedUp;
    var m := Step(s, Moment(before, Begin(DeleteOp(target))), oracle(i));
    if m.proc.Finished? {
      Rests(s, m, oracle(i + 1));
      Rests(s, m, oracle(i + 2));
    } else {
      DeleteRest(s, m.world, m.proc.step.id, oracle(i + 1), oracle(i + 2));
    }
  }

  // ----- `RemoveAll` -----

  /** Of the containers that were there and count, those still there are among the ones to visit, or one was seen up. */
  ghost predicate Awaited(s: Site, before: World, w: World, todo: seq<string>, active: bool) {
    forall id | id in w.containers && Wanted(s, before, id, "") :: PID(id) in todo || active
  }

  ghost predicate SweepAims(s: Site, before: World, w: World, p: Proc) {
    match p
    case SweepList => w.containers == before.containers
    case SweepFind(target, todo, active) => Awaited(s, before, w, [target] + todo, active)
    case Deleting(DeleteFind(target), Sweeping(todo, active)) => Awaited(s, before, w, [target] + todo, active)
    case Deleting(DeleteCall(n), Sweeping(todo, active)) => Awaited(s, before, w, [PID(n)] + todo, active)
    case Deleting(DeleteCheck(n), Sweeping(todo, active)) => Awaited(s, before, w, [PID(n)] + todo, active)
    case Finished(Plain(r)) => r.Ok? ==> Awaited(s, before, w, [], false)
    case _ => false
  }

  lemma FewerAwaited(s: Site, before: World, w: World, w': World, todo: seq<string>, active: bool)
    requires Awaited(s, before, w, todo, active) && w'.containers.Keys <= w.containers.Keys
    ensures Awaited(s, before, w', todo, active)
  {
    hide Counts;
    hide PID;
  }

  lemma GoneAwaited(s: Site, before: World, w: World, target: string, todo: seq<string>, active: bool)
    requires Awaited(s, before, w, [target] + todo, active) && forall id | id in w.containers :: PID(id) != target
    ensures Awaited(s, before, w, todo, active)
  {
    hide Counts;
    hide PID;
    forall id | id in w.containers && Wanted(s, before, id, "") ensures PID(id) in todo || active {
      assert PID(id) in [target] + todo || active;
    }
  }

  lemma NextAims(s: Site, before: World, w: World, todo: seq<string>, active: bool)
    requires Awaited(s, before, w, todo, active)
    ensures SweepAims(s, before, w, NextSweep(todo, active))
  {
    hide Counts;
    hide PID;
    if todo != [] { assert [todo[0]] + todo[1..] == todo; }
  }

  lemma SweepListAims(s: Site, before: World, w: World, o: Outcome)
    requires w.containers == before.containers
    ensures var (w', r) := Serve(s.p.casing, w, List, o); SweepAims(s, before, w', Resume(s, SweepList, r))
  {
    ListTells(s.p.casing, w, o);
    var (w', r) := Serve(s.p.casing, w, List, o);
    hide Serve;
    hide Itemized;
    if Selected(s, r, "").Ok? {
      assert forall k | 0 <= k < |o.order| :: o.order[k] in w.containers;
      var kept := ListedExactly(s, w, o.order, "");
      ListedAwaited(s, before, w, o.order, kept, r.items);
      hide ListedWell;
      FewerAwaited(s, before, w, w', ProviderIDs(Selected(s, r, "").value), false);
      NextAims(s, before, w', ProviderIDs(Selected(s, r, "").value), false);
    }
    hide Listed;
    hide SweepAims;
    hide Awaited;
    hide NextSweep;
    hide ResumeEarly;
    hide ResumeLate;
    hide ResumeCleanup;
    hide ResumeLook;
    hide ResumeDelete;
    hide ResumeSweep;
  }

  lemma {:induction false} IDsOfInstances(s: Site, items: seq<Item>)
    ensures |Instances(s, items)| == |ProviderIDs(items)| == |items|
    ensures forall k | 0 <= k < |items| :: Instances(s, items)[k].providerID == ProviderIDs(items)[k]
  {
    hide ProviderID;
    if items != [] { IDsOfInstances(s, items[1..]); }
  }

  lemma ListedAwaited(s: Site, before: World, w: World, order: seq<int>, kept: seq<int>, items: seq<Item>)
    requires w.containers == before.containers && Enumerates(order, w.containers.Keys) && Listed(s, items, "").Ok?
    requires ListedWell(s, w, order, "", Instances(s, Listed(s, items, "").value), kept)
    ensures Awaited(s, before, w, ProviderIDs(Listed(s, items, "").value), false)
  {
    var chosen := Listed(s, items, "").value;
    hide Listed;
    IDsOfInstances(s, chosen);
    hide Counts;
    hide Settled;
    hide PID;
    forall id | id in w.containers && Wanted(s, before, id, "") ensures PID(id) in ProviderIDs(chosen) {
      assert id in order && Wanted(s, w, id, "");
      assert id in kept;
      var k :| 0 <= k < |kept| && kept[k] == id;
      assert ProviderIDs(chosen)[k] == PID(id);
    }
  }

  lemma SweepFindAims(s: Site, before: World, w: World, target: string, todo: seq<string>, active: bool, o: Outcome)
    requires Awaited(s, before, w, [target] + todo, active)
    ensures var (w', r) := Serve(s.p.casing, w, List, o); SweepAims(s, before, w', ResumeSweep(s, target, todo, active, r))
  {
    ListTells(s.p.casing, w, o);
    var (w', r) := Serve(s.p.casing, w, List, o);
    hide Serve;
    FewerAwaited(s, before, w, w', [target] + todo, active);
    AnyAwaited(s, before, w', todo);
    NextAims(s, before, w', todo, true);
    hide Awaited;
    hide Found;
    hide NextSweep;
  }

  lemma AnyAwaited(s: Site, before: World, w: World, todo: seq<string>)
    ensures Awaited(s, before, w, todo, true)
  {
    hide Counts;
    hide PID;
  }

  lemma AbsentTarget(s: Site, w: World, o: Outcome, target: string)
    ensures var (w', r) := Serve(s.p.casing, w, List, o);
            w'.containers == w.containers
            && match Found(s, r, target)
               case Err(e) => e == NotFound ==> forall id | id in w.containers :: PID(id) != target
               case Ok(item) => PID(item.id) == target
  {
    ListTells(s.p.casing, w, o);
    FoundTells(s, w, o, target);
    var r := Serve(s.p.casing, w, List, o).1;
    assert forall id :: PID(id) == ProviderID(id);
    if r.Many? {
      FindTells(w, o.order, target);
      assert forall id | id in w.containers :: id in o.order;
    }
    hide Serve;
    hide Itemized;
    hide Steady;
    hide Identified;
    hide Find;
    hide PID;
    hide ProviderID;
  }

  lemma SweepDeleteAims(s: Site, before: World, w: World, step: DeleteStep, todo: seq<string>, active: bool, o: Outcome)
    requires SweepAims(s, before, w, Deleting(step, Sweeping(todo, active)))
    ensures var (w', r) := Serve(s.p.casing, w, DeleteStepCall(step), o);
            SweepAims(s, before, w', ResumeDelete(s, step, Sweeping(todo, active), r))
  {
    var (w', r) := Serve(s.p.casing, w, DeleteStepCall(step), o);
    match step
    case DeleteFind(target) =>
      AbsentTarget(s, w, o, target);
      hide Serve;
      FewerAwaited(s, before, w, w', [target] + todo, active);
      if Found(s, r, target) == Err(NotFound) {
        GoneAwaited(s, before, w', target, todo, active);
        NextAims(s, before, w', todo, active);
      }
      hide Found;
      hide Awaited;
      hide PID;
      hide NextSweep;
    case DeleteCall(n) =>
      OnlyFewer(s, w, n, o);
      hide Serve;
      FewerAwaited(s, before, w, w', [PID(n)] + todo, active);
      hide Awaited;
      hide PID;
      hide NextSweep;
    case DeleteCheck(n) =>
      GetTells(s.p.casing, w, n, o);
      hide Serve;
      FewerAwaited(s, before, w, w', [PID(n)] + todo, active);
      if r == Failed(NotFound) {
        OnlyItself(w', n);
        GoneAwaited(s, before, w', PID(n), todo, active);
        NextAims(s, before, w', todo, active);
      }
      hide Awaited;
      hide PID;
      hide NextSweep;
  }

  lemma OnlyFewer(s: Site, w: World, n: int, o: Outcome)
    ensures Serve(s.p.casing, w, Delete(n), o).0.containers.Keys <= w.containers.Keys
  {
    hide Wipes;
  }

  lemma OnlyItself(w: World, n: int)
    requires n !in w.containers
    ensures forall id | id in w.containers :: PID(id) != PID(n)
  {
    forall id | id in w.containers ensures PID(id) != PID(n) {
      if PID(id) == PID(n) { SameProviderID(id, n); }
    }
  }

  lemma SweepStepAims(s: Site, before: World, m: Moment, o: Outcome)
    requires SweepAims(s, before, m.world, m.proc)
    ensures var next := Step(s, m, o); SweepAims(s, before, next.world, next.proc)
  {
    match m.proc
    case SweepList => SweepListAims(s, before, m.world, o);
    case SweepFind(target, todo, active) => SweepFindAims(s, before, m.world, target, todo, active, o);
    case Deleting(step, Sweeping(todo, active)) => SweepDeleteAims(s, before, m.world, step, todo, active, o);
    case Finished(_) =>
    hide Serve;
    hide Awaited;
    hide ResumeSweep;
    hide ResumeDelete;
    hide Selected;
  }

  /** Whatever TrueNAS does and wherever it lies about a deletion: when `RemoveAll` succeeds, none of the manager's containers
      that were there is left. */
  lemma {:induction false} RemoveAllMeansGone(s: Site, before: World, oracle: nat -> Outcome, i: nat, j: nat)
    requires i <= j
    ensures var m := Ran(s, RemoveAllOp, before, oracle, i, j);
            && SweepAims(s, before, m.world, m.proc)
            && (m.proc == Finished(Plain(Ok(Unit.Unit))) ==>
                  forall id | id in before.containers && Counts(s, before.containers[id], "") :: id !in m.world.containers)
  {
    hide Step;
    hide Counts;
    hide PID;
    if i < j {
      RemoveAllMeansGone(s, before, oracle, i, j - 1);
      SweepStepAims(s, before, Ran(s, RemoveAllOp, before, oracle, i, j - 1), oracle(j - 1));
    }
    var m := Ran(s, RemoveAllOp, before, oracle, i, j);
    hide Ran;
    assert m.proc == Finished(Plain(Ok(Unit.Unit))) ==> Awaited(s, before, m.world, [], false);
  }
}

/** The VM manager as it runs: methods that change the client's world call by call, each proved to follow the
    step-by-step account of its operation from the first call to the answer. */
module VmManager {
  import opened Text
  import opened Names
  import opened Provider
  import opened CloudInit
  import opened Vm

  /** The search of `findOwned` and `Get`. */
  method FindItem(items: seq<Item>, providerID: string) returns (r: Option<Item>)
    ensures r == Find(items, providerID)
  {
    hide ProviderID;
    for k := 0 to |items|
      invariant Find(items, providerID) == Find(items[k..], providerID)
    {
      assert items[k..][0] == items[k] && items[k..][1..] == items[k + 1..];
      if ProviderID(items[k].id) == providerID { return Some(items[k]); }
    }
    r := None;
  }

  /** The loop of `List`. */
  method Filter(site: Site, items: seq<Item>, poolID: string) returns (r: Result<seq<Instance>>)
    ensures r == match Listed(site, items, poolID) case Err(e) => Err(e) case Ok(kept) => Ok(Instances(site, kept))
  {
    hide Claimed;
    hide Sound;
    hide ToInstance;
    var out: seq<Instance> := [];
    ghost var kept: seq<Item> := [];
    PrefixedNone(Listed(site, items, poolID));
    for k := 0 to |items|
      invariant out == Instances(site, kept)
      invariant Listed(site, items, poolID) == Prefixed(kept, Listed(site, items[k..], poolID))
    {
      var item := items[k];
      assert items[k..][0] == item && items[k..][1..] == items[k + 1..];
      if Claimed(site, item.machine, poolID) {
        if !Sound(site.p.casing, item.machine) { return Err(ManagedDrift); }
        InstancesAppend(site, kept, item);
        PrefixedOnce(kept, item, Listed(site, items[k + 1..], poolID));
        out := out + [ToInstance(site, item, PoolOf(item.machine))];
        kept := kept + [item];
      }
    }
    assert kept + [] == kept;
    r := Ok(out);
  }

  lemma {:induction false} InstancesAppend(s: Site, kept: seq<Item>, item: Item)
    ensures Instances(s, kept + [item]) == Instances(s, kept) + [ToInstance(s, item, PoolOf(item.machine))]
  {
    hide ToInstance;
    if kept == [] {
      assert kept + [item] == [item];
    } else {
      InstancesAppend(s, kept[1..], item);
      assert (kept + [item])[1..] == kept[1..] + [item];
    }
  }

  /** The client: what TrueNAS holds, and what it will do with each coming call. */
  class Client {
    const casing: CaseMaps
    const oracle: nat -> Outcome
    var world: World
    var clock: nat

    constructor (casing: CaseMaps, oracle: nat -> Outcome, world: World)
      ensures this.casing == casing && this.oracle == oracle && this.world == world && clock == 0
    {
      this.casing, this.oracle, this.world, clock := casing, oracle, world, 0;
    }

    method Do(call: Call) returns (reply: Reply)
      modifies this
      ensures (world, reply) == Serve(casing, old(world), call, oracle(old(clock)))
      ensures clock == old(clock) + 1
    {
      var served := Serve(casing, world, call, oracle(clock));
      world, reply, clock := served.0, served.1, clock + 1;
    }
  }

  class Manager {
    const client: Client
    const site: Site
    ghost var origin: Moment
    ghost var since: nat
    ghost var proc: Proc

    constructor (client: Client, site: Site)
      requires site.p.casing == client.casing
      ensures this.client == client && this.site == site
    {
      this.client, this.site := client, site;
    }

    /** The operation begun in `origin` stands at `proc`, and the world is what its calls so far have made of it. */
    ghost predicate Following()
      reads this, client
    {
      && client.casing == site.p.casing
      && since <= client.clock
      && Run(site, origin, client.oracle, since, client.clock) == Moment(client.world, proc)
    }

    ghost method Undertake(op: Op)
      requires client.casing == site.p.casing
      modifies this
      ensures Following() && proc == Begin(op)
      ensures origin == Moment(client.world, Begin(op)) && since == client.clock
    {
      origin, since, proc := Moment(client.world, Begin(op)), client.clock, Begin(op);
    }

    /** Make the call the operation is due to make. */
    method Ask(call: Call) returns (reply: Reply)
      requires Following() && !proc.Finished? && call == Wants(site, proc)
      modifies this, client
      ensures Following() && origin == old(origin) && since == old(since)
      ensures proc == Resume(site, old(proc), reply)
    {
      reply := client.Do(call);
      StepsOnce(old(client.world), reply);
      proc := Resume(site, proc, reply);
    }

    lemma StepsOnce(w: World, reply: Reply)
      requires client.casing == site.p.casing && since < client.clock && !proc.Finished?
      requires Run(site, origin, client.oracle, since, client.clock - 1) == Moment(w, proc)
      requires (client.world, reply) == Serve(client.casing, w, Wants(site, proc), client.oracle(client.clock - 1))
      ensures Run(site, origin, client.oracle, since, client.clock) == Moment(client.world, Resume(site, proc, reply))
    {
      hide Serve;
      hide Resume;
    }

    // ----- Create -----

    method Create(b: Bootstrap) returns (r: Result<Instance>)
      requires client.casing == site.p.casing
      modifies this, client
      ensures Following() && proc == Finished(Single(r))
      ensures origin == Moment(old(client.world), Begin(CreateOp(b))) && since == old(client.clock)
    {
      hide Run;
      hide Serve;
      hide ResumeLate;
      hide CommonBootstrap;
      hide Unbroken;
      hide Admitted;
      hide ExactTemplate;
      Undertake(CreateOp(b));
      if !Accepts(b) { return Err(Unsupported); }
      var version := VerifySystemVersion(b);
      if version.Err? { return Err(version.error); }

      var name := Named(site, b);
      var existing := Ask(GetByName(name));
      if existing.One? {
        var owned := VerifyOwnership(site, existing.item.machine, b.poolID);
        if owned.Err? { return Err(owned.error); }
        return Ok(ToInstance(site, existing.item, b.poolID));
      }
      if existing != Failed(NotFound) { return Err(Trouble(existing)); }

      var resolved := Ask(ResolveTemplate(TEMPLATE_FAMILY));
      if !resolved.TemplateIs? { return Err(Trouble(resolved)); }
      var template := resolved.template;
      if !ExactTemplate(template) { return Err(ManagedDrift); }

      var created := Ask(Clone(template.id, Requested(site, b, template)));
      if !created.One? { return Err(Trouble(created)); }
      r := SeededAndStarted(b, created.item);
    }

    method VerifySystemVersion(b: Bootstrap) returns (r: Result<Unit>)
      requires Following() && proc == Early(b, AskVersion)
      modifies this, client
      ensures Following() && origin == old(origin) && since == old(since)
      ensures match r case Ok(_) => proc == Early(b, AskName) case Err(e) => proc == Fail(e)
    {
      hide Run;
      hide Serve;
      var got := Ask(SystemVersion);
      if !got.Text? { return Err(Trouble(got)); }
      if TrimSpace(got.text) != TrimSpace(site.systemVersion) { return Err(ManagedDrift); }
      r := Ok(Unit.Unit);
    }

    /** The second half of `Create`: a staged seed on the new VM, and the VM observed running with it. */
    method SeededAndStarted(b: Bootstrap, created: Item) returns (r: Result<Instance>)
      requires Following() && proc == Admitted(site, b, created)
      modifies this, client
      ensures Following() && origin == old(origin) && since == old(since)
      ensures proc == Finished(Single(r))
    {
      hide Run;
      hide Serve;
      hide VerifyOwnership;
      hide IsStopped;
      hide IsRunning;
      hide SafeRef;
      hide Seed;
      var admitted := VerifyOwnership(site, created.machine, b.poolID);
      if admitted.Err? { return Err(admitted.error); }
      if !IsStopped(site, created.machine) { return Err(ManagedDrift); }

      var staged := Ask(StageSeed(created.id, Seed(site, b)));
      if !staged.Ref? { return Err(Trouble(staged)); }
      var seedRef := staged.ref;
      if !SafeRef(seedRef, b.token) { return Err(ManagedDrift); }
      var attached := Ask(AttachSeed(created.id, seedRef));
      if attached.Failed? { return Err(attached.error); }
      var started := Ask(Call.Start(created.id));
      if started.Failed? { return Err(started.error); }

      var observed := Ask(Call.Get(created.id));
      if !observed.One? { return Err(Trouble(observed)); }
      var owned := VerifyOwnership(site, observed.item.machine, b.poolID);
      if owned.Err? { return Err(owned.error); }
      if !IsRunning(site, observed.item.machine) { return Err(ManagedDrift); }
      if observed.item.machine.seedRef != seedRef { return Err(ManagedDrift); }
      r := Ok(ToInstance(site, observed.item, b.poolID));
    }

    method ReconcileBootstrap(providerID: string) returns (r: Result<Unit>)
      requires client.casing == site.p.casing
      modifies this, client
      ensures Following() && proc == Close(r)
      ensures origin == Moment(old(client.world), Begin(ReconcileOp(providerID))) && since == old(client.clock)
    {
      hide Run;
      hide Serve;
      hide Found;
      hide IsStopped;
      hide Seeded;
      Undertake(ReconcileOp(providerID));
      var item, _ := FindOwned(providerID);
      if item.Err? { return Err(item.error); }
      if !Seeded(item.value.machine) { return Ok(Unit.Unit); }
      if !IsStopped(site, item.value.machine) { return Err(UnsafeOperation); }
      var consumed := Ask(BootstrapConsumed(item.value.id));
      if !consumed.Consumed? { return Err(Trouble(consumed)); }
      if !consumed.consumed { return Err(UnsafeOperation); }
      var seedRef := item.value.machine.seedRef;
      var detached := Ask(DetachSeed(item.value.id, seedRef));
      if detached.Failed? { return Err(detached.error); }
      var deleted := Ask(DeleteSeed(seedRef));
      if deleted.Failed? { return Err(deleted.error); }
      var observed := Ask(Call.Get(item.value.id));
      if !observed.One? { return Err(Trouble(observed)); }
      if Seeded(observed.item.machine) { return Err(ManagedDrift); }
      r := Ok(Unit.Unit);
    }

    // ----- Get, List, Stop -----

    /** One listing searched for a provider ID, and the owner of what is found. */
    method FindOwned(providerID: string) returns (r: Result<Item>, ghost reply: Reply)
      requires Following() && !proc.Finished? && Wants(site, proc) == Call.List
      modifies this, client
      ensures Following() && origin == old(origin) && since == old(since)
      ensures proc == Resume(site, old(proc), reply) && r == Found(site, reply, providerID)
    {
      hide Run;
      hide Serve;
      hide Resume;
      hide Owner;
      hide Find;
      var items := Ask(Call.List);
      reply := items;
      if !items.Many? { return Err(Trouble(items)), reply; }
      var found := FindItem(items.items, providerID);
      if found.None? { return Err(NotFound), reply; }
      var owner := Owner(site, found.value.machine);
      r := if owner.Ok? then Ok(found.value) else Err(owner.error);
    }

    method Get(providerID: string) returns (r: Result<Instance>)
      requires client.casing == site.p.casing
      modifies this, client
      ensures Following() && proc == Finished(Single(r))
      ensures origin == Moment(old(client.world), Begin(GetOp(providerID))) && since == old(client.clock)
    {
      hide Run;
      hide Serve;
      hide Found;
      Undertake(GetOp(providerID));
      var item, _ := FindOwned(providerID);
      r := match item case Err(e) => Err(e) case Ok(found) => Ok(ToInstance(site, found, PoolOf(found.machine)));
    }

    /** `List` up to its client's reply, which `RemoveAll` shares. */
    method Collect(poolID: string) returns (r: Result<seq<Instance>>, ghost reply: Reply)
      requires Following() && !proc.Finished? && Wants(site, proc) == Call.List
      modifies this, client
      ensures Following() && origin == old(origin) && since == old(since)
      ensures proc == Resume(site, old(proc), reply)
      ensures r == match Selected(site, reply, poolID) case Err(e) => Err(e) case Ok(items) => Ok(Instances(site, items))
    {
      hide Run;
      hide Serve;
      hide Resume;
      hide Listed;
      hide Instances;
      var items := Ask(Call.List);
      reply := items;
      if !items.Many? { return Err(Trouble(items)), reply; }
      r := Filter(site, items.items, poolID);
    }

    method List(poolID: string) returns (r: Result<seq<Instance>>)
      requires client.casing == site.p.casing
      modifies this, client
      ensures Following() && proc == Finished(Several(r))
      ensures origin == Moment(old(client.world), Begin(ListOp(poolID))) && since == old(client.clock)
    {
      hide Run;
      hide Serve;
      hide Selected;
      Undertake(ListOp(poolID));
      var items, _ := Collect(poolID);
      r := items;
    }

    method Stop(providerID: string) returns (r: Result<Unit>)
      requires client.casing == site.p.casing
      modifies this, client
      ensures Following() && proc == Close(r)
      ensures origin == Moment(old(client.world), Begin(StopOp(providerID))) && since == old(client.clock)
    {
      hide Run;
      hide Serve;
      hide Found;
      hide IsStopped;
      hide IsRunning;
      Undertake(StopOp(providerID));
      var item, _ := FindOwned(providerID);
      if item.Err? { return Err(item.error); }
      if IsStopped(site, item.value.machine) { return Ok(Unit.Unit); }
      if !IsRunning(site, item.value.machine) { return Err(UnsafeOperation); }
      var stopped := Ask(Call.Stop(item.value.id, false));
      if stopped.Failed? { return Err(stopped.error); }
      var observed := Ask(Call.Get(item.value.id));
      if !observed.One? { return Err(Trouble(observed)); }
      if !IsStopped(site, observed.item.machine) { return Err(ManagedDrift); }
      r := Ok(Unit.Unit);
    }

    // ----- Delete, RemoveAll -----

    method Delete(providerID: string) returns (r: Result<Unit>)
      requires client.casing == site.p.casing
      modifies this, client
      ensures Following() && proc == Close(r)
      ensures origin == Moment(old(client.world), Begin(DeleteOp(providerID))) && since == old(client.clock)
    {
      Undertake(DeleteOp(providerID));
      r := DeleteOne(providerID, Answering);
    }

    method DeleteOne(providerID: string, ghost after: After) returns (r: Result<Unit>)
      requires Following() && proc == Deleting(DeleteFind(providerID), after)
      modifies this, client
      ensures Following() && origin == old(origin) && since == old(since)
      ensures proc == Return(after, r)
    {
      hide Run;
      hide Serve;
      hide Found;
      hide IsStopped;
      hide Return;
      hide Seeded;
      var item, _ := FindOwned(providerID);
      if item == Err(NotFound) { return Ok(Unit.Unit); }
      if item.Err? { return Err(item.error); }
      if !IsStopped(site, item.value.machine) { return Err(Active); }
      if Seeded(item.value.machine) {
        var seedRef := item.value.machine.seedRef;
        var detached := Ask(DetachSeed(item.value.id, seedRef));
        if detached.Failed? { return Err(detached.error); }
        var dropped := Ask(DeleteSeed(seedRef));
        if dropped.Failed? { return Err(dropped.error); }
      }
      r := DeleteVM(item.value.id, after);
    }

    method DeleteVM(id: int, ghost after: After) returns (r: Result<Unit>)
      requires Following() && proc == Deleting(DeleteCall(id), after)
      modifies this, client
      ensures Following() && origin == old(origin) && since == old(since)
      ensures proc == Return(after, r)
    {
      hide Run;
      hide Serve;
      hide Return;
      var deleted := Ask(Call.Delete(id));
      if deleted.Failed? { return Err(deleted.error); }
      var gone := Ask(Call.Get(id));
      if gone != Failed(NotFound) { return Err(if gone.Failed? then gone.error else ManagedDrift); }
      r := Ok(Unit.Unit);
    }

    method RemoveAll() returns (r: Result<Unit>)
      requires client.casing == site.p.casing
      modifies this, client
      ensures Following() && proc == Close(r)
      ensures origin == Moment(old(client.world), Begin(RemoveAllOp)) && since == old(client.clock)
    {
      hide Run;
      hide Serve;
      hide Selected;
      hide ResumeSweep;
      hide ResumeDelete;
      hide ResumeLook;
      hide ResumeEarly;
      hide ResumeLate;
      hide ResumeReconcile;
      Undertake(RemoveAllOp);
      var listed, reply := Collect("");
      if listed.Err? { return Err(listed.error); }
      var items := listed.value;
      InstanceIDs(Selected(site, reply, "").value);
      ghost var ids := ProviderIDs(Selected(site, reply, "").value);
      var active := false;
      var k := 0;
      assert ids[0..] == ids;
      while k < |items|
        invariant 0 <= k <= |items| == |ids|
        invariant forall n | 0 <= n < |items| :: items[n].providerID == ids[n]
        invariant Following() && origin == Moment(old(client.world), Begin(RemoveAllOp)) && since == old(client.clock)
        invariant proc == NextSweep(ids[k..], active)
      {
        assert ids[k..][0] == items[k].providerID && ids[k..][1..] == ids[k + 1..];
        var next := Visit(items[k].providerID, ids[k + 1..], active);
        if next.Err? { return Err(next.error); }
        active := next.value;
        k := k + 1;
      }
      r := if active then Err(Active) else Ok(Unit.Unit);
    }

    /** One turn of the loop: an active VM is noted, a stopped one deleted. */
    method Visit(providerID: string, ghost todo: seq<string>, active: bool) returns (r: Result<bool>)
      requires Following() && proc == SweepFind(providerID, todo, active)
      modifies this, client
      ensures Following() && origin == old(origin) && since == old(since)
      ensures proc == match r case Ok(now) => NextSweep(todo, now) case Err(e) => Close(Err(e))
    {
      hide Run;
      hide Serve;
      hide Found;
      hide IsStopped;
      hide NextSweep;
      var raw, _ := FindOwned(providerID);
      if raw.Err? { return Err(raw.error); }
      if !IsStopped(site, raw.value.machine) { return Ok(true); }
      var deleted := DeleteOne(providerID, Sweeping(todo, active));
      r := if deleted.Err? then Err(deleted.error) else Ok(active);
    }

    lemma InstanceIDs(items: seq<Item>)
      ensures |Instances(site, items)| == |ProviderIDs(items)|
      ensures forall n | 0 <= n < |items| :: n < |ProviderIDs(items)| && Instances(site, items)[n].providerID == ProviderIDs(items)[n]
      ensures |ProviderIDs(items)| == |items|
    {
      hide ProviderID;
      if items != [] { InstanceIDs(items[1..]); }
    }

    /** `Start` refuses without asking TrueNAS anything. */
    method Start(providerID: string) returns (r: Result<Unit>)
      ensures r == Err(UnsafeOperation)
    {
      r := Err(UnsafeOperation);
    }
  }
}

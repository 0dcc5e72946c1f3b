/** `RemoveAll` of the VM backend is exact over a client that serves its calls. */
module VmSweep {
  import opened Text
  import opened Names
  import opened Provider
  import opened Vm
  import opened VmSafety
  import opened VmRespect
  import opened VmSeeds

  predicate ListsNow(p: Proc) {
    p.SweepList? || p.SweepFind? || (p.Deleting? && p.step.DeleteFind?)
  }

  /** The next call is served, and a listing lists every VM once. */
  predicate Faithful(m: Moment, o: Outcome) {
    o.fate == Served && (ListsNow(m.proc) ==> Enumerates(o.order, m.world.machines.Keys))
  }

  predicate Ours(s: Site, m: Machine) {
    Claimed(s, m, "")
  }

  function ClaimedIDs(s: Site, w: World, ids: seq<int>): seq<int>
    requires forall k | 0 <= k < |ids| :: ids[k] in w.machines
  {
    if ids == [] then []
    else (if Ours(s, w.machines[ids[0]]) then [ids[0]] else []) + ClaimedIDs(s, w, ids[1..])
  }

  function PIDs(ids: seq<int>): seq<string> {
    if ids == [] then [] else [ProviderID(ids[0])] + PIDs(ids[1..])
  }

  predicate Distinct(ids: seq<int>) {
    forall j, k | 0 <= j < k < |ids| :: ids[j] != ids[k]
  }

  lemma {:induction false} ClaimedMembers(s: Site, w: World, ids: seq<int>)
    requires Distinct(ids) && forall k | 0 <= k < |ids| :: ids[k] in w.machines
    ensures var claimed := ClaimedIDs(s, w, ids);
            && Distinct(claimed)
            && forall i :: i in claimed <==> i in ids && Ours(s, w.machines[i])
  {
    hide Ours;
    if ids != [] {
      ClaimedMembers(s, w, ids[1..]);
      assert ids == [ids[0]] + ids[1..];
      assert ids[0] !in ids[1..];
    }
  }

  /** A listing selects the claimed VMs, when all of them are steady. */
  lemma {:induction false} ListedAreClaimed(s: Site, w: World, ids: seq<int>)
    requires forall k | 0 <= k < |ids| :: ids[k] in w.machines
    requires forall k | 0 <= k < |ids| && Ours(s, w.machines[ids[k]]) :: Sound(s.p.casing, w.machines[ids[k]])
    ensures Listed(s, Itemized(w, ids), "").Ok?
    ensures ProviderIDs(Listed(s, Itemized(w, ids), "").value) == PIDs(ClaimedIDs(s, w, ids))
  {
    hide Sound;
    hide Claimed;
    hide ProviderID;
    if ids != [] {
      assert Ours(s, w.machines[ids[0]]) ==> Sound(s.p.casing, w.machines[ids[0]]);
      assert forall k | 0 <= k < |ids[1..]| :: ids[1..][k] == ids[k + 1];
      ListedAreClaimed(s, w, ids[1..]);
      assert Itemized(w, ids)[1..] == Itemized(w, ids[1..]);
      assert ClaimedIDs(s, w, ids) ==
        (if Ours(s, w.machines[ids[0]]) then [ids[0]] else []) + ClaimedIDs(s, w, ids[1..]);
      if !Ours(s, w.machines[ids[0]]) {
        assert [] + ClaimedIDs(s, w, ids[1..]) == ClaimedIDs(s, w, ids[1..]);
      } else {
        var rest := Listed(s, Itemized(w, ids[1..]), "").value;
        assert ([Item(ids[0], w.machines[ids[0]])] + rest)[1..] == rest;
        assert ([ids[0]] + ClaimedIDs(s, w, ids[1..]))[1..] == ClaimedIDs(s, w, ids[1..]);
      }
    }
  }

  /** The listing finds the one VM of that provider ID. */
  lemma FindsIt(s: Site, w: World, o: Outcome, id: int)
    requires o.fate == Served && Enumerates(o.order, w.machines.Keys) && id in w.machines && Owned(s, w.machines[id])
    ensures var (w', r) := Serve(s.p.casing, w, List, o);
            SameHoldings(w, w') && Found(s, r, ProviderID(id)) == Ok(Item(id, w.machines[id]))
  {
    ListServed(s.p.casing, w, o);
    FindTells(w, o.order, ProviderID(id));
    hide Serve;
    hide Itemized;
    hide Sound;
    hide Identified;
    assert id in o.order;
    match Find(Itemized(w, o.order), ProviderID(id))
    case None => 
    case Some(item) => SameProviderID(item.id, id);
    hide Find;
    hide ProviderID;
    hide Enumerates;
  }

  lemma ListServed(casing: CaseMaps, w: World, o: Outcome)
    requires o.fate == Served && Enumerates(o.order, w.machines.Keys)
    ensures var (w', r) := Serve(casing, w, List, o);
            SameHoldings(w, w') && r == Many(Itemized(w, o.order))
  {
    hide InState;
    ItemizedSame(w, Booted(casing, w, o.booted), o.order);
    hide Itemized;
  }

  // ----- the loop -----

  predicate Doomed(s: Site, m: Machine) {
    Ours(s, m) && IsStopped(s, m)
  }

  predicate Blocks(s: Site, m: Machine) {
    Ours(s, m) && !IsStopped(s, m)
  }

  /** A seed that went with its VM. */
  ghost predicate SeedGone(before: World, w: World, ref: string) {
    exists id | id in before.machines :: id !in w.machines && Seeded(before.machines[id]) && before.machines[id].seedRef == ref
  }

  /** Of the manager's VMs, those in `ids` are still to visit; the others are gone if they were stopped, and with each
      its seed. */
  ghost predicate Pending(s: Site, before: World, w: World, ids: seq<int>, active: bool) {
    && Distinct(ids)
    && (forall k | 0 <= k < |ids| :: ids[k] in before.machines && Ours(s, before.machines[ids[k]]))
    && (forall id :: id in w.machines <==>
          id in before.machines && (Doomed(s, before.machines[id]) ==> id in ids))
    && (forall id | id in w.machines && id in before.machines :: w.machines[id] == before.machines[id])
    && (active <==> exists id | id in before.machines :: Blocks(s, before.machines[id]) && id !in ids)
    && SeedsLeft(before, w)
  }

  ghost predicate SeedsLeft(before: World, w: World) {
    && (forall ref :: ref in w.seeds <==> ref in before.seeds && !SeedGone(before, w, ref))
    && (forall ref | ref in w.seeds && ref in before.seeds :: w.seeds[ref] == before.seeds[ref])
  }

  /** Some remaining list starts with the VM at hand. */
  ghost predicate Visiting(s: Site, before: World, w: World, providerID: string, todo: seq<string>, active: bool,
                           ids: seq<int>)
  {
    ids != [] && providerID == ProviderID(ids[0]) && todo == PIDs(ids[1..]) && Pending(s, before, w, ids, active)
  }

  predicate Removable(s: Site, before: World, ids: seq<int>) {
    ids != [] && ids[0] in before.machines && IsStopped(s, before.machines[ids[0]])
  }

  function Without(w: World, id: int): World {
    w.(machines := w.machines - {id})
  }

  function WithoutSeed(w: World, id: int, ref: string): World {
    w.(machines := w.machines - {id}, seeds := w.seeds - {ref})
  }

  /** What the whole loop comes to: the stopped VMs of the manager are gone with their seeds, nothing else is. */
  ghost predicate Swept(s: Site, before: World, w: World, p: Proc) {
    && w.machines == (map id | id in before.machines && !Doomed(s, before.machines[id]) :: before.machines[id])
    && SeedsLeft(before, w)
    && p == Close(if exists id | id in before.machines :: Blocks(s, before.machines[id]) then Err(Active) else Ok(Unit.Unit))
  }

  ghost predicate SweepHolds(s: Site, before: World, w: World, p: Proc) {
    match p
    case SweepList => w.machines == before.machines && w.seeds == before.seeds
    case SweepFind(providerID, todo, active) => exists ids :: Visiting(s, before, w, providerID, todo, active, ids)
    case Deleting(DeleteFind(providerID), Sweeping(todo, active)) =>
      exists ids :: Visiting(s, before, w, providerID, todo, active, ids) && Removable(s, before, ids)
    case Deleting(UnhookFirst(id, ref), Sweeping(todo, active)) =>
      exists ids :: Visiting(s, before, w, ProviderID(id), todo, active, ids) && Removable(s, before, ids) && id == ids[0]
                    && Seeded(before.machines[id]) && ref == before.machines[id].seedRef
    case Deleting(DropFirst(id, ref), Sweeping(todo, active)) =>
      && id in w.machines && ref in w.seeds
      && exists ids :: todo == PIDs(ids) && Pending(s, before, WithoutSeed(w, id, ref), ids, active)
    case Deleting(DeleteCall(id), Sweeping(todo, active)) =>
      id in w.machines && exists ids :: todo == PIDs(ids) && Pending(s, before, Without(w, id), ids, active)
    case Deleting(DeleteCheck(id), Sweeping(todo, active)) =>
      id !in w.machines && exists ids :: todo == PIDs(ids) && Pending(s, before, w, ids, active)
    case Finished(_) => Swept(s, before, w, p)
    case _ => false
  }

  lemma NextSweepHolds(s: Site, before: World, w: World, ids: seq<int>, active: bool)
    requires Pending(s, before, w, ids, active)
    ensures SweepHolds(s, before, w, NextSweep(PIDs(ids), active))
  {
    hide Ours;
    hide IsStopped;
    hide ProviderID;
    hide SeedsLeft;
    hide Doomed;
    hide Blocks;
    if ids == [] {
      PendingDone(s, before, w, active);
      hide Pending;
    } else {
      assert PIDs(ids)[1..] == PIDs(ids[1..]);
      hide Pending;
      assert Visiting(s, before, w, ProviderID(ids[0]), PIDs(ids[1..]), active, ids);
    }
  }

  lemma PendingDone(s: Site, before: World, w: World, active: bool)
    requires Pending(s, before, w, [], active)
    ensures w.machines == (map id | id in before.machines && !Doomed(s, before.machines[id]) :: before.machines[id])
    ensures SeedsLeft(before, w)
    ensures active <==> exists id | id in before.machines :: Blocks(s, before.machines[id])
  {
    hide Doomed;
    hide Blocks;
    hide SeedsLeft;
    var kept := map id | id in before.machines && !Doomed(s, before.machines[id]) :: before.machines[id];
    assert forall id :: id in w.machines <==> id in kept;
    assert forall id | id in kept :: w.machines[id] == kept[id];
    assert w.machines == kept;
  }

  lemma PendingSame(s: Site, before: World, w: World, w': World, ids: seq<int>, active: bool)
    requires Pending(s, before, w, ids, active) && w'.machines == w.machines && w'.seeds == w.seeds
    ensures Pending(s, before, w', ids, active)
  {
    hide Doomed;
    hide Blocks;
    hide Ours;
    hide Seeded;
  }

  /** Listing starts the loop with every claimed VM to visit. */
  lemma ListStarts(s: Site, before: World, w: World, o: Outcome)
    requires o.fate == Served && Enumerates(o.order, w.machines.Keys)
    requires w.machines == before.machines && w.seeds == before.seeds
    requires forall id | id in before.machines && Ours(s, before.machines[id]) :: Owned(s, before.machines[id])
    ensures var (w', r) := Serve(s.p.casing, w, List, o);
            SweepHolds(s, before, w', Resume(s, SweepList, r))
  {
    ListServed(s.p.casing, w, o);
    var (w', r) := Serve(s.p.casing, w, List, o);
    hide Serve;
    SelectsClaimed(s, before, w, o.order);
    var ids := ClaimedIDs(s, w, o.order);
    hide ClaimedIDs;
    hide Enumerates;
    hide Ours;
    hide Owned;
    hide Listed;
    hide Itemized;
    AllPending(s, before, w', ids);
    hide Pending;
    NextSweepHolds(s, before, w', ids, false);
    hide SweepHolds;
    hide NextSweep;
    hide ResumeEarly;
    hide ResumeLate;
    hide ResumeLook;
    hide ResumeReconcile;
    hide ResumeDelete;
  }

  lemma SelectsClaimed(s: Site, before: World, w: World, order: seq<int>)
    requires Enumerates(order, w.machines.Keys) && w.machines == before.machines
    requires forall id | id in before.machines && Ours(s, before.machines[id]) :: Owned(s, before.machines[id])
    ensures var ids := ClaimedIDs(s, w, order);
            && Distinct(ids)
            && (forall i :: i in ids <==> i in before.machines && Ours(s, before.machines[i]))
            && Listed(s, Itemized(w, order), "").Ok?
            && ProviderIDs(Listed(s, Itemized(w, order), "").value) == PIDs(ids)
  {
    ClaimedMembers(s, w, order);
    hide Ours;
    forall k | 0 <= k < |order| && Ours(s, w.machines[order[k]])
      ensures Sound(s.p.casing, w.machines[order[k]])
    {
      OwnedIsSound(s, w.machines[order[k]]);
    }
    hide Owned;
    hide Sound;
    ListedAreClaimed(s, w, order);
    hide ClaimedIDs;
    hide Listed;
    hide Itemized;
  }

  lemma OwnedIsSound(s: Site, m: Machine)
    requires Owned(s, m)
    ensures Sound(s.p.casing, m)
  {
    hide Sound;
    hide Identified;
  }

  lemma SeedsAllLeft(before: World, w: World)
    requires w.machines == before.machines && w.seeds == before.seeds
    ensures SeedsLeft(before, w)
  {
    hide Seeded;
    forall ref ensures !SeedGone(before, w, ref) {
    }
  }

  lemma AllPending(s: Site, before: World, w: World, ids: seq<int>)
    requires Distinct(ids) && w.machines == before.machines && w.seeds == before.seeds
    requires forall i :: i in ids <==> i in before.machines && Ours(s, before.machines[i])
    ensures Pending(s, before, w, ids, false)
  {
    forall k | 0 <= k < |ids| ensures ids[k] in before.machines && Ours(s, before.machines[ids[k]]) {
      var i := ids[k];
      assert i in ids;
    }
    hide IsStopped;
    forall id | id in before.machines && Doomed(s, before.machines[id]) ensures id in ids {
    }
    forall id | id in before.machines && Blocks(s, before.machines[id]) ensures id in ids {
    }
    hide Doomed;
    hide Blocks;
    hide Ours;
    SeedsAllLeft(before, w);
    hide SeedsLeft;
  }

  lemma PendingHead(s: Site, before: World, w: World, ids: seq<int>, active: bool)
    requires Pending(s, before, w, ids, active) && ids != []
    ensures ids[0] in w.machines && ids[0] in before.machines && w.machines[ids[0]] == before.machines[ids[0]]
    ensures Ours(s, before.machines[ids[0]])
  {
    hide Ours;
    hide Blocks;
    hide IsStopped;
    hide SeedsLeft;
    assert ids[0] in ids;
  }

  lemma PassOver(s: Site, before: World, w: World, ids: seq<int>, active: bool)
    requires Pending(s, before, w, ids, active) && ids != [] && ids[0] in before.machines
    requires !IsStopped(s, before.machines[ids[0]])
    ensures Pending(s, before, w, ids[1..], true)
  {
    hide Ours;
    hide IsStopped;
    hide SeedsLeft;
    var tail := ids[1..];
    assert ids == [ids[0]] + tail && ids[0] !in tail;
    assert forall id :: id in ids <==> id == ids[0] || id in tail;
    assert Blocks(s, before.machines[ids[0]]) && !Doomed(s, before.machines[ids[0]]);
    hide Doomed;
    hide Blocks;
    assert exists id | id in before.machines :: Blocks(s, before.machines[id]) && id !in tail by {
      assert Blocks(s, before.machines[ids[0]]) && ids[0] !in tail;
    }
  }

  /** With the head and its seed gone, the rest is still pending. */
  lemma StrikeSeeded(s: Site, before: World, w: World, ids: seq<int>, active: bool)
    requires SeedsSound(before) && Pending(s, before, w, ids, active) && Removable(s, before, ids)
    requires Seeded(before.machines[ids[0]])
    ensures var ref := before.machines[ids[0]].seedRef;
            Pending(s, before, WithoutSeed(w, ids[0], ref), ids[1..], active) && ref in w.seeds
  {
    PendingHead(s, before, w, ids, active);
    SeedGoesToo(before, w, ids[0]);
    StrikeMachines(s, before, w, ids, active);
    hide Ours;
    hide IsStopped;
    hide SeedsLeft;
    hide SeedsSound;
    hide Doomed;
    hide Blocks;
    hide Seeded;
  }

  lemma StrikeUnseeded(s: Site, before: World, w: World, ids: seq<int>, active: bool)
    requires Pending(s, before, w, ids, active) && Removable(s, before, ids)
    requires !Seeded(before.machines[ids[0]])
    ensures Pending(s, before, Without(w, ids[0]), ids[1..], active)
  {
    PendingHead(s, before, w, ids, active);
    NoSeedGoes(before, w, ids[0]);
    StrikeMachines(s, before, w, ids, active);
    hide Ours;
    hide IsStopped;
    hide SeedsLeft;
    hide Doomed;
    hide Blocks;
    hide Seeded;
  }

  lemma StrikeMachines(s: Site, before: World, w: World, ids: seq<int>, active: bool)
    requires Pending(s, before, w, ids, active) && Removable(s, before, ids)
    ensures var machines := w.machines - {ids[0]};
            && Distinct(ids[1..])
            && (forall k | 0 <= k < |ids[1..]| :: ids[1..][k] in before.machines && Ours(s, before.machines[ids[1..][k]]))
            && (forall id :: id in machines <==>
                  id in before.machines && (Doomed(s, before.machines[id]) ==> id in ids[1..]))
            && (forall id | id in machines && id in before.machines :: machines[id] == before.machines[id])
            && (active <==> exists id | id in before.machines :: Blocks(s, before.machines[id]) && id !in ids[1..])
  {
    hide Ours;
    hide IsStopped;
    hide SeedsLeft;
    assert ids == [ids[0]] + ids[1..];
    assert ids[0] !in ids[1..];
    assert Doomed(s, before.machines[ids[0]]) && !Blocks(s, before.machines[ids[0]]);
  }

  lemma NoSeedGoes(before: World, w: World, id: int)
    requires SeedsLeft(before, w) && id in w.machines && id in before.machines && !Seeded(before.machines[id])
    ensures SeedsLeft(before, Without(w, id))
  {
    GoneWith(before, w, id);
    hide Seeded;
    hide SeedGone;
  }

  lemma SeedGoesToo(before: World, w: World, id: int)
    requires SeedsSound(before) && SeedsLeft(before, w) && id in w.machines && id in before.machines
    requires Seeded(before.machines[id])
    ensures var ref := before.machines[id].seedRef;
            SeedsLeft(before, WithoutSeed(w, id, ref)) && ref in w.seeds
  {
    var ref := before.machines[id].seedRef;
    GoneWith(before, w, id);
    StillThere(before, w, id);
    hide Seeded;
    hide SeedGone;
    hide SeedsSound;
    assert ref in before.seeds;
  }

  lemma StillThere(before: World, w: World, id: int)
    requires SeedsSound(before) && id in w.machines && id in before.machines && Seeded(before.machines[id])
    ensures before.machines[id].seedRef in before.seeds && !SeedGone(before, w, before.machines[id].seedRef)
  {
    hide Blank;
  }

  lemma GoneWith(before: World, w: World, id: int)
    requires id in w.machines && id in before.machines
    ensures forall ref :: SeedGone(before, Without(w, id), ref) <==>
                            SeedGone(before, w, ref) || (Seeded(before.machines[id]) && before.machines[id].seedRef == ref)
    ensures forall ref, any :: SeedGone(before, WithoutSeed(w, id, any), ref) == SeedGone(before, Without(w, id), ref)
  {
    hide Seeded;
  }

  /** Looking at the next VM: a stopped one goes to `Delete`, any other is passed over as active. */
  lemma SeenGoesOn(s: Site, before: World, w: World, providerID: string, todo: seq<string>, active: bool, ids: seq<int>)
    requires Visiting(s, before, w, providerID, todo, active, ids)
    ensures ids[0] in w.machines
    ensures SweepHolds(s, before, w, if IsStopped(s, w.machines[ids[0]]) then Deleting(DeleteFind(providerID), Sweeping(todo, active))
                                     else NextSweep(todo, true))
  {
    hide ProviderID;
    PendingHead(s, before, w, ids, active);
    hide IsStopped;
    if IsStopped(s, w.machines[ids[0]]) {
      hide Pending;
      assert Removable(s, before, ids);
      hide Visiting;
      hide Removable;
    } else {
      PassOver(s, before, w, ids, active);
      hide Pending;
      NextSweepHolds(s, before, w, ids[1..], true);
      hide SweepHolds;
    }
  }

  lemma VisitKeeps(s: Site, before: World, w: World, providerID: string, todo: seq<string>, active: bool, o: Outcome,
                   ids: seq<int>)
    requires o.fate == Served && Enumerates(o.order, w.machines.Keys)
    requires Visiting(s, before, w, providerID, todo, active, ids)
    requires forall id | id in before.machines && Ours(s, before.machines[id]) :: Owned(s, before.machines[id])
    ensures var (w', r) := Serve(s.p.casing, w, List, o);
            SweepHolds(s, before, w', ResumeSweep(s, providerID, todo, active, r))
  {
    PendingHead(s, before, w, ids, active);
    FindsIt(s, w, o, ids[0]);
    var (w', r) := Serve(s.p.casing, w, List, o);
    hide Serve;
    hide Owned;
    hide Found;
    hide ProviderID;
    hide IsStopped;
    PendingSame(s, before, w, w', ids, active);
    hide Pending;
    assert Visiting(s, before, w', providerID, todo, active, ids);
    SeenGoesOn(s, before, w', providerID, todo, active, ids);
    hide SweepHolds;
    hide Visiting;
  }

  lemma SweepFindKeeps(s: Site, before: World, w: World, p: Proc, o: Outcome)
    requires p.SweepFind? && SweepHolds(s, before, w, p) && Faithful(Moment(w, p), o)
    requires forall id | id in before.machines && Ours(s, before.machines[id]) :: Owned(s, before.machines[id])
    ensures var (w', r) := Serve(s.p.casing, w, List, o);
            SweepHolds(s, before, w', ResumeSweep(s, p.providerID, p.todo, p.active, r))
  {
    hide Visiting;
    hide Enumerates;
    hide Owned;
    hide Ours;
    var ids :| Visiting(s, before, w, p.providerID, p.todo, p.active, ids);
    hide SweepHolds;
    VisitKeeps(s, before, w, p.providerID, p.todo, p.active, o, ids);
    hide Serve;
    hide ResumeSweep;
  }

  lemma SweepDeleteFindKeeps(s: Site, before: World, w: World, providerID: string, todo: seq<string>, active: bool, o: Outcome)
    requires var p := Deleting(DeleteFind(providerID), Sweeping(todo, active));
             SweepHolds(s, before, w, p) && Faithful(Moment(w, p), o)
    requires SeedsSound(before)
    requires forall id | id in before.machines && Ours(s, before.machines[id]) :: Owned(s, before.machines[id])
    ensures var (w', r) := Serve(s.p.casing, w, List, o);
            SweepHolds(s, before, w', ResumeDelete(s, DeleteFind(providerID), Sweeping(todo, active), r))
  {
    hide Pending;
    hide Owned;
    hide Ours;
    hide IsStopped;
    hide SeedsSound;
    hide Seeded;
    var ids :| Visiting(s, before, w, providerID, todo, active, ids) && Removable(s, before, ids);
    PendingHead(s, before, w, ids, active);
    FindsIt(s, w, o, ids[0]);
    hide Serve;
    hide Found;
    hide Enumerates;
    hide ProviderID;
    var w' := Serve(s.p.casing, w, List, o).0;
    PendingSame(s, before, w, w', ids, active);
    assert Visiting(s, before, w', providerID, todo, active, ids);
    if !Seeded(before.machines[ids[0]]) {
      StrikeUnseeded(s, before, w', ids, active);
      assert todo == PIDs(ids[1..]);
    }
    hide Visiting;
    hide PIDs;
  }

  lemma DetachServed(casing: CaseMaps, w: World, id: int, ref: string, o: Outcome)
    requires o.fate == Served && id in w.machines && w.machines[id].seedRef == ref
    ensures var (w', r) := Serve(casing, w, DetachSeed(id, ref), o);
            r == Acknowledged && w'.seeds == w.seeds && w'.machines == w.machines[id := Unseeded(w.machines[id])]
  {
    hide InState;
  }

  lemma DropServed(casing: CaseMaps, w: World, ref: string, o: Outcome)
    requires o.fate == Served && ref in w.seeds
    ensures var (w', r) := Serve(casing, w, DeleteSeed(ref), o);
            r == Acknowledged && w'.seeds == w.seeds - {ref} && w'.machines == w.machines
  {
    hide InState;
  }

  lemma AbsentAnswers(casing: CaseMaps, w: World, id: int, o: Outcome)
    requires id !in w.machines && o.fate == Served
    ensures var (w', r) := Serve(casing, w, Get(id), o); SameHoldings(w, w') && r == Failed(NotFound)
  {
    hide InState;
  }

  lemma SweepUnhookKeeps(s: Site, before: World, w: World, id: int, ref: string, todo: seq<string>, active: bool, o: Outcome)
    requires SweepHolds(s, before, w, Deleting(UnhookFirst(id, ref), Sweeping(todo, active)))
    requires SeedsSound(before) && o.fate == Served
    ensures var (w', r) := Serve(s.p.casing, w, DetachSeed(id, ref), o);
            SweepHolds(s, before, w', ResumeDelete(s, UnhookFirst(id, ref), Sweeping(todo, active), r))
  {
    hide Pending;
    hide IsStopped;
    hide ProviderID;
    hide SeedsSound;
    hide Seeded;
    hide Unseeded;
    var ids :| Visiting(s, before, w, ProviderID(id), todo, active, ids) && Removable(s, before, ids) && id == ids[0]
               && Seeded(before.machines[id]) && ref == before.machines[id].seedRef;
    PendingHead(s, before, w, ids, active);
    DetachServed(s.p.casing, w, id, ref, o);
    hide Serve;
    var w' := Serve(s.p.casing, w, DetachSeed(id, ref), o).0;
    StrikeSeeded(s, before, w, ids, active);
    assert w'.machines - {id} == w.machines - {id};
    PendingSame(s, before, WithoutSeed(w, id, ref), WithoutSeed(w', id, ref), ids[1..], active);
    assert todo == PIDs(ids[1..]);
    hide PIDs;
  }

  lemma SweepDropKeeps(s: Site, before: World, w: World, id: int, ref: string, todo: seq<string>, active: bool, o: Outcome)
    requires SweepHolds(s, before, w, Deleting(DropFirst(id, ref), Sweeping(todo, active))) && o.fate == Served
    ensures var (w', r) := Serve(s.p.casing, w, DeleteSeed(ref), o);
            SweepHolds(s, before, w', ResumeDelete(s, DropFirst(id, ref), Sweeping(todo, active), r))
  {
    hide Pending;
    hide PIDs;
    var ids :| todo == PIDs(ids) && Pending(s, before, WithoutSeed(w, id, ref), ids, active);
    DropServed(s.p.casing, w, ref, o);
    hide Serve;
    var w' := Serve(s.p.casing, w, DeleteSeed(ref), o).0;
    PendingSame(s, before, WithoutSeed(w, id, ref), Without(w', id), ids, active);
  }

  lemma SweepDeleteCallKeeps(s: Site, before: World, w: World, id: int, todo: seq<string>, active: bool, o: Outcome)
    requires SweepHolds(s, before, w, Deleting(DeleteCall(id), Sweeping(todo, active))) && o.fate == Served
    ensures var (w', r) := Serve(s.p.casing, w, Delete(id), o);
            SweepHolds(s, before, w', ResumeDelete(s, DeleteCall(id), Sweeping(todo, active), r))
  {
    hide Pending;
    hide PIDs;
    var ids :| todo == PIDs(ids) && Pending(s, before, Without(w, id), ids, active);
    DeleteTells(s.p.casing, w, id, o);
    hide Serve;
    var w' := Serve(s.p.casing, w, Delete(id), o).0;
    PendingSame(s, before, Without(w, id), w', ids, active);
  }

  lemma SweepDeleteCheckKeeps(s: Site, before: World, w: World, id: int, todo: seq<string>, active: bool, o: Outcome)
    requires SweepHolds(s, before, w, Deleting(DeleteCheck(id), Sweeping(todo, active))) && o.fate == Served
    ensures var (w', r) := Serve(s.p.casing, w, Get(id), o);
            SweepHolds(s, before, w', ResumeDelete(s, DeleteCheck(id), Sweeping(todo, active), r))
  {
    hide Pending;
    hide PIDs;
    var ids :| todo == PIDs(ids) && Pending(s, before, w, ids, active);
    hide SweepHolds;
    AbsentAnswers(s.p.casing, w, id, o);
    hide Serve;
    var w' := Serve(s.p.casing, w, Get(id), o).0;
    PendingSame(s, before, w, w', ids, active);
    NextSweepHolds(s, before, w', ids, active);
    hide NextSweep;
  }

  lemma SweepStepKeeps(s: Site, before: World, m: Moment, o: Outcome)
    requires SweepHolds(s, before, m.world, m.proc) && Faithful(m, o) && SeedsSound(before)
    requires forall id | id in before.machines && Ours(s, before.machines[id]) :: Owned(s, before.machines[id])
    ensures var next := Step(s, m, o); SweepHolds(s, before, next.world, next.proc)
  {
    hide Serve;
    hide ResumeDelete;
    hide ResumeSweep;
    hide Owned;
    hide Ours;
    hide Visiting;
    hide Removable;
    hide Pending;
    hide Swept;
    hide SeedsSound;
    hide Seeded;
    match m.proc
    case SweepList => ListStarts(s, before, m.world, o);
    case SweepFind(_, _, _) => SweepFindKeeps(s, before, m.world, m.proc, o);
    case Deleting(DeleteFind(providerID), Sweeping(todo, active)) =>
      SweepDeleteFindKeeps(s, before, m.world, providerID, todo, active, o);
    case Deleting(UnhookFirst(id, ref), Sweeping(todo, active)) => SweepUnhookKeeps(s, before, m.world, id, ref, todo, active, o);
    case Deleting(DropFirst(id, ref), Sweeping(todo, active)) => SweepDropKeeps(s, before, m.world, id, ref, todo, active, o);
    case Deleting(DeleteCall(id), Sweeping(todo, active)) => SweepDeleteCallKeeps(s, before, m.world, id, todo, active, o);
    case Deleting(DeleteCheck(id), Sweeping(todo, active)) => SweepDeleteCheckKeeps(s, before, m.world, id, todo, active, o);
    case _ =>
    hide SweepHolds;
    hide Enumerates;
  }

  ghost predicate FaithfulRun(s: Site, before: World, oracle: nat -> Outcome, i: nat, j: nat) {
    forall k | i <= k < j :: Faithful(Run(s, Moment(before, SweepList), oracle, i, k), oracle(k))
  }

  lemma FaithfulSoFar(s: Site, before: World, oracle: nat -> Outcome, i: nat, last: nat)
    requires i <= last && FaithfulRun(s, before, oracle, i, last + 1)
    ensures FaithfulRun(s, before, oracle, i, last)
    ensures Faithful(Run(s, Moment(before, SweepList), oracle, i, last), oracle(last))
  {
    hide Run;
    hide Faithful;
  }

  lemma {:induction false} SweepRunHolds(s: Site, before: World, oracle: nat -> Outcome, i: nat, j: nat)
    requires i <= j && FaithfulRun(s, before, oracle, i, j) && SeedsSound(before)
    requires forall id | id in before.machines && Ours(s, before.machines[id]) :: Owned(s, before.machines[id])
    ensures var m := Run(s, Moment(before, SweepList), oracle, i, j); SweepHolds(s, before, m.world, m.proc)
  {
    hide Step;
    hide Owned;
    hide Ours;
    hide Faithful;
    hide FaithfulRun;
    hide SeedsSound;
    if i < j {
      var last := j - 1;
      FaithfulSoFar(s, before, oracle, i, last);
      SweepRunHolds(s, before, oracle, i, last);
      SweepStepKeeps(s, before, Run(s, Moment(before, SweepList), oracle, i, last), oracle(last));
      hide SweepHolds;
    }
  }

  /** Over a faithful client, when every VM the manager claims checks out and seeds are sound, `RemoveAll` ends with
      exactly the old inventory minus its stopped VMs and their seeds, and reports `Active` exactly when one of its VMs
      is left. */
  lemma RemoveAllExact(s: Site, before: World, oracle: nat -> Outcome, i: nat, j: nat)
    requires i <= j && FaithfulRun(s, before, oracle, i, j) && SeedsSound(before)
    requires Run(s, Moment(before, Begin(RemoveAllOp)), oracle, i, j).proc.Finished?
    requires forall id | id in before.machines && Ours(s, before.machines[id]) :: Owned(s, before.machines[id])
    ensures var m := Run(s, Moment(before, Begin(RemoveAllOp)), oracle, i, j); Swept(s, before, m.world, m.proc)
  {
    hide Owned;
    hide Ours;
    hide FaithfulRun;
    hide Run;
    hide Swept;
    hide SeedsSound;
    SweepRunHolds(s, before, oracle, i, j);
  }
}

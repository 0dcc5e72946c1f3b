/** `RemoveAll` of the container backend is exact over a client that serves its calls. */
module ContainerSweep {
  import opened Names
  import opened Provider
  import opened Container
  import opened ContainerSafety
  import opened ContainerRespect

  predicate ListsNow(p: Proc) {
    p.SweepList? || p.SweepFind? || (p.Deleting? && p.step.DeleteFind?)
  }

  /** The next call is served, and a listing lists every container once. */
  predicate Faithful(m: Moment, o: Outcome) {
    o.fate == Served && (ListsNow(m.proc) ==> Enumerates(o.order, m.world.containers.Keys))
  }

  predicate Ours(s: Site, c: Container) {
    Claimed(s, c, "")
  }

  function ClaimedIDs(s: Site, w: World, ids: seq<int>): seq<int>
    requires forall k | 0 <= k < |ids| :: ids[k] in w.containers
  {
    if ids == [] then []
    else (if Ours(s, w.containers[ids[0]]) then [ids[0]] else []) + ClaimedIDs(s, w, ids[1..])
  }

  function PIDs(ids: seq<int>): seq<string> {
    if ids == [] then [] else [ProviderID(ids[0])] + PIDs(ids[1..])
  }

  predicate Distinct(ids: seq<int>) {
    forall j, k | 0 <= j < k < |ids| :: ids[j] != ids[k]
  }

  lemma {:induction false} ClaimedMembers(s: Site, w: World, ids: seq<int>)
    requires Distinct(ids) && forall k | 0 <= k < |ids| :: ids[k] in w.containers
    ensures var claimed := ClaimedIDs(s, w, ids);
            && Distinct(claimed)
            && forall i :: i in claimed <==> i in ids && Ours(s, w.containers[i])
  {
    hide Ours;
    if ids != [] {
      ClaimedMembers(s, w, ids[1..]);
      assert ids == [ids[0]] + ids[1..];
      assert ids[0] !in ids[1..];
    }
  }

  /** A listing selects the claimed containers, when all of them are steady. */
  lemma {:induction false} ListedAreClaimed(s: Site, w: World, ids: seq<int>)
    requires forall k | 0 <= k < |ids| :: ids[k] in w.containers
    requires forall k | 0 <= k < |ids| && Ours(s, w.containers[ids[k]]) :: Steady(s.p.casing, w.containers[ids[k]])
    ensures Listed(s, Itemized(w, ids), "").Ok?
    ensures ProviderIDs(Listed(s, Itemized(w, ids), "").value) == PIDs(ClaimedIDs(s, w, ids))
  {
    hide Steady;
    hide Claimed;
    hide ProviderID;
    if ids != [] {
      assert Ours(s, w.containers[ids[0]]) ==> Steady(s.p.casing, w.containers[ids[0]]);
      assert forall k | 0 <= k < |ids[1..]| :: ids[1..][k] == ids[k + 1];
      ListedAreClaimed(s, w, ids[1..]);
      assert Itemized(w, ids)[1..] == Itemized(w, ids[1..]);
      assert ClaimedIDs(s, w, ids) ==
        (if Ours(s, w.containers[ids[0]]) then [ids[0]] else []) + ClaimedIDs(s, w, ids[1..]);
      if !Ours(s, w.containers[ids[0]]) {
        assert [] + ClaimedIDs(s, w, ids[1..]) == ClaimedIDs(s, w, ids[1..]);
      } else {
        var rest := Listed(s, Itemized(w, ids[1..]), "").value;
        assert ([Item(ids[0], w.containers[ids[0]])] + rest)[1..] == rest;
        assert ([ids[0]] + ClaimedIDs(s, w, ids[1..]))[1..] == ClaimedIDs(s, w, ids[1..]);
      }
    }
  }

  /** The listing finds the one container of that provider ID. */
  lemma FindsIt(s: Site, w: World, o: Outcome, id: int)
    requires o.fate == Served && Enumerates(o.order, w.containers.Keys) && id in w.containers && Owned(s, w.containers[id])
    ensures var (w', r) := Serve(s.p.casing, w, List, o);
            w'.containers == w.containers && Found(s, r, ProviderID(id)) == Ok(Item(id, w.containers[id]))
  {
    ListServed(s.p.casing, w, o);
    FindTells(w, o.order, ProviderID(id));
    hide Serve;
    hide Itemized;
    hide Steady;
    hide Identified;
    assert id in o.order;
    match Find(Itemized(w, o.order), ProviderID(id))
    case None => 
    case Some(item) => SameProviderID(item.id, id);
    hide Find;
    hide ProviderID;
    hide Enumerates;
  }

  lemma ListServed(casing: CaseMaps, w: World, o: Outcome)
    requires o.fate == Served && Enumerates(o.order, w.containers.Keys)
    ensures var (w', r) := Serve(casing, w, List, o);
            w'.containers == w.containers && r == Many(Itemized(w, o.order))
  {
    hide Wipes;
    ItemizedSame(w, Wiped(casing, w, o.wiped), o.order);
    hide Itemized;
  }

  // ----- the loop -----

  predicate Doomed(s: Site, c: Container) {
    Ours(s, c) && IsStopped(s, c)
  }

  predicate Blocks(s: Site, c: Container) {
    Ours(s, c) && !IsStopped(s, c)
  }

  /** Of the manager's containers, those in `ids` are still to visit; the others are gone if they were stopped. */
  ghost predicate Pending(s: Site, before: World, w: World, ids: seq<int>, active: bool) {
    && Distinct(ids)
    && (forall k | 0 <= k < |ids| :: ids[k] in before.containers && Ours(s, before.containers[ids[k]]))
    && (forall id :: id in w.containers <==>
          id in before.containers && (Doomed(s, before.containers[id]) ==> id in ids))
    && (forall id | id in w.containers && id in before.containers :: w.containers[id] == before.containers[id])
    && (active <==> exists id | id in before.containers :: Blocks(s, before.containers[id]) && id !in ids)
  }

  /** Some remaining list starts with the container at hand. */
  ghost predicate Visiting(s: Site, before: World, w: World, providerID: string, todo: seq<string>, active: bool,
                           ids: seq<int>)
  {
    ids != [] && providerID == ProviderID(ids[0]) && todo == PIDs(ids[1..]) && Pending(s, before, w, ids, active)
  }

  predicate Removable(s: Site, before: World, ids: seq<int>) {
    ids != [] && ids[0] in before.containers && IsStopped(s, before.containers[ids[0]])
  }

  /** What the whole loop comes to. */
  ghost predicate Swept(s: Site, before: World, w: World, p: Proc) {
    && w.containers == (map id | id in before.containers && !Doomed(s, before.containers[id]) :: before.containers[id])
    && p == Close(if exists id | id in before.containers :: Blocks(s, before.containers[id]) then Err(Active) else Ok(Unit.Unit))
  }

  ghost predicate SweepHolds(s: Site, before: World, w: World, p: Proc) {
    match p
    case SweepList => w.containers == before.containers
    case SweepFind(providerID, todo, active) => exists ids :: Visiting(s, before, w, providerID, todo, active, ids)
    case Deleting(DeleteFind(providerID), Sweeping(todo, active)) =>
      exists ids :: Visiting(s, before, w, providerID, todo, active, ids) && Removable(s, before, ids)
    case Deleting(DeleteCall(id), Sweeping(todo, active)) =>
      exists ids :: Visiting(s, before, w, ProviderID(id), todo, active, ids) && Removable(s, before, ids) && id == ids[0]
    case Deleting(DeleteCheck(id), Sweeping(todo, active)) =>
      id !in w.containers && exists ids :: todo == PIDs(ids) && Pending(s, before, w, ids, active)
    case Finished(_) => Swept(s, before, w, p)
    case _ => false
  }

  lemma VisitsNext(s: Site, before: World, w: World, ids: seq<int>, active: bool)
    requires Pending(s, before, w, ids, active) && ids != []
    ensures Visiting(s, before, w, PIDs(ids)[0], PIDs(ids)[1..], active, ids)
  {
    hide Pending;
    hide ProviderID;
    assert PIDs(ids)[1..] == PIDs(ids[1..]);
  }

  lemma NextSweepHolds(s: Site, before: World, w: World, ids: seq<int>, active: bool)
    requires Pending(s, before, w, ids, active)
    ensures SweepHolds(s, before, w, NextSweep(PIDs(ids), active))
  {
    hide Ours;
    hide IsStopped;
    hide ProviderID;
    if ids == [] {
      PendingDone(s, before, w, active);
      hide Pending;
      hide Doomed;
      hide Blocks;
    } else {
      VisitsNext(s, before, w, ids, active);
      hide Pending;
      hide Visiting;
    }
  }

  lemma PendingDone(s: Site, before: World, w: World, active: bool)
    requires Pending(s, before, w, [], active)
    ensures w.containers == (map id | id in before.containers && !Doomed(s, before.containers[id]) :: before.containers[id])
    ensures active <==> exists id | id in before.containers :: Blocks(s, before.containers[id])
  {
    hide Doomed;
    hide Blocks;
    var kept := map id | id in before.containers && !Doomed(s, before.containers[id]) :: before.containers[id];
    assert forall id :: id in w.containers <==> id in kept;
    assert forall id | id in kept :: w.containers[id] == kept[id];
    assert w.containers == kept;
  }

  lemma PendingSame(s: Site, before: World, w: World, w': World, ids: seq<int>, active: bool)
    requires Pending(s, before, w, ids, active) && w'.containers == w.containers
    ensures Pending(s, before, w', ids, active)
  {
    hide Doomed;
    hide Blocks;
    hide Ours;
  }

  /** Listing starts the loop with every claimed container to visit. */
  lemma ListStarts(s: Site, before: World, w: World, o: Outcome)
    requires o.fate == Served && Enumerates(o.order, w.containers.Keys) && w.containers == before.containers
    requires forall id | id in before.containers && Ours(s, before.containers[id]) :: Owned(s, before.containers[id])
    ensures var (w', r) := Serve(s.p.casing, w, List, o);
            SweepHolds(s, before, w', Resume(s, SweepList, r))
  {
    ListServed(s.p.casing, w, o);
    var (w', r) := Serve(s.p.casing, w, List, o);
    hide Serve;
    SelectsClaimed(s, before, w, o.order);
    var ids := ClaimedIDs(s, w, o.order);
    hide ClaimedIDs;
    hide Enumerates;
    hide Ours;
    hide Owned;
    hide Listed;
    hide Itemized;
    AllPending(s, before, w', ids);
    hide Pending;
    NextSweepHolds(s, before, w', ids, false);
    hide SweepHolds;
    hide NextSweep;
    hide ResumeEarly;
    hide ResumeLate;
    hide ResumeLook;
    hide ResumeDelete;
  }

  lemma SelectsClaimed(s: Site, before: World, w: World, order: seq<int>)
    requires Enumerates(order, w.containers.Keys) && w.containers == before.containers
    requires forall id | id in before.containers && Ours(s, before.containers[id]) :: Owned(s, before.containers[id])
    ensures var ids := ClaimedIDs(s, w, order);
            && Distinct(ids)
            && (forall i :: i in ids <==> i in before.containers && Ours(s, before.containers[i]))
            && Listed(s, Itemized(w, order), "").Ok?
            && ProviderIDs(Listed(s, Itemized(w, order), "").value) == PIDs(ids)
  {
    ClaimedMembers(s, w, order);
    hide Ours;
    forall k | 0 <= k < |order| && Ours(s, w.containers[order[k]])
      ensures Steady(s.p.casing, w.containers[order[k]])
    {
      OwnedIsSteady(s, w.containers[order[k]]);
    }
    hide Owned;
    hide Steady;
    ListedAreClaimed(s, w, order);
    hide ClaimedIDs;
    hide Listed;
    hide Itemized;
  }

  lemma OwnedIsSteady(s: Site, c: Container)
    requires Owned(s, c)
    ensures Steady(s.p.casing, c)
  {
    hide Steady;
    hide Identified;
  }

  lemma AllPending(s: Site, before: World, w: World, ids: seq<int>)
    requires Distinct(ids) && w.containers == before.containers
    requires forall i :: i in ids <==> i in before.containers && Ours(s, before.containers[i])
    ensures Pending(s, before, w, ids, false)
  {
    forall k | 0 <= k < |ids| ensures ids[k] in before.containers && Ours(s, before.containers[ids[k]]) {
      var i := ids[k];
      assert i in ids;
    }
    hide IsStopped;
    forall id | id in before.containers && Doomed(s, before.containers[id]) ensures id in ids {
    }
    forall id | id in before.containers && Blocks(s, before.containers[id]) ensures id in ids {
    }
    hide Doomed;
    hide Blocks;
    hide Ours;
  }

  /** Looking at the next container: a stopped one goes to `Delete`, any other is passed over as active. */
  lemma SeenGoesOn(s: Site, before: World, w: World, providerID: string, todo: seq<string>, active: bool, ids: seq<int>)
    requires Visiting(s, before, w, providerID, todo, active, ids)
    ensures ids[0] in w.containers
    ensures SweepHolds(s, before, w, if IsStopped(s, w.containers[ids[0]]) then Deleting(DeleteFind(providerID), Sweeping(todo, active))
                                     else NextSweep(todo, true))
  {
    hide ProviderID;
    PendingHead(s, before, w, ids, active);
    hide IsStopped;
    if IsStopped(s, w.containers[ids[0]]) {
      hide Pending;
      assert Removable(s, before, ids);
      hide Visiting;
      hide Removable;
    } else {
      PassOver(s, before, w, ids, active);
      hide Pending;
      NextSweepHolds(s, before, w, ids[1..], true);
      hide SweepHolds;
    }
  }

  lemma VisitKeeps(s: Site, before: World, w: World, providerID: string, todo: seq<string>, active: bool, o: Outcome,
                   ids: seq<int>)
    requires o.fate == Served && Enumerates(o.order, w.containers.Keys)
    requires Visiting(s, before, w, providerID, todo, active, ids)
    requires forall id | id in before.containers && Ours(s, before.containers[id]) :: Owned(s, before.containers[id])
    ensures var (w', r) := Serve(s.p.casing, w, List, o);
            SweepHolds(s, before, w', ResumeSweep(s, providerID, todo, active, r))
  {
    PendingHead(s, before, w, ids, active);
    FindsIt(s, w, o, ids[0]);
    var (w', r) := Serve(s.p.casing, w, List, o);
    hide Serve;
    hide Owned;
    hide Found;
    hide ProviderID;
    hide IsStopped;
    PendingSame(s, before, w, w', ids, active);
    hide Pending;
    assert Visiting(s, before, w', providerID, todo, active, ids);
    SeenGoesOn(s, before, w', providerID, todo, active, ids);
    hide SweepHolds;
    hide Visiting;
  }

  lemma PendingHead(s: Site, before: World, w: World, ids: seq<int>, active: bool)
    requires Pending(s, before, w, ids, active) && ids != []
    ensures ids[0] in w.containers && ids[0] in before.containers && w.containers[ids[0]] == before.containers[ids[0]]
    ensures Ours(s, before.containers[ids[0]])
  {
    hide Ours;
    hide Blocks;
    hide IsStopped;
    assert ids[0] in ids;
  }

  lemma PassOver(s: Site, before: World, w: World, ids: seq<int>, active: bool)
    requires Pending(s, before, w, ids, active) && ids != [] && ids[0] in before.containers
    requires !IsStopped(s, before.containers[ids[0]])
    ensures Pending(s, before, w, ids[1..], true)
  {
    hide Ours;
    hide IsStopped;
    var tail := ids[1..];
    assert ids == [ids[0]] + tail && ids[0] !in tail;
    assert forall id :: id in ids <==> id == ids[0] || id in tail;
    assert Blocks(s, before.containers[ids[0]]) && !Doomed(s, before.containers[ids[0]]);
    hide Doomed;
    hide Blocks;
    assert exists id | id in before.containers :: Blocks(s, before.containers[id]) && id !in tail by {
      assert Blocks(s, before.containers[ids[0]]) && ids[0] !in tail;
    }
  }

  lemma StrikeOut(s: Site, before: World, w: World, w': World, ids: seq<int>, active: bool)
    requires Pending(s, before, w, ids, active) && Removable(s, before, ids)
    requires w'.containers == w.containers - {ids[0]}
    ensures Pending(s, before, w', ids[1..], active)
  {
    hide Ours;
    hide IsStopped;
    assert ids == [ids[0]] + ids[1..];
    assert ids[0] !in ids[1..];
    assert Doomed(s, before.containers[ids[0]]) && !Blocks(s, before.containers[ids[0]]);
  }

  lemma SweepFindKeeps(s: Site, before: World, w: World, p: Proc, o: Outcome)
    requires p.SweepFind? && SweepHolds(s, before, w, p) && Faithful(Moment(w, p), o)
    requires forall id | id in before.containers && Ours(s, before.containers[id]) :: Owned(s, before.containers[id])
    ensures var (w', r) := Serve(s.p.casing, w, List, o);
            SweepHolds(s, before, w', ResumeSweep(s, p.providerID, p.todo, p.active, r))
  {
    hide Visiting;
    hide Enumerates;
    hide Owned;
    hide Ours;
    var ids :| Visiting(s, before, w, p.providerID, p.todo, p.active, ids);
    hide SweepHolds;
    VisitKeeps(s, before, w, p.providerID, p.todo, p.active, o, ids);
    hide Serve;
    hide ResumeSweep;
  }

  lemma SweepDeleteFindKeeps(s: Site, before: World, w: World, providerID: string, todo: seq<string>, active: bool, o: Outcome)
    requires var p := Deleting(DeleteFind(providerID), Sweeping(todo, active));
             SweepHolds(s, before, w, p) && Faithful(Moment(w, p), o)
    requires forall id | id in before.containers && Ours(s, before.containers[id]) :: Owned(s, before.containers[id])
    ensures var (w', r) := Serve(s.p.casing, w, List, o);
            SweepHolds(s, before, w', ResumeDelete(s, DeleteFind(providerID), Sweeping(todo, active), r))
  {
    hide Pending;
    hide Owned;
    hide Ours;
    hide IsStopped;
    var ids :| Visiting(s, before, w, providerID, todo, active, ids) && Removable(s, before, ids);
    PendingHead(s, before, w, ids, active);
    FindsIt(s, w, o, ids[0]);
    hide Serve;
    hide Found;
    hide Enumerates;
    hide ProviderID;
    var w' := Serve(s.p.casing, w, List, o).0;
    PendingSame(s, before, w, w', ids, active);
    assert Visiting(s, before, w', providerID, todo, active, ids);
    hide Visiting;
  }

  lemma SweepDeleteCallKeeps(s: Site, before: World, w: World, id: int, todo: seq<string>, active: bool, o: Outcome)
    requires SweepHolds(s, before, w, Deleting(DeleteCall(id), Sweeping(todo, active))) && o.fate == Served
    ensures var (w', r) := Serve(s.p.casing, w, Delete(id), o);
            SweepHolds(s, before, w', ResumeDelete(s, DeleteCall(id), Sweeping(todo, active), r))
  {
    hide Pending;
    hide IsStopped;
    hide ProviderID;
    var ids :| Visiting(s, before, w, ProviderID(id), todo, active, ids) && Removable(s, before, ids) && id == ids[0];
    PendingHead(s, before, w, ids, active);
    DeleteTells(s.p.casing, w, id, o);
    hide Serve;
    var w' := Serve(s.p.casing, w, Delete(id), o).0;
    StrikeOut(s, before, w, w', ids, active);
    assert todo == PIDs(ids[1..]);
    hide PIDs;
  }

  lemma SweepDeleteCheckKeeps(s: Site, before: World, w: World, id: int, todo: seq<string>, active: bool, o: Outcome)
    requires SweepHolds(s, before, w, Deleting(DeleteCheck(id), Sweeping(todo, active))) && o.fate == Served
    ensures var (w', r) := Serve(s.p.casing, w, Get(id), o);
            SweepHolds(s, before, w', ResumeDelete(s, DeleteCheck(id), Sweeping(todo, active), r))
  {
    hide Pending;
    hide ProviderID;
    var ids :| todo == PIDs(ids) && Pending(s, before, w, ids, active);
    hide PIDs;
    hide SweepHolds;
    AbsentAnswers(s.p.casing, w, id, o);
    hide Serve;
    var w' := Serve(s.p.casing, w, Get(id), o).0;
    PendingSame(s, before, w, w', ids, active);
    NextSweepHolds(s, before, w', ids, active);
    hide NextSweep;
  }

  lemma AbsentAnswers(casing: CaseMaps, w: World, id: int, o: Outcome)
    requires id !in w.containers && o.fate == Served
    ensures var (w', r) := Serve(casing, w, Get(id), o); w'.containers == w.containers && r == Failed(NotFound)
  {
    hide Wipes;
  }

  lemma SweepStepKeeps(s: Site, before: World, st: Moment, o: Outcome)
    requires SweepHolds(s, before, st.world, st.proc) && Faithful(st, o)
    requires forall id | id in before.containers && Ours(s, before.containers[id]) :: Owned(s, before.containers[id])
    ensures var next := Step(s, st, o); SweepHolds(s, before, next.world, next.proc)
  {
    hide Serve;
    hide ResumeDelete;
    hide ResumeSweep;
    hide Owned;
    hide Ours;
    hide Visiting;
    hide Removable;
    hide Pending;
    hide Swept;
    match st.proc
    case SweepList => ListStarts(s, before, st.world, o);
    case SweepFind(_, _, _) => SweepFindKeeps(s, before, st.world, st.proc, o);
    case Deleting(DeleteFind(providerID), Sweeping(todo, active)) =>
      SweepDeleteFindKeeps(s, before, st.world, providerID, todo, active, o);
    case Deleting(DeleteCall(id), Sweeping(todo, active)) => SweepDeleteCallKeeps(s, before, st.world, id, todo, active, o);
    case Deleting(DeleteCheck(id), Sweeping(todo, active)) => SweepDeleteCheckKeeps(s, before, st.world, id, todo, active, o);
    case _ =>
    hide SweepHolds;
    hide Enumerates;
  }

  ghost predicate FaithfulRun(s: Site, before: World, oracle: nat -> Outcome, i: nat, j: nat) {
    forall k | i <= k < j :: Faithful(Run(s, Moment(before, SweepList), oracle, i, k), oracle(k))
  }

  lemma {:induction false} SweepRunHolds(s: Site, before: World, oracle: nat -> Outcome, i: nat, j: nat)
    requires i <= j && FaithfulRun(s, before, oracle, i, j)
    requires forall id | id in before.containers && Ours(s, before.containers[id]) :: Owned(s, before.containers[id])
    ensures var st := Run(s, Moment(before, SweepList), oracle, i, j); SweepHolds(s, before, st.world, st.proc)
  {
    hide Step;
    hide Owned;
    hide Ours;
    hide Faithful;
    hide FaithfulRun;
    if i < j {
      var last := j - 1;
      FaithfulSoFar(s, before, oracle, i, last);
      SweepRunHolds(s, before, oracle, i, last);
      SweepStepKeeps(s, before, Run(s, Moment(before, SweepList), oracle, i, last), oracle(last));
      hide SweepHolds;
    }
  }

  lemma FaithfulSoFar(s: Site, before: World, oracle: nat -> Outcome, i: nat, last: nat)
    requires i <= last && FaithfulRun(s, before, oracle, i, last + 1)
    ensures FaithfulRun(s, before, oracle, i, last)
    ensures Faithful(Run(s, Moment(before, SweepList), oracle, i, last), oracle(last))
  {
    hide Run;
    hide Faithful;
  }

  /** Over a faithful client, when every container the manager claims checks out, `RemoveAll` ends with exactly the old
      inventory minus its stopped containers, and reports `Active` exactly when one of its containers is left. */
  lemma RemoveAllExact(s: Site, before: World, oracle: nat -> Outcome, i: nat, j: nat)
    requires i <= j && FaithfulRun(s, before, oracle, i, j)
    requires Run(s, Moment(before, Begin(RemoveAllOp)), oracle, i, j).proc.Finished?
    requires forall id | id in before.containers && Ours(s, before.containers[id]) :: Owned(s, before.containers[id])
    ensures var m := Run(s, Moment(before, Begin(RemoveAllOp)), oracle, i, j); Swept(s, before, m.world, m.proc)
  {
    hide Owned;
    hide Ours;
    hide FaithfulRun;
    hide Run;
    hide Swept;
    SweepRunHolds(s, before, oracle, i, j);
  }
}

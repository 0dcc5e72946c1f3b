/** No container operation changes what another owner has, and none removes a container it has not seen stopped. */
module ContainerRespect {
  import opened Text
  import opened Provider
  import opened Container
  import opened ContainerSafety
  import opened ContainerFailure

  predicate Owned(s: Site, c: Container) {
    Owner(s, c).Ok?
  }

  /** What an operation of `s` may have done to the inventory `before`. */
  ghost predicate Respects(s: Site, before: World, w: World) {
    && (forall id | id in before.containers && id !in w.containers ::
          Owned(s, before.containers[id]) && IsStopped(s, before.containers[id]))
    && (forall id | id in before.containers && id in w.containers ::
          w.containers[id] == before.containers[id] || Switched(s, before.containers[id], w.containers[id]))
    && (forall id | id in w.containers && id !in before.containers :: Identified(s, w.containers[id]))
  }

  /** An owned running container of which only the power state has changed. */
  predicate Switched(s: Site, c: Container, d: Container) {
    Owned(s, c) && IsRunning(s, c) && d == c.(state := d.state)
  }

  /** Nothing was added or changed, and only owned stopped containers are gone. */
  ghost predicate Pruned(s: Site, before: World, w: World) {
    && (forall id | id in w.containers :: id in before.containers && w.containers[id] == before.containers[id])
    && (forall id | id in before.containers && id !in w.containers ::
          Owned(s, before.containers[id]) && IsStopped(s, before.containers[id]))
  }

  /** What an unfinished operation other than `Create` keeps. */
  ghost predicate OpHolds(s: Site, before: World, w: World, p: Proc) {
    match p
    case Look(StopCall(id)) =>
      w.containers == before.containers && id in w.containers && Owned(s, w.containers[id]) && IsRunning(s, w.containers[id])
    case Look(StopCheck(_)) => Respects(s, before, w)
    case Look(_) => w.containers == before.containers
    case Deleting(DeleteCall(id), _) =>
      Pruned(s, before, w) && id in w.containers && Owned(s, w.containers[id]) && IsStopped(s, w.containers[id])
    case Deleting(_, _) => Pruned(s, before, w)
    case SweepList => w.containers == before.containers
    case SweepFind(_, _, _) => Pruned(s, before, w)
    case Finished(_) => Respects(s, before, w)
    case _ => false
  }

  lemma SameRespects(s: Site, before: World, w: World)
    requires w.containers == before.containers
    ensures Respects(s, before, w) && Pruned(s, before, w)
  {
  }

  lemma PrunedRespects(s: Site, before: World, w: World)
    requires Pruned(s, before, w)
    ensures Respects(s, before, w)
  {
    hide Owned;
    hide IsStopped;
    hide Switched;
  }

  // ----- what a listing finds -----

  lemma {:induction false} FindTells(w: World, ids: seq<int>, providerID: string)
    requires forall k | 0 <= k < |ids| :: ids[k] in w.containers
    ensures match Find(Itemized(w, ids), providerID)
            case None => forall k | 0 <= k < |ids| :: ProviderID(ids[k]) != providerID
            case Some(item) => item.id in ids && item.id in w.containers && item.container == w.containers[item.id]
                               && ProviderID(item.id) == providerID
  {
    hide ProviderID;
    if ids != [] { FindTells(w, ids[1..], providerID); }
  }

  lemma SameProviderID(a: int, b: int)
    requires ProviderID(a) == ProviderID(b)
    ensures a == b
  {
    DecimalInjective("container:", a, b);
  }

  lemma FoundTells(s: Site, w: World, o: Outcome, providerID: string)
    ensures var (w', r) := Serve(s.p.casing, w, List, o);
            && w'.containers == w.containers
            && (match Found(s, r, providerID)
                case Err(_) => true
                case Ok(item) => item.id in w.containers && item.container == w.containers[item.id]
                                 && ProviderID(item.id) == providerID && Owned(s, item.container))
  {
    ListTells(s.p.casing, w, o);
    var r := Serve(s.p.casing, w, List, o).1;
    hide Serve;
    hide Itemized;
    hide Owner;
    hide Find;
    hide ProviderID;
    if r.Many? { FindTells(w, o.order, providerID); }
    hide Enumerates;
  }

  // ----- every step -----

  lemma ReturnHolds(s: Site, before: World, w: World, after: After, r: Result<Unit>)
    requires Pruned(s, before, w)
    ensures OpHolds(s, before, w, Return(after, r))
  {
    PrunedRespects(s, before, w);
    hide Pruned;
    hide Respects;
  }

  lemma StoppingKeeps(s: Site, before: World, w: World, step: LookStep, o: Outcome)
    requires s.Valid() && OpHolds(s, before, w, Look(step)) && (step.StopCall? || step.StopCheck?)
    ensures var (w', r) := Serve(s.p.casing, w, LookCall(step), o);
            OpHolds(s, before, w', ResumeLook(s, step, r))
  {
    hide Serve;
    hide Owned;
    hide IsRunning;
    hide IsStopped;
    var w' := Serve(s.p.casing, w, LookCall(step), o).0;
    match step
    case StopCall(id) =>
      PowerTells(s.p.casing, w, id, Stop(id, false), o);
      SwitchedRespects(s, before, w', id);
    case StopCheck(id) =>
      GetTells(s.p.casing, w, id, o);
      RespectsSame(s, before, w, w');
    hide Respects;
  }

  lemma LookKeeps(s: Site, before: World, w: World, step: LookStep, o: Outcome)
    requires s.Valid() && OpHolds(s, before, w, Look(step)) && !step.StopCall? && !step.StopCheck?
    ensures var (w', r) := Serve(s.p.casing, w, LookCall(step), o);
            OpHolds(s, before, w', ResumeLook(s, step, r))
  {
    hide Serve;
    hide Selected;
    hide Instances;
    hide ToInstance;
    hide Found;
    hide Owned;
    hide IsRunning;
    hide IsStopped;
    ListTells(s.p.casing, w, o);
    SameRespects(s, before, Serve(s.p.casing, w, List, o).0);
    hide Respects;
    hide Pruned;
    if step.StopFind? { FoundTells(s, w, o, step.providerID); }
  }

  lemma RespectsSame(s: Site, before: World, w: World, w': World)
    requires w'.containers == w.containers
    ensures Respects(s, before, w) == Respects(s, before, w')
    ensures Pruned(s, before, w) == Pruned(s, before, w')
  {
    hide Owned;
    hide IsStopped;
    hide Switched;
    hide Identified;
  }

  lemma SwitchedRespects(s: Site, before: World, w: World, id: int)
    requires id in before.containers && Owned(s, before.containers[id]) && IsRunning(s, before.containers[id])
    requires id in w.containers && w.containers == before.containers[id := w.containers[id]]
    requires w.containers[id] == before.containers[id] || w.containers[id] == before.containers[id].(state := w.containers[id].state)
    ensures Respects(s, before, w)
  {
    hide Owned;
    hide IsStopped;
    hide IsRunning;
    hide Identified;
  }

  lemma DeleteCallKeeps(s: Site, before: World, w: World, id: int, after: After, o: Outcome)
    requires OpHolds(s, before, w, Deleting(DeleteCall(id), after))
    ensures var (w', r) := Serve(s.p.casing, w, Delete(id), o);
            OpHolds(s, before, w', ResumeDelete(s, DeleteCall(id), after, r))
  {
    hide Serve;
    hide Owned;
    hide IsStopped;
    hide Return;
    hide Respects;
    DeleteTells(s.p.casing, w, id, o);
    var (w', r) := Serve(s.p.casing, w, Delete(id), o);
    PrunedMore(s, before, w, w', id);
    hide Pruned;
    if r.Failed? { ReturnHolds(s, before, w', after, Err(r.error)); }
  }

  lemma DeleteFindKeeps(s: Site, before: World, w: World, providerID: string, after: After, o: Outcome)
    requires OpHolds(s, before, w, Deleting(DeleteFind(providerID), after))
    ensures var (w', r) := Serve(s.p.casing, w, List, o);
            OpHolds(s, before, w', ResumeDelete(s, DeleteFind(providerID), after, r))
  {
    hide Serve;
    hide Found;
    hide Owned;
    hide IsStopped;
    hide Return;
    hide Respects;
    var (w', r) := Serve(s.p.casing, w, List, o);
    FoundTells(s, w, o, providerID);
    RespectsSame(s, before, w, w');
    hide Pruned;
    match Found(s, r, providerID)
    case Err(e) => ReturnHolds(s, before, w', after, if e == NotFound then Ok(Unit.Unit) else Err(e));
    case Ok(_) => ReturnHolds(s, before, w', after, Err(Active));
  }

  lemma DeleteCheckKeeps(s: Site, before: World, w: World, id: int, after: After, o: Outcome)
    requires OpHolds(s, before, w, Deleting(DeleteCheck(id), after))
    ensures var (w', r) := Serve(s.p.casing, w, Get(id), o);
            OpHolds(s, before, w', ResumeDelete(s, DeleteCheck(id), after, r))
  {
    hide Serve;
    hide Return;
    hide Respects;
    var (w', r) := Serve(s.p.casing, w, Get(id), o);
    GetTells(s.p.casing, w, id, o);
    RespectsSame(s, before, w, w');
    hide Pruned;
    ReturnHolds(s, before, w', after,
                if r == Failed(NotFound) then Ok(Unit.Unit) else Err(if r.Failed? then r.error else ManagedDrift));
  }

  lemma DeleteKeeps(s: Site, before: World, w: World, step: DeleteStep, after: After, o: Outcome)
    requires OpHolds(s, before, w, Deleting(step, after))
    ensures var (w', r) := Serve(s.p.casing, w, DeleteStepCall(step), o);
            OpHolds(s, before, w', ResumeDelete(s, step, after, r))
  {
    hide Serve;
    hide OpHolds;
    hide ResumeDelete;
    match step
    case DeleteFind(providerID) => DeleteFindKeeps(s, before, w, providerID, after, o);
    case DeleteCall(id) => DeleteCallKeeps(s, before, w, id, after, o);
    case DeleteCheck(id) => DeleteCheckKeeps(s, before, w, id, after, o);
  }

  lemma PrunedMore(s: Site, before: World, w: World, w': World, id: int)
    requires Pruned(s, before, w) && id in w.containers && Owned(s, w.containers[id]) && IsStopped(s, w.containers[id])
    requires w'.containers == w.containers || w'.containers == w.containers - {id}
    ensures Pruned(s, before, w')
  {
    hide Owned;
    hide IsStopped;
  }

  lemma SweepKeeps(s: Site, before: World, w: World, p: Proc, o: Outcome)
    requires s.Valid() && OpHolds(s, before, w, p) && (p.SweepList? || p.SweepFind?)
    ensures var (w', r) := Serve(s.p.casing, w, List, o);
            OpHolds(s, before, w', Resume(s, p, r))
  {
    hide Serve;
    hide Found;
    hide Selected;
    hide ProviderIDs;
    hide IsStopped;
    ListTells(s.p.casing, w, o);
    var w' := Serve(s.p.casing, w, List, o).0;
    RespectsSame(s, before, w, w');
    if p.SweepList? { SameRespects(s, before, w'); }
    PrunedRespects(s, before, w');
    hide Pruned;
    hide Respects;
    hide ResumeEarly;
    hide ResumeLate;
    hide ResumeCleanup;
    hide ResumeLook;
    hide ResumeDelete;
  }

  lemma OpStepKeeps(s: Site, before: World, st: Moment, o: Outcome)
    requires s.Valid() && OpHolds(s, before, st.world, st.proc)
    ensures var next := Step(s, st, o); OpHolds(s, before, next.world, next.proc)
  {
    hide Serve;
    hide Pruned;
    hide Respects;
    hide ResumeLook;
    hide ResumeDelete;
    match st.proc
    case Look(step) =>
      if step.StopCall? || step.StopCheck? {
        StoppingKeeps(s, before, st.world, step, o);
      } else {
        LookKeeps(s, before, st.world, step, o);
      }
    case Deleting(step, after) => DeleteKeeps(s, before, st.world, step, after, o);
    case SweepList => SweepKeeps(s, before, st.world, st.proc, o);
    case SweepFind(_, _, _) => SweepKeeps(s, before, st.world, st.proc, o);
    case _ =>
    hide OpHolds;
  }

  lemma {:induction false} OpRunHolds(s: Site, op: Op, before: World, oracle: nat -> Outcome, i: nat, j: nat)
    requires s.Valid() && i <= j && !op.CreateOp?
    ensures var st := Run(s, Moment(before, Begin(op)), oracle, i, j); OpHolds(s, before, st.world, st.proc)
  {
    hide Step;
    hide OpHolds;
    if i == j {
      BeginHolds(s, op, before);
    } else {
      OpRunHolds(s, op, before, oracle, i, j - 1);
      OpStepKeeps(s, before, Run(s, Moment(before, Begin(op)), oracle, i, j - 1), oracle(j - 1));
    }
  }

  lemma BeginHolds(s: Site, op: Op, before: World)
    requires !op.CreateOp?
    ensures OpHolds(s, before, before, Begin(op))
  {
    SameRespects(s, before, before);
    hide Respects;
  }

  // ----- whole runs and whole histories -----

  /** Every operation, wherever it stops, respects the inventory it was called on. */
  lemma RunRespects(s: Site, op: Op, before: World, oracle: nat -> Outcome, i: nat, j: nat)
    requires s.Valid() && i <= j
    ensures Respects(s, before, Run(s, Moment(before, Begin(op)), oracle, i, j).world)
  {
    hide Step;
    hide Respects;
    hide OpHolds;
    hide CreateHolds;
    var m := Run(s, Moment(before, Begin(op)), oracle, i, j);
    if op.CreateOp? {
      CreateRunHolds(s, op.b, before, oracle, i, j);
      HoldsAddAtMostOne(s, op.b, before, m.world, m.proc);
      hide Mine;
      AddedRespects(s, op.b, before, m.world);
    } else {
      OpRunHolds(s, op, before, oracle, i, j);
      HoldingRespects(s, before, m.world, m.proc);
    }
  }

  lemma HoldingRespects(s: Site, before: World, w: World, p: Proc)
    requires OpHolds(s, before, w, p)
    ensures Respects(s, before, w)
  {
    hide Respects;
    if w.containers == before.containers { SameRespects(s, before, w); }
    if Pruned(s, before, w) { PrunedRespects(s, before, w); }
    hide Pruned;
    hide Owned;
    hide IsRunning;
    hide IsStopped;
  }

  lemma AddedRespects(s: Site, b: Bootstrap, before: World, w: World)
    requires forall id | id in before.containers :: id in w.containers && w.containers[id] == before.containers[id]
    requires forall id | id in w.containers && id !in before.containers :: Mine(s, b, w.containers[id])
    ensures Respects(s, before, w)
  {
    hide Owned;
    hide Unscrubbed;
    hide Scrubbed;
    hide Named;
    hide Switched;
  }

  /** At every call of every operation: what it is about to delete is its own, and stopped. */
  lemma DeletesOnlyStopped(s: Site, op: Op, before: World, oracle: nat -> Outcome, i: nat, j: nat)
    requires s.Valid() && i <= j
    requires var p := Run(s, Moment(before, Begin(op)), oracle, i, j).proc; !p.Finished? && Wants(s, p).Delete?
    ensures var m := Run(s, Moment(before, Begin(op)), oracle, i, j);
            var id := Wants(s, m.proc).id;
            id in m.world.containers && IsStopped(s, m.world.containers[id]) && Identified(s, m.world.containers[id])
  {
    hide Step;
    var m := Run(s, Moment(before, Begin(op)), oracle, i, j);
    if op.CreateOp? {
      CreateRunHolds(s, op.b, before, oracle, i, j);
      DiscardIsOwn(s, op.b, before, m);
    } else {
      OpRunHolds(s, op, before, oracle, i, j);
      DeletedIsOwn(s, before, m);
    }
    hide CreateHolds;
    hide OpHolds;
    hide IsStopped;
    hide Identified;
    hide Requested;
  }

  lemma DiscardIsOwn(s: Site, b: Bootstrap, before: World, m: Moment)
    requires CreateHolds(s, b, before, m.world, m.proc) && !m.proc.Finished? && Wants(s, m.proc).Delete?
    ensures var id := Wants(s, m.proc).id;
            id in m.world.containers && IsStopped(s, m.world.containers[id]) && Identified(s, m.world.containers[id])
  {
    hide LateHolds;
    hide Holding;
    hide Unscrubbed;
    hide Scrubbed;
    hide Named;
    hide Requested;
    hide IsStopped;
  }

  lemma DeletedIsOwn(s: Site, before: World, m: Moment)
    requires OpHolds(s, before, m.world, m.proc) && !m.proc.Finished? && Wants(s, m.proc).Delete?
    ensures var id := Wants(s, m.proc).id;
            id in m.world.containers && IsStopped(s, m.world.containers[id]) && Identified(s, m.world.containers[id])
  {
    hide Pruned;
    hide Respects;
    hide Steady;
    hide IsStopped;
  }

  /** One operation of one manager, stopped after so many of its calls. */
  datatype Episode = Episode(site: Site, op: Op, oracle: nat -> Outcome, calls: nat)

  function Aftermath(w: World, episodes: seq<Episode>): World
    decreases |episodes|
  {
    if episodes == [] then w
    else
      var e := episodes[|episodes| - 1];
      Run(e.site, Moment(Aftermath(w, episodes[..|episodes| - 1]), Begin(e.op)), e.oracle, 0, e.calls).world
  }

  /** Over any sequence of operations of any managers, each cut off anywhere, a container that none of them owns stays
      exactly as it was. */
  lemma {:induction false} ForeignUntouched(w: World, episodes: seq<Episode>, id: int)
    requires id in w.containers
    requires forall e | e in episodes :: e.site.Valid() && !Identified(e.site, w.containers[id])
    ensures id in Aftermath(w, episodes).containers && Aftermath(w, episodes).containers[id] == w.containers[id]
    decreases |episodes|
  {
    hide Identified;
    hide Run;
    if episodes != [] {
      var (init, e) := (episodes[..|episodes| - 1], episodes[|episodes| - 1]);
      assert e in episodes;
      ForeignUntouched(w, init, id);
      RunRespects(e.site, e.op, Aftermath(w, init), e.oracle, 0, e.calls);
      OwnedIsIdentified(e.site, w.containers[id]);
      hide Owned;
      hide IsStopped;
      hide IsRunning;
    }
  }

  lemma OwnedIsIdentified(s: Site, c: Container)
    ensures Owned(s, c) ==> Identified(s, c)
  {
    hide Identified;
    hide Steady;
  }

  /** Over any such sequence a container disappears only in an operation of its owner that found it stopped. */
  lemma {:induction false} LostOnlyStopped(w: World, episodes: seq<Episode>, id: int)
    requires id in w.containers && id !in Aftermath(w, episodes).containers
    requires forall e | e in episodes :: e.site.Valid()
    ensures exists k :: 0 <= k < |episodes| && Removes(w, episodes, k, id)
    decreases |episodes|
  {
    hide Run;
    hide Removes;
    if episodes != [] {
      var n := |episodes| - 1;
      var (init, e) := (episodes[..n], episodes[n]);
      assert episodes[..n + 1] == episodes && e in episodes;
      if id in Aftermath(w, init).containers {
        RunRespects(e.site, e.op, Aftermath(w, init), e.oracle, 0, e.calls);
        RemovesNow(w, episodes, n, id);
      } else {
        LostOnlyStopped(w, init, id);
        var k :| 0 <= k < |init| && Removes(w, init, k, id);
        assert init[..k] == episodes[..k] && init[..k + 1] == episodes[..k + 1] && init[k] == episodes[k];
        RemovesPrefix(w, init, episodes, k, id);
      }
    }
  }

  /** Episode `k` takes container `id` away, which its manager owns and which was stopped before it. */
  ghost predicate Removes(w: World, episodes: seq<Episode>, k: nat, id: int)
    requires k < |episodes|
  {
    var (earlier, later) := (Aftermath(w, episodes[..k]).containers, Aftermath(w, episodes[..k + 1]).containers);
    && id in earlier && id !in later
    && Owned(episodes[k].site, earlier[id]) && IsStopped(episodes[k].site, earlier[id])
  }

  lemma RemovesNow(w: World, episodes: seq<Episode>, n: nat, id: int)
    requires |episodes| == n + 1 && id in Aftermath(w, episodes[..n]).containers && id !in Aftermath(w, episodes).containers
    requires Respects(episodes[n].site, Aftermath(w, episodes[..n]), Aftermath(w, episodes))
    ensures Removes(w, episodes, n, id)
  {
    hide Aftermath;
    hide Owned;
    hide IsStopped;
    hide Switched;
    hide Identified;
    assert episodes[..n + 1] == episodes;
  }

  lemma RemovesPrefix(w: World, init: seq<Episode>, episodes: seq<Episode>, k: nat, id: int)
    requires k < |init| && k < |episodes| && Removes(w, init, k, id)
    requires init[..k] == episodes[..k] && init[..k + 1] == episodes[..k + 1] && init[k] == episodes[k]
    ensures Removes(w, episodes, k, id)
  {
    hide Aftermath;
    hide Owned;
    hide IsStopped;
  }
}

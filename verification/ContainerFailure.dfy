/** What a failing, dying or repeated `Create` of the container backend leaves behind. */
module ContainerFailure {
  import opened Text
  import opened Names
  import opened Provider
  import opened Container
  import opened ContainerSafety
  import opened ContainerCreate

  /** Wherever a `Create` stops, every container that was there is untouched, there is at most one more, and that one
      is the caller's: named and owned as asked, and without the token in its persisted environment. */
  lemma CreateAddsAtMostOne(s: Site, b: Bootstrap, before: World, oracle: nat -> Outcome, i: nat, j: nat)
    requires s.Valid() && i <= j
    ensures var w := Creation(s, b, before, oracle, i, j).world;
            && (forall id | id in before.containers :: id in w.containers && w.containers[id] == before.containers[id])
            && (forall id, id' | id in w.containers && id' in w.containers ::
                  id in before.containers || id' in before.containers || id == id')
            && (forall id | id in w.containers && id !in before.containers ::
                  Mine(s, b, w.containers[id]) && InstanceToken !in w.containers[id].env)
  {
    hide Step;
    hide CreateHolds;
    hide Mine;
    CreateRunHolds(s, b, before, oracle, i, j);
    var m := Creation(s, b, before, oracle, i, j);
    HoldsAddAtMostOne(s, b, before, m.world, m.proc);
    hide Creation;
    forall id | id in m.world.containers && id !in before.containers
      ensures InstanceToken !in m.world.containers[id].env
    {
      NoTokenInEnv(s, b, m.world.containers[id]);
    }
  }

  lemma HoldsAddAtMostOne(s: Site, b: Bootstrap, before: World, w: World, p: Proc)
    requires CreateHolds(s, b, before, w, p)
    ensures forall id | id in before.containers :: id in w.containers && w.containers[id] == before.containers[id]
    ensures forall id, id' | id in w.containers && id' in w.containers ::
              id in before.containers || id' in before.containers || id == id'
    ensures forall id | id in w.containers && id !in before.containers :: Mine(s, b, w.containers[id])
  {
    hide Mine;
    hide LateHolds;
    hide Delivered;
    hide Adopted;
    hide RootOf;
    hide Alone;
    hide IsStopped;
  }

  lemma NoTokenInEnv(s: Site, b: Bootstrap, c: Container)
    ensures Mine(s, b, c) ==> InstanceToken !in c.env
  {
    hide Named;
    hide OwnerRecord;
    hide BOOTSTRAP_INIT;
    hide DEFAULT_INIT;
  }

  // ----- failures -----

  /** A reading call that comes back with what TrueNAS holds. */
  predicate Answered(o: Outcome) {
    o.fate == Served || o.fate == Ignored
  }

  /** A changing call that takes effect. */
  predicate Effective(o: Outcome) {
    o.fate == Served || o.fate == Lost
  }

  /** Whether the cleanup calls from number `k` on get rid of a container found as `c`. */
  predicate Discards(s: Site, c: Container, oracle: nat -> Outcome, k: nat) {
    if IsRunning(s, c) then
      && Answered(oracle(k)) && oracle(k + 1).fate == Served && Answered(oracle(k + 2))
      && IsStopped(s, c.(state := oracle(k + 1).state)) && Effective(oracle(k + 3))
    else
      Answered(oracle(k)) && Answered(oracle(k + 1)) && IsStopped(s, c) && Effective(oracle(k + 2))
  }

  lemma DiscardRun(s: Site, before: World, st: Moment, oracle: nat -> Outcome, k: nat, j: nat, id: int, error: Error)
    requires OnlyNew(before, st.world, id) && st.proc == Cleanup(id, error, Discard)
    requires k <= j && Run(s, st, oracle, k, j).proc.Finished?
    ensures var end := Run(s, st, oracle, k, j);
            end.proc == Fail(error) && (end.world.containers == before.containers <==> Effective(oracle(k)))
  {
    hide Run;
    RunNext(s, st, oracle, k, j);
    var next := Step(s, st, oracle(k));
    DeleteTells(s.p.casing, st.world, id, oracle(k));
    hide Serve;
    RunRests(s, next, oracle, k + 1, j);
    assert st.world.containers - {id} == before.containers;
  }

  lemma RecheckRun(s: Site, before: World, st: Moment, oracle: nat -> Outcome, k: nat, j: nat, id: int, error: Error)
    requires OnlyNew(before, st.world, id) && st.proc == Cleanup(id, error, Recheck)
    requires k <= j && Run(s, st, oracle, k, j).proc.Finished?
    ensures var end := Run(s, st, oracle, k, j);
            && end.proc == Fail(error)
            && (end.world.containers == before.containers <==>
                Answered(oracle(k)) && IsStopped(s, st.world.containers[id]) && Effective(oracle(k + 1)))
  {
    hide Run;
    RunNext(s, st, oracle, k, j);
    var next := Step(s, st, oracle(k));
    GetAnswers(s.p.casing, st.world, id, oracle(k));
    hide Serve;
    hide IsStopped;
    if next.proc.Finished? {
      RunRests(s, next, oracle, k + 1, j);
    } else {
      hide Step;
      DiscardRun(s, before, next, oracle, k + 1, j, id, error);
    }
  }

  lemma GetAnswers(casing: CaseMaps, w: World, id: int, o: Outcome)
    requires id in w.containers
    ensures var (w', r) := Serve(casing, w, Get(id), o);
            && w'.containers == w.containers
            && r == if Answered(o) then One(Item(id, w.containers[id])) else Failed(Other)
  {
    hide Wipes;
  }

  lemma CleanupRun(s: Site, before: World, st: Moment, oracle: nat -> Outcome, k: nat, j: nat, id: int, error: Error)
    requires s.Valid() && OnlyNew(before, st.world, id) && st.proc == Cleanup(id, error, Observe)
    requires k <= j && Run(s, st, oracle, k, j).proc.Finished?
    ensures var end := Run(s, st, oracle, k, j);
            && end.proc == Fail(error)
            && (end.world.containers == before.containers <==> Discards(s, st.world.containers[id], oracle, k))
  {
    hide Run;
    RunNext(s, st, oracle, k, j);
    var next := Step(s, st, oracle(k));
    GetAnswers(s.p.casing, st.world, id, oracle(k));
    hide Serve;
    hide IsStopped;
    hide IsRunning;
    if next.proc.Finished? {
      RunRests(s, next, oracle, k + 1, j);
    } else if IsRunning(s, st.world.containers[id]) {
      hide Step;
      ForceStopRun(s, before, next, oracle, k + 1, j, id, error);
    } else {
      hide Step;
      RecheckRun(s, before, next, oracle, k + 1, j, id, error);
    }
  }

  lemma ForceStopRun(s: Site, before: World, st: Moment, oracle: nat -> Outcome, k: nat, j: nat, id: int, error: Error)
    requires s.Valid() && OnlyNew(before, st.world, id) && st.proc == Cleanup(id, error, ForceStop)
    requires IsRunning(s, st.world.containers[id])
    requires k <= j && Run(s, st, oracle, k, j).proc.Finished?
    ensures var end := Run(s, st, oracle, k, j);
            && end.proc == Fail(error)
            && (end.world.containers == before.containers <==>
                && oracle(k).fate == Served && Answered(oracle(k + 1))
                && IsStopped(s, st.world.containers[id].(state := oracle(k).state)) && Effective(oracle(k + 2)))
  {
    hide Run;
    RunNext(s, st, oracle, k, j);
    var next := Step(s, st, oracle(k));
    PowerTells(s.p.casing, st.world, id, Stop(id, true), oracle(k));
    NotBoth(s, st.world.containers[id]);
    hide Serve;
    hide IsStopped;
    hide IsRunning;
    if next.proc.Finished? {
      RunRests(s, next, oracle, k + 1, j);
    } else {
      assert next.proc == Cleanup(id, error, Recheck) && OnlyNew(before, next.world, id);
      hide Step;
      RecheckRun(s, before, next, oracle, k + 1, j, id, error);
    }
  }

  /** A `Create` that reaches its cleanup fails with the error that sent it there, and has restored the inventory
      exactly when the cleanup calls got rid of its container. */
  lemma FailureRestoresExactly(s: Site, b: Bootstrap, before: World, oracle: nat -> Outcome, i: nat, k: nat, j: nat)
    requires s.Valid() && i <= k <= j
    requires var p := Creation(s, b, before, oracle, i, k).proc; p.Cleanup? && p.clean == Observe
    requires Creation(s, b, before, oracle, i, j).proc.Finished?
    ensures var (m, end) := (Creation(s, b, before, oracle, i, k), Creation(s, b, before, oracle, i, j));
            && m.proc.id in m.world.containers
            && end.proc == Fail(m.proc.error)
            && (end.world.containers == before.containers <==>
                Discards(s, m.world.containers[m.proc.id], oracle, k))
  {
    hide Step;
    hide Discards;
    var m := Creation(s, b, before, oracle, i, k);
    CreateRunHolds(s, b, before, oracle, i, k);
    CleanupOwns(s, b, before, m);
    RunSplits(s, Moment(before, Begin(CreateOp(b))), oracle, i, k, j);
    hide Run;
    CleanupRun(s, before, m, oracle, k, j, m.proc.id, m.proc.error);
  }

  lemma CleanupOwns(s: Site, b: Bootstrap, before: World, m: Moment)
    requires CreateHolds(s, b, before, m.world, m.proc) && m.proc.Cleanup?
    ensures OnlyNew(before, m.world, m.proc.id)
  {
    hide Mine;
  }

  /** The call to `Create` in which the container came into being. */
  ghost predicate Conceives(s: Site, b: Bootstrap, m: Moment, o: Outcome) {
    m.proc.Early? && m.proc.early.AskCreate? && Makes(m.world, Requested(s, b, m.proc.early.image), o)
  }

  ghost predicate Conceived(s: Site, b: Bootstrap, before: World, oracle: nat -> Outcome, i: nat, j: nat) {
    exists k :: i <= k < j && Conceives(s, b, Creation(s, b, before, oracle, i, k), oracle(k))
  }

  predicate Failing(p: Proc) {
    p.Finished? && p.answer.Single? && p.answer.instance.Err?
  }

  lemma EarlyShape(s: Site, b: Bootstrap, before: World, m: Moment, o: Outcome)
    requires s.Valid() && CreateHolds(s, b, before, m.world, m.proc) && m.proc.Early?
    ensures var next := Step(s, m, o);
            if Conceives(s, b, m, o) then next.proc.Late? || next.proc.Cleanup?
                                          || (Failing(next.proc) && next.world.containers != before.containers)
            else next.world.containers == before.containers && (next.proc.Early? || Succeeded(next.proc) || Failing(next.proc))
  {
    hide Serve;
    hide Makes;
    hide Requested;
    if m.proc.early.AskCreate? {
      MakingShape(s, b, m.world, m.proc.early.image, o);
    } else {
      QuietCall(s.p.casing, m.world, EarlyCall(s, b, m.proc.early), o);
      AskingShape(s, b, m.proc.early, Serve(s.p.casing, m.world, EarlyCall(s, b, m.proc.early), o).1);
    }
    hide ResumeEarly;
    hide Failing;
    hide Succeeded;
  }

  lemma AskingShape(s: Site, b: Bootstrap, step: EarlyStep, r: Reply)
    requires !step.AskCreate?
    ensures var q := ResumeEarly(s, b, step, r); q.Early? || Succeeded(q) || Failing(q)
  {
    hide VerifyOwnership;
    hide TrimSpace;
    hide Trouble;
    hide ToInstance;
  }

  lemma MakingShape(s: Site, b: Bootstrap, w: World, image: Image, o: Outcome)
    ensures var spec := Requested(s, b, image);
            var (w', r) := Serve(s.p.casing, w, Create(spec), o);
            var q := ResumeEarly(s, b, AskCreate(image), r);
            if Makes(w, spec, o) then q.Late? || q.Cleanup? || (Failing(q) && w'.containers != w.containers)
            else w'.containers == w.containers && Failing(q)
  {
    hide Serve;
    hide Makes;
    hide Requested;
    hide ResumeEarly;
    hide Failing;
    var spec := Requested(s, b, image);
    CreateTells(s.p.casing, w, spec, o);
    ReplyShape(s, b, image, Serve(s.p.casing, w, Create(spec), o).1);
    if Makes(w, spec, o) { MakesFresh(w, spec, o); }
    hide Made;
  }

  lemma ReplyShape(s: Site, b: Bootstrap, image: Image, r: Reply)
    ensures var q := ResumeEarly(s, b, AskCreate(image), r);
            if r.One? then q.Late? || q.Cleanup? || Failing(q) else Failing(q)
  {
    hide Admitted;
    hide Failing;
    if r.One? { AdmittedShape(s, b, r.item); } else { FailsFailing(Trouble(r)); }
    hide TrimSpace;
    hide VerifyOwnership;
    hide ToInstance;
  }

  lemma FailsFailing(e: Error)
    ensures Failing(Fail(e))
  {
  }

  lemma MakesFresh(w: World, spec: Container, o: Outcome)
    requires Makes(w, spec, o)
    ensures w.containers[o.id := Made(spec, o)] != w.containers
  {
    hide Unclaimed;
    hide Made;
    assert o.id in w.containers[o.id := Made(spec, o)];
  }

  lemma AdmittedShape(s: Site, b: Bootstrap, made: Item)
    ensures var p := Admitted(s, b, made); p.Late? || p.Cleanup? || Failing(p)
  {
    hide VerifyBootstrap;
    hide RootOf;
    hide StagingPath;
    hide Files;
  }

  lemma LateShape(s: Site, p: Proc, r: Reply)
    requires p.Late?
    ensures var q := Resume(s, p, r); q.Late? || q.Cleanup? || Succeeded(q)
  {
    hide VerifyOwnership;
    hide StagingPath;
    hide ReadsBack;
    hide ToInstance;
    hide Trouble;
  }

  lemma NextShape(s: Site, b: Bootstrap, before: World, m: Moment, o: Outcome)
    requires s.Valid() && CreateHolds(s, b, before, m.world, m.proc) && !m.proc.Cleanup?
    ensures var next := Step(s, m, o);
            && (m.proc.Finished? ==> next == m)
            && (m.proc.Late? ==> next.proc.Late? || next.proc.Cleanup? || Succeeded(next.proc))
            && (m.proc.Finished? || m.proc.Late? || m.proc.Early?)
  {
    if m.proc.Late? { LateShape(s, m.proc, Serve(s.p.casing, m.world, Wants(s, m.proc), o).1); }
    hide Serve;
    hide Resume;
    hide Holding;
    hide LateHolds;
  }

  /** Where a `Create` stands that has not come to its cleanup, given whether its `Create` call has taken effect. */
  ghost predicate Standing(before: World, m: Moment, conceived: bool) {
    if conceived
    then m.proc.Late? || Succeeded(m.proc) || (Failing(m.proc) && m.world.containers != before.containers)
    else m.world.containers == before.containers && (m.proc.Early? || Succeeded(m.proc) || Failing(m.proc))
  }

  lemma StandingStep(s: Site, b: Bootstrap, before: World, m: Moment, o: Outcome, conceived: bool)
    requires s.Valid() && CreateHolds(s, b, before, m.world, m.proc) && Standing(before, m, conceived)
    requires !Step(s, m, o).proc.Cleanup?
    ensures Standing(before, Step(s, m, o), conceived || Conceives(s, b, m, o))
  {
    NextShape(s, b, before, m, o);
    if m.proc.Early? { EarlyShape(s, b, before, m, o); }
    assert Conceives(s, b, m, o) ==> m.proc.Early? by { hide Makes; }
    hide Step;
    hide CreateHolds;
    hide Conceives;
  }

  ghost predicate NeverCleans(s: Site, b: Bootstrap, before: World, oracle: nat -> Outcome, i: nat, j: nat) {
    forall k | i <= k <= j :: !Creation(s, b, before, oracle, i, k).proc.Cleanup?
  }

  /** A `Create` that never comes to its cleanup leaves the inventory as it was, or fails and leaves its container
      behind exactly when its `Create` call took effect. */
  lemma {:induction false} WithoutCleanup(s: Site, b: Bootstrap, before: World, oracle: nat -> Outcome, i: nat, j: nat)
    requires s.Valid() && i <= j && NeverCleans(s, b, before, oracle, i, j)
    ensures Standing(before, Creation(s, b, before, oracle, i, j), Conceived(s, b, before, oracle, i, j))
  {
    hide Step;
    hide CreateHolds;
    hide Conceives;
    hide Standing;
    hide Conceived;
    if i == j {
      BeginStands(s, b, before, oracle, i);
    } else {
      var last := j - 1;
      assert NeverCleans(s, b, before, oracle, i, last);
      assert !Creation(s, b, before, oracle, i, j).proc.Cleanup?;
      hide NeverCleans;
      WithoutCleanup(s, b, before, oracle, i, last);
      CreateRunHolds(s, b, before, oracle, i, last);
      StandingStep(s, b, before, Creation(s, b, before, oracle, i, last), oracle(last),
                   Conceived(s, b, before, oracle, i, last));
      ConceivedNow(s, b, before, oracle, i, last);
    }
  }

  lemma BeginStands(s: Site, b: Bootstrap, before: World, oracle: nat -> Outcome, i: nat)
    ensures Standing(before, Creation(s, b, before, oracle, i, i), Conceived(s, b, before, oracle, i, i))
  {
    hide Accepts;
    hide Step;
  }

  lemma ConceivedNow(s: Site, b: Bootstrap, before: World, oracle: nat -> Outcome, i: nat, last: nat)
    requires i <= last
    ensures Conceived(s, b, before, oracle, i, last + 1)
       <==> Conceived(s, b, before, oracle, i, last) || Conceives(s, b, Creation(s, b, before, oracle, i, last), oracle(last))
    ensures Conceives(s, b, Creation(s, b, before, oracle, i, last), oracle(last)) ==>
              Creation(s, b, before, oracle, i, last).proc.Early?
  {
    hide Creation;
    hide Makes;
    if Conceived(s, b, before, oracle, i, last + 1) {
      var k :| i <= k < last + 1 && Conceives(s, b, Creation(s, b, before, oracle, i, k), oracle(k));
    }
  }

  // ----- repeating a Create -----

  /** The name query of a repeated `Create` finds container `id`. */
  predicate FindsItsName(s: Site, b: Bootstrap, before: World, oracle: nat -> Outcome, i: nat, id: int) {
    && Accepts(b)
    && Answered(oracle(i)) && TrimSpace(oracle(i).text) == TrimSpace(s.systemVersion)
    && Answered(oracle(i + 1)) && oracle(i + 1).id == id
    && id in before.containers && before.containers[id].name == Named(s, b)
  }

  /** A repeated `Create` adopts the container of its name exactly when its owner, pool and steady runtime check out.
      It is running or stopped; whether its token file was ever removed is not asked: `before.files` is arbitrary. */
  lemma AdoptionExactly(s: Site, b: Bootstrap, before: World, oracle: nat -> Outcome, i: nat, id: int)
    requires FindsItsName(s, b, before, oracle, i, id)
    ensures var m := Creation(s, b, before, oracle, i, i + 2);
            var c := before.containers[id];
            && m.world.containers == before.containers && m.proc.Finished? && m.proc.answer.Single?
            && (m.proc.answer.instance == Ok(ToInstance(s, Item(id, c), b.poolID)) <==>
                Identified(s, c) && Steady(s.p.casing, c) && InPool(c, b.poolID))
  {
    VersionAnswers(s, b, before, oracle(i));
    var m := Step(s, Moment(before, Early(b, AskVersion)), oracle(i));
    hide Step;
    assert Creation(s, b, before, oracle, i, i + 1) == Step(s, Creation(s, b, before, oracle, i, i), oracle(i));
    assert Creation(s, b, before, oracle, i, i) == Moment(before, Early(b, AskVersion));
    NameAnswers(s, b, m.world, oracle(i + 1), id);
    hide Accepts;
    hide TrimSpace;
    hide VerifyOwnership;
    hide Steady;
    hide Identified;
    hide InPool;
    hide ToInstance;
    hide Named;
    assert Creation(s, b, before, oracle, i, i + 2) == Step(s, m, oracle(i + 1));
  }

  lemma VersionAnswers(s: Site, b: Bootstrap, w: World, o: Outcome)
    requires Answered(o) && TrimSpace(o.text) == TrimSpace(s.systemVersion)
    ensures var m := Step(s, Moment(w, Early(b, AskVersion)), o);
            m.proc == Early(b, AskName) && m.world.containers == w.containers
  {
    hide Wipes;
    hide TrimSpace;
    hide ResumeLate;
    hide ResumeCleanup;
    hide ResumeLook;
    hide ResumeDelete;
    hide ResumeSweep;
  }

  lemma NameAnswers(s: Site, b: Bootstrap, w: World, o: Outcome, id: int)
    requires Answered(o) && o.id == id && id in w.containers && w.containers[id].name == Named(s, b)
    ensures var m := Step(s, Moment(w, Early(b, AskName)), o);
            var c := w.containers[id];
            && m.world.containers == w.containers && m.proc.Finished? && m.proc.answer.Single?
            && (m.proc.answer.instance == Ok(ToInstance(s, Item(id, c), b.poolID)) <==>
                Identified(s, c) && Steady(s.p.casing, c) && InPool(c, b.poolID))
  {
    hide Wipes;
    hide Steady;
    hide Identified;
    hide InPool;
    hide ToInstance;
    hide Named;
    hide ResumeLate;
    hide ResumeCleanup;
    hide ResumeLook;
    hide ResumeDelete;
    hide ResumeSweep;
  }
}

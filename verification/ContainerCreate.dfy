/** What `Create` of the container backend promises over whole runs. */
module ContainerCreate {
  import opened Text
  import opened Provider
  import opened Container
  import opened ContainerSafety

  // ----- runs -----

  lemma {:induction false} RunSplits(s: Site, st: Moment, oracle: nat -> Outcome, i: nat, k: nat, j: nat)
    requires i <= k <= j
    ensures Run(s, st, oracle, i, j) == Run(s, Run(s, st, oracle, i, k), oracle, k, j)
  {
    hide Step;
    if k < j { RunSplits(s, st, oracle, i, k, j - 1); }
  }

  lemma {:induction false} RunRests(s: Site, st: Moment, oracle: nat -> Outcome, i: nat, j: nat)
    requires i <= j && st.proc.Finished?
    ensures Run(s, st, oracle, i, j) == st
  {
    hide Serve;
    hide Resume;
    if i < j { RunRests(s, st, oracle, i, j - 1); }
  }

  lemma RunNext(s: Site, st: Moment, oracle: nat -> Outcome, i: nat, j: nat)
    requires i <= j && !st.proc.Finished? && Run(s, st, oracle, i, j).proc.Finished?
    ensures i < j && Run(s, Step(s, st, oracle(i)), oracle, i + 1, j) == Run(s, st, oracle, i, j)
  {
    hide Step;
    RunSplits(s, st, oracle, i, i + 1, j);
    assert Run(s, st, oracle, i, i + 1) == Step(s, Run(s, st, oracle, i, i), oracle(i));
  }

  function Creation(s: Site, b: Bootstrap, before: World, oracle: nat -> Outcome, i: nat, j: nat): Moment
    requires i <= j
  {
    Run(s, Moment(before, Begin(CreateOp(b))), oracle, i, j)
  }

  // ----- a successful Create -----

  /** The moment of a `Create` just before it starts its container, with every plan file in place. */
  ghost predicate ReadyToStart(s: Site, b: Bootstrap, m: Moment, id: int, mount: string) {
    m.proc == Late(b, id, mount, StartIt) && AllOnDisk(m.world.files, mount, Files(s, b))
  }

  predicate AfterStart(p: Proc) {
    p.Late? && (p.late.Scrub? || p.late.ReadBack? || p.late.ProveAbsent?)
  }

  /** The later steps of `Create` are reached only one from the other. */
  lemma LateComesFrom(s: Site, p: Proc, r: Reply)
    requires !p.Finished? && AfterStart(Resume(s, p, r))
    ensures var q := Resume(s, p, r);
            p.Late? && p.b == q.b && p.id == q.id && p.mount == q.mount && (p.late == StartIt || AfterStart(p))
  {
    hide VerifyOwnership;
    hide VerifyBootstrap;
    hide RootOf;
    hide Files;
    hide StagingPath;
    hide Found;
    hide Selected;
    hide ReadsBack;
  }

  lemma {:induction false} StartCameFirst(s: Site, b: Bootstrap, before: World, oracle: nat -> Outcome, i: nat, j: nat)
    requires s.Valid() && i <= j && AfterStart(Creation(s, b, before, oracle, i, j).proc)
    ensures var p := Creation(s, b, before, oracle, i, j).proc;
            exists k :: i <= k < j && ReadyToStart(s, b, Creation(s, b, before, oracle, i, k), p.id, p.mount)
  {
    hide Serve;
    hide Resume;
    hide ReadyToStart;
    if i < j {
      var prev := Creation(s, b, before, oracle, i, j - 1);
      var q := Creation(s, b, before, oracle, i, j).proc;
      var (w', r) := Serve(s.p.casing, prev.world, Wants(s, prev.proc), oracle(j - 1));
      LateComesFrom(s, prev.proc, r);
      if AfterStart(prev.proc) {
        StartCameFirst(s, b, before, oracle, i, j - 1);
      } else {
        CreateRunHolds(s, b, before, oracle, i, j - 1);
        StartIsReady(s, b, before, prev, q.id, q.mount);
      }
    }
  }

  lemma StartIsReady(s: Site, b: Bootstrap, before: World, m: Moment, id: int, mount: string)
    requires CreateHolds(s, b, before, m.world, m.proc)
    requires m.proc.Late? && m.proc.id == id && m.proc.mount == mount && m.proc.late == StartIt
    ensures ReadyToStart(s, b, m, id, mount)
  {
    hide AllOnDisk;
    hide Holding;
    hide Files;
  }

  /** A step at which the written file is read back under its own path, and matches in size and mode. */
  ghost predicate Confirms(s: Site, m: Moment, o: Outcome, mount: string, f: Staged) {
    && m.proc.Late? && m.proc.mount == mount && m.proc.late.StatIt? && m.proc.late.file == f
    && m.proc.late.full == mount + f.path
    && ReadsBack(Serve(s.p.casing, m.world, StatFile(mount + f.path), o).1, f)
  }

  function Remaining(step: LateStep): seq<Staged> {
    match step
    case PutIt(file, _, todo) => [file] + todo
    case StatIt(file, _, todo) => [file] + todo
    case _ => []
  }

  lemma RemainingShrinks(s: Site, p: Proc, r: Reply, f: Staged)
    requires !p.Finished? && Resume(s, p, r).Late?
    requires var q := Resume(s, p, r); f in Files(s, q.b) && f !in Remaining(q.late)
    ensures var q := Resume(s, p, r);
            && p.Late? && p.b == q.b && p.mount == q.mount && p.id == q.id
            && (f !in Remaining(p.late) || (p.late.StatIt? && p.late.file == f && ReadsBack(r, f)))
  {
    hide VerifyOwnership;
    hide VerifyBootstrap;
    hide RootOf;
    hide Files;
    hide StagingPath;
    hide Found;
    hide Selected;
    hide ReadsBack;
    hide Trouble;
    if p.Early? && p.early.AskCreate? && r.One? {
      NextFileRemains(p.b, r.item.id, RootOf(r.item.container), Files(s, p.b));
    }
    if p.Late? && p.late.StatIt? { NextFileRemains(p.b, p.id, Some(p.mount), p.late.todo); }
    hide NextFile;
  }

  lemma NextFileRemains(b: Bootstrap, id: int, mount: Option<string>, todo: seq<Staged>)
    ensures mount.Some? ==> var q := NextFile(b, id, mount.value, todo);
              q.Finished? || q.Cleanup? ||
              (q.Late? && q.b == b && q.id == id && q.mount == mount.value && Remaining(q.late) == todo)
  {
    hide StagingPath;
    assert todo != [] ==> [todo[0]] + todo[1..] == todo;
  }

  /** Every file that staging has left behind was read back and matched. */
  lemma {:induction false} LeftFilesConfirmed(s: Site, b: Bootstrap, before: World, oracle: nat -> Outcome, i: nat,
                                              j: nat, f: Staged)
    requires s.Valid() && i <= j && f in Files(s, b)
    requires var p := Creation(s, b, before, oracle, i, j).proc; p.Late? && f !in Remaining(p.late)
    ensures var mount := Creation(s, b, before, oracle, i, j).proc.mount;
            exists k :: i <= k < j && Confirms(s, Creation(s, b, before, oracle, i, k), oracle(k), mount, f)
  {
    hide Step;
    hide CreateHolds;
    hide Remaining;
    hide Files;
    hide Confirms;
    if i < j {
      CreateRunHolds(s, b, before, oracle, i, j - 1);
      var prev := Creation(s, b, before, oracle, i, j - 1);
      ConfirmedOrBefore(s, b, before, prev, oracle(j - 1), f);
      if !Confirms(s, prev, oracle(j - 1), prev.proc.mount, f) {
        LeftFilesConfirmed(s, b, before, oracle, i, j - 1, f);
      }
    }
  }

  lemma ConfirmedOrBefore(s: Site, b: Bootstrap, before: World, prev: Moment, o: Outcome, f: Staged)
    requires s.Valid() && CreateHolds(s, b, before, prev.world, prev.proc) && f in Files(s, b)
    requires var q := Step(s, prev, o).proc; q.Late? && f !in Remaining(q.late)
    ensures var q := Step(s, prev, o).proc;
            && prev.proc.Late? && prev.proc.mount == q.mount
            && (f !in Remaining(prev.proc.late) || Confirms(s, prev, o, q.mount, f))
  {
    if prev.proc.Finished? {
      NotLateFinished(prev, s, o);
    } else {
      CreateStepKeeps(s, b, before, prev, o);
      SameBootstrap(s, b, before, Step(s, prev, o));
      RemainingShrinks(s, prev.proc, Serve(s.p.casing, prev.world, Wants(s, prev.proc), o).1, f);
      if prev.proc.late.StatIt? { StatPath(s, b, before, prev); }
      hide CreateHolds;
      hide Serve;
      hide Resume;
      hide Remaining;
      hide Files;
      hide ReadsBack;
    }
  }

  lemma NotLateFinished(m: Moment, s: Site, o: Outcome)
    requires m.proc.Finished?
    ensures Step(s, m, o) == m
  {
    hide Serve;
    hide Resume;
  }

  lemma SameBootstrap(s: Site, b: Bootstrap, before: World, m: Moment)
    requires CreateHolds(s, b, before, m.world, m.proc) && m.proc.Late?
    ensures m.proc.b == b
  {
    hide LateHolds;
    hide Holding;
  }

  lemma StatPath(s: Site, b: Bootstrap, before: World, m: Moment)
    requires CreateHolds(s, b, before, m.world, m.proc) && m.proc.Late? && m.proc.late.StatIt?
    ensures m.proc.late.full == m.proc.mount + m.proc.late.file.path
  {
    hide Progress;
    hide Holding;
    hide IsStopped;
    hide Unscrubbed;
  }

  /** The run made container `id`, whose root is `mount`, confirmed every file under that root, had them all in place
      when it started the container at call `k`, and hands the container out scrubbed, running and without its token
      file. */
  ghost predicate FreshlyMade(s: Site, b: Bootstrap, before: World, oracle: nat -> Outcome, i: nat, j: nat,
                              instance: Instance, id: int, mount: string, k: nat)
    requires i <= j
  {
    var w := Creation(s, b, before, oracle, i, j).world;
    && i <= k < j && OnlyNew(before, w, id) && Delivered(s, b, w, id, instance) && RootOf(w.containers[id]) == Some(mount)
    && ReadyToStart(s, b, Creation(s, b, before, oracle, i, k), id, mount)
    && forall f | f in Files(s, b) :: ConfirmedBefore(s, b, before, oracle, i, k, mount, f)
  }

  ghost predicate MadeFresh(s: Site, b: Bootstrap, before: World, oracle: nat -> Outcome, i: nat, j: nat, instance: Instance)
    requires i <= j
  {
    exists id, mount, k :: FreshlyMade(s, b, before, oracle, i, j, instance, id, mount, k)
  }

  ghost predicate ConfirmedBefore(s: Site, b: Bootstrap, before: World, oracle: nat -> Outcome, i: nat, k: nat,
                                  mount: string, f: Staged)
  {
    exists m :: i <= m < k && Confirms(s, Creation(s, b, before, oracle, i, m), oracle(m), mount, f)
  }

  lemma FinishComesFrom(s: Site, p: Proc, r: Reply)
    requires p.Early? || p.Late? || p.Cleanup?
    requires var q := Resume(s, p, r); q.Finished? && q.answer.Single? && q.answer.instance.Ok?
    ensures (p.Early? && p.early.AskName?) || (p.Late? && p.late.ProveAbsent?)
  {
    hide VerifyOwnership;
    hide VerifyBootstrap;
    hide RootOf;
    hide Files;
    hide StagingPath;
    hide ReadsBack;
    hide ToInstance;
  }

  lemma RootAtHand(s: Site, b: Bootstrap, before: World, w: World, p: Proc)
    requires CreateHolds(s, b, before, w, p) && p.Late?
    ensures p.id in w.containers && RootOf(w.containers[p.id]) == Some(p.mount)
  {
    hide LateHolds;
    hide Mine;
    hide RootOf;
  }

  lemma FinishingRoot(s: Site, b: Bootstrap, before: World, prev: Moment, o: Outcome)
    requires CreateHolds(s, b, before, prev.world, prev.proc) && prev.proc.Late? && Succeeded(Step(s, prev, o).proc)
    ensures var (p, w) := (prev.proc, Step(s, prev, o).world);
            p.id in w.containers && RootOf(w.containers[p.id]) == Some(p.mount)
  {
    hide CreateHolds;
    hide RootOf;
    hide Serve;
    hide Resume;
    RootAtHand(s, b, before, prev.world, prev.proc);
    FinishComesFrom(s, prev.proc, Serve(s.p.casing, prev.world, Wants(s, prev.proc), o).1);
    QuietCall(s.p.casing, prev.world, Wants(s, prev.proc), o);
  }

  predicate Succeeded(p: Proc) {
    p.Finished? && p.answer.Single? && p.answer.instance.Ok?
  }

  /** The last step of a successful `Create`. */
  lemma FinishingStep(s: Site, b: Bootstrap, before: World, prev: Moment, o: Outcome, instance: Instance)
    requires s.Valid() && CreateHolds(s, b, before, prev.world, prev.proc) && !prev.proc.Finished?
    requires Step(s, prev, o).proc == Finished(Single(Ok(instance)))
    ensures var w := Step(s, prev, o).world;
            || (w.containers == before.containers && Adopted(s, b, before, instance))
            || (AfterStart(prev.proc) && OnlyNew(before, w, prev.proc.id) && Delivered(s, b, w, prev.proc.id, instance))
  {
    hide Serve;
    hide Adopted;
    hide Delivered;
    hide Mine;
    hide LateHolds;
    hide Holding;
    FinishComesFrom(s, prev.proc, Serve(s.p.casing, prev.world, Wants(s, prev.proc), o).1);
    hide ResumeEarly;
    hide ResumeLate;
    if prev.proc.Early? {
      EarlyKeeps(s, b, before, prev.world, AskName, o);
      QuietCall(s.p.casing, prev.world, EarlyCall(s, b, AskName), o);
    } else {
      ProveAbsentKeeps(s, b, before, prev.world, prev.proc.id, prev.proc.mount, prev.proc.late.observed, o);
    }
  }

  /** Whatever TrueNAS did, an instance returned by `Create` is either an existing container of that name, steady and
      owned, with the inventory untouched, or one the run made, staged, started, scrubbed and inspected. */
  lemma {:induction false} CreateDelivers(s: Site, b: Bootstrap, before: World, oracle: nat -> Outcome, i: nat, j: nat,
                                          instance: Instance)
    requires s.Valid() && i <= j && Creation(s, b, before, oracle, i, j).proc == Finished(Single(Ok(instance)))
    ensures || (Creation(s, b, before, oracle, i, j).world.containers == before.containers && Adopted(s, b, before, instance))
            || MadeFresh(s, b, before, oracle, i, j, instance)
  {
    hide Step;
    hide Adopted;
    hide MadeFresh;
    hide CreateHolds;
    if i < j {
      var last := j - 1;
      var prev := Creation(s, b, before, oracle, i, last);
      if prev.proc.Finished? {
        NotLateFinished(prev, s, oracle(last));
        CreateDelivers(s, b, before, oracle, i, last, instance);
        if MadeFresh(s, b, before, oracle, i, last, instance) { StillFresh(s, b, before, oracle, i, last, instance); }
      } else {
        CreateRunHolds(s, b, before, oracle, i, last);
        FinishingStep(s, b, before, prev, oracle(last), instance);
        if AfterStart(prev.proc) && Creation(s, b, before, oracle, i, j).world.containers != before.containers {
          FinishingRoot(s, b, before, prev, oracle(last));
          JustMade(s, b, before, oracle, i, j, instance);
        }
      }
    }
  }

  lemma StillFresh(s: Site, b: Bootstrap, before: World, oracle: nat -> Outcome, i: nat, j: nat, instance: Instance)
    requires i <= j && MadeFresh(s, b, before, oracle, i, j, instance)
    requires Creation(s, b, before, oracle, i, j + 1) == Creation(s, b, before, oracle, i, j)
    ensures MadeFresh(s, b, before, oracle, i, j + 1, instance)
  {
    hide FreshlyMade;
    var id, mount, k :| FreshlyMade(s, b, before, oracle, i, j, instance, id, mount, k);
    StillFreshlyMade(s, b, before, oracle, i, j + 1, instance, id, mount, k);
  }

  lemma StillFreshlyMade(s: Site, b: Bootstrap, before: World, oracle: nat -> Outcome, i: nat, j: nat,
                         instance: Instance, id: int, mount: string, k: nat)
    requires i < j && FreshlyMade(s, b, before, oracle, i, j - 1, instance, id, mount, k)
    requires Creation(s, b, before, oracle, i, j) == Creation(s, b, before, oracle, i, j - 1)
    ensures FreshlyMade(s, b, before, oracle, i, j, instance, id, mount, k)
  {
    hide Creation;
    hide ConfirmedBefore;
    hide Delivered;
    hide ReadyToStart;
    hide OnlyNew;
    hide Files;
  }

  lemma JustMade(s: Site, b: Bootstrap, before: World, oracle: nat -> Outcome, i: nat, j: nat, instance: Instance)
    requires s.Valid() && i < j
    requires var prev := Creation(s, b, before, oracle, i, j - 1);
             var w := Creation(s, b, before, oracle, i, j).world;
             AfterStart(prev.proc) && OnlyNew(before, w, prev.proc.id) && Delivered(s, b, w, prev.proc.id, instance)
             && RootOf(w.containers[prev.proc.id]) == Some(prev.proc.mount)
    ensures MadeFresh(s, b, before, oracle, i, j, instance)
  {
    hide Step;
    hide Delivered;
    hide OnlyNew;
    hide Files;
    hide Confirms;
    var p := Creation(s, b, before, oracle, i, j - 1).proc;
    StartCameFirst(s, b, before, oracle, i, j - 1);
    hide Creation;
    var k :| i <= k < j - 1 && ReadyToStart(s, b, Creation(s, b, before, oracle, i, k), p.id, p.mount);
    forall f | f in Files(s, b)
      ensures ConfirmedBefore(s, b, before, oracle, i, k, p.mount, f)
    {
      LeftFilesConfirmed(s, b, before, oracle, i, k, f);
    }
    assert FreshlyMade(s, b, before, oracle, i, j, instance, p.id, p.mount, k);
  }
}

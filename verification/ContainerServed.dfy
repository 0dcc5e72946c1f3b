/** When `Create` of the container backend makes a container at all, and that it succeeds when its calls are served. */
module ContainerServed {
  import opened Text
  import opened Names
  import opened Provider
  import opened Paths
  import opened Container
  import opened ContainerStaging
  import opened ContainerSafety
  import opened ContainerCreate
  import opened ContainerFailure
  import opened ContainerRespect
  import opened ContainerRepeat
  import opened ContainerAnswers
  import opened ContainerContents

  // ----- refusals and checks -----

  /** A request that is not supported is refused before any call, and one that is supported is not. */
  lemma RefusesExactly(s: Site, b: Bootstrap, before: World, oracle: nat -> Outcome, i: nat, j: nat)
    requires i <= j
    ensures if Supported(b, "truenas-container-linux-general")
            then !Creation(s, b, before, oracle, i, i).proc.Finished?
            else Creation(s, b, before, oracle, i, j) == Moment(before, Finished(Single(Err(Unsupported))))
  {
    CommonIsSupported(b, "truenas-container-linux-general");
    hide CommonBootstrap;
    hide Supported;
    if !Accepts(b) {
      RunRests(s, Moment(before, Begin(CreateOp(b))), oracle, i, j);
    }
  }

  predicate Free(w: World, name: string) {
    forall id | id in w.containers :: w.containers[id].name != name
  }

  /** The reported version was the configured one up to outer space, and the name was free. */
  predicate Checked(s: Site, b: Bootstrap, before: World, o: Outcome) {
    TrimSpace(o.text) == TrimSpace(s.systemVersion) && Free(before, Named(s, b))
  }

  /** How many calls `Create` has made when it comes to a step, and what they have told by then. */
  ghost predicate Passed(s: Site, b: Bootstrap, before: World, oracle: nat -> Outcome, i: nat, j: nat, m: Moment) {
    match m.proc
    case Early(_, AskVersion) => j == i
    case Early(_, AskName) => j == i + 1 && TrimSpace(oracle(i).text) == TrimSpace(s.systemVersion)
    case Early(_, AskImage) => j == i + 2 && Checked(s, b, before, oracle(i))
    case Early(_, AskCreate(image)) => j == i + 3 && Checked(s, b, before, oracle(i)) && image == oracle(i + 2).image
    case Finished(_) => m.world.containers == before.containers || Checked(s, b, before, oracle(i))
    case _ => Checked(s, b, before, oracle(i))
  }

  lemma VersionPasses(s: Site, b: Bootstrap, w: World, o: Outcome)
    ensures var m := Step(s, Moment(w, Early(b, AskVersion)), o);
            && m.world.containers == w.containers
            && (m.proc.Finished? || (m.proc == Early(b, AskName) && TrimSpace(o.text) == TrimSpace(s.systemVersion)))
  {
    QuietCall(s.p.casing, w, SystemVersion, o);
    assert Serve(s.p.casing, w, SystemVersion, o).1.Text? ==> Serve(s.p.casing, w, SystemVersion, o).1.text == o.text;
    hide Serve;
    hide TrimSpace;
    hide Trouble;
  }

  lemma NamePasses(s: Site, b: Bootstrap, w: World, o: Outcome)
    ensures var m := Step(s, Moment(w, Early(b, AskName)), o);
            m.world.containers == w.containers && (m.proc.Finished? || (m.proc == Early(b, AskImage) && Free(w, Named(s, b))))
  {
    LookupTells(s.p.casing, w, Named(s, b), o);
    hide Serve;
    hide Named;
    hide VerifyOwnership;
    hide ToInstance;
    hide Trouble;
  }

  lemma ImagePasses(s: Site, b: Bootstrap, w: World, o: Outcome)
    ensures var m := Step(s, Moment(w, Early(b, AskImage)), o);
            m.world.containers == w.containers && (m.proc.Finished? || m.proc == Early(b, AskCreate(o.image)))
  {
    QuietCall(s.p.casing, w, ResolveImage(IMAGE_FAMILY), o);
    assert Serve(s.p.casing, w, ResolveImage(IMAGE_FAMILY), o).1.ImageIs? ==>
             Serve(s.p.casing, w, ResolveImage(IMAGE_FAMILY), o).1.image == o.image;
    hide Serve;
    hide Blank;
    hide Trouble;
  }

  lemma LaterStays(s: Site, m: Moment, o: Outcome)
    requires m.proc.Late? || m.proc.Cleanup? || (m.proc.Early? && m.proc.early.AskCreate?)
    ensures !Step(s, m, o).proc.Early?
  {
    var r := Serve(s.p.casing, m.world, Wants(s, m.proc), o).1;
    if m.proc.Early? && r.One? { AdmittedShape(s, m.proc.b, r.item); }
    if m.proc.Late? { LateShape(s, m.proc, r); }
    hide Serve;
    hide Admitted;
    hide ResumeLate;
    hide Trouble;
    hide Succeeded;
    hide Failing;
  }

  lemma EarlyPasses(s: Site, b: Bootstrap, before: World, oracle: nat -> Outcome, i: nat, j: nat, m: Moment)
    requires m.proc.Early? && m.proc.b == b && m.world.containers == before.containers
    requires i <= j && Passed(s, b, before, oracle, i, j, m)
    ensures Passed(s, b, before, oracle, i, j + 1, Step(s, m, oracle(j)))
  {
    hide Step;
    hide Named;
    hide TrimSpace;
    match m.proc.early
    case AskVersion => VersionPasses(s, b, m.world, oracle(j));
    case AskName => NamePasses(s, b, m.world, oracle(j));
    case AskImage => ImagePasses(s, b, m.world, oracle(j));
    case AskCreate(_) => LaterStays(s, m, oracle(j));
  }

  lemma PassingStep(s: Site, b: Bootstrap, before: World, oracle: nat -> Outcome, i: nat, j: nat, m: Moment)
    requires i <= j && CreateHolds(s, b, before, m.world, m.proc) && Passed(s, b, before, oracle, i, j, m)
    ensures Passed(s, b, before, oracle, i, j + 1, Step(s, m, oracle(j)))
  {
    EarlyUnchanged(s, b, before, m);
    hide CreateHolds;
    if m.proc.Finished? {
      NotLateFinished(m, s, oracle(j));
    } else if m.proc.Early? {
      EarlyPasses(s, b, before, oracle, i, j, m);
    } else {
      LaterStays(s, m, oracle(j));
    }
    hide Step;
    hide Checked;
  }

  lemma EarlyUnchanged(s: Site, b: Bootstrap, before: World, m: Moment)
    requires CreateHolds(s, b, before, m.world, m.proc)
    ensures m.proc.Early? ==> m.proc.b == b && m.world.containers == before.containers
    ensures m.proc.Early? || m.proc.Late? || m.proc.Cleanup? || m.proc.Finished?
  {
    hide LateHolds;
    hide Mine;
    hide Holding;
    hide Delivered;
    hide Adopted;
    hide OnlyNew;
    hide IsStopped;
  }

  lemma {:induction false} RunPasses(s: Site, b: Bootstrap, before: World, oracle: nat -> Outcome, i: nat, j: nat)
    requires s.Valid() && i <= j && Accepts(b)
    ensures Passed(s, b, before, oracle, i, j, Creation(s, b, before, oracle, i, j))
  {
    hide Accepts;
    hide Step;
    hide Checked;
    hide CreateHolds;
    if i < j {
      RunPasses(s, b, before, oracle, i, j - 1);
      CreateRunHolds(s, b, before, oracle, i, j - 1);
      PassingStep(s, b, before, oracle, i, j - 1, Creation(s, b, before, oracle, i, j - 1));
      assert Creation(s, b, before, oracle, i, j) == Step(s, Creation(s, b, before, oracle, i, j - 1), oracle(j - 1));
    }
    hide Passed;
  }

  /** A `Create` that changes the inventory at all was asked by a supported request, under the configured version, and for
      a name that no container had. */
  lemma MadeOnlyAfterChecks(s: Site, b: Bootstrap, before: World, oracle: nat -> Outcome, i: nat, j: nat)
    requires s.Valid() && i <= j && Creation(s, b, before, oracle, i, j).world.containers != before.containers
    ensures Supported(b, "truenas-container-linux-general")
    ensures TrimSpace(oracle(i).text) == TrimSpace(s.systemVersion)
    ensures Free(before, DigestedName(s.p.casing, s.p.digest, s.controllerID, b.name, '-'))
  {
    RefusesExactly(s, b, before, oracle, i, j);
    AcceptsSupported(b);
    hide Supported;
    hide Accepts;
    hide TrimSpace;
    RunPasses(s, b, before, oracle, i, j);
    CreateRunHolds(s, b, before, oracle, i, j);
    var m := Creation(s, b, before, oracle, i, j);
    hide Creation;
    EarlyUnchanged(s, b, before, m);
    hide CreateHolds;
    hide Free;
    hide DigestedName;
  }

  lemma AcceptsSupported(b: Bootstrap)
    ensures Accepts(b) <==> Supported(b, "truenas-container-linux-general")
  {
    CommonIsSupported(b, "truenas-container-linux-general");
    hide CommonBootstrap;
    hide Supported;
  }

  /** The first four calls of a `Create` that has not ended: the version, the name, the image of the family, and the container
      asked for, with the image just resolved. */
  lemma AsksInOrder(s: Site, b: Bootstrap, before: World, oracle: nat -> Outcome, i: nat, j: nat)
    requires s.Valid() && i <= j < i + 4 && Accepts(b) && !Creation(s, b, before, oracle, i, j).proc.Finished?
    requires Creation(s, b, before, oracle, i, j).proc.Early?
    ensures var call := Wants(s, Creation(s, b, before, oracle, i, j).proc);
            match j - i
            case 0 => call == SystemVersion
            case 1 => call == GetByName(DigestedName(s.p.casing, s.p.digest, s.controllerID, b.name, '-'))
            case 2 => call == ResolveImage("ubuntu:noble:amd64:default")
            case _ => call.Create? && Asked(s, b, oracle(i + 2).image, call.spec)
  {
    hide Accepts;
    RunPasses(s, b, before, oracle, i, j);
    CreateRunHolds(s, b, before, oracle, i, j);
    var m := Creation(s, b, before, oracle, i, j);
    hide Creation;
    EarlyUnchanged(s, b, before, m);
    hide CreateHolds;
    if m.proc.early.AskCreate? { RequestedIsAsked(s, b, m.proc.early.image); }
    hide Requested;
    hide Asked;
    hide Checked;
    hide DigestedName;
  }

  // ----- failures -----

  /** The reply to the call a process makes next. */
  function ReplyTo(s: Site, m: Moment, o: Outcome): Reply
    requires !m.proc.Finished?
  {
    Serve(s.p.casing, m.world, Wants(s, m.proc), o).1
  }

  /** The reply is of the kind asked for and says what `Create` must not accept: another version, another image, a container that
      is not stopped when it is made, a file that does not read back, a container that is not up, a token file that is still there. */
  predicate Objectionable(s: Site, p: Proc, r: Reply) {
    match p
    case Early(_, AskVersion) => r.Text? && TrimSpace(r.text) != TrimSpace(s.systemVersion)
    case Early(_, AskImage) =>
      r.ImageIs? && !(r.image.name == "ubuntu:noble:amd64:default" && TrimSpace(r.image.version) != "")
    case Early(b, AskCreate(_)) =>
      r.One? && VerifyBootstrap(s, r.item.container, b).Ok? && !s.p.casing.EqualFold(r.item.container.state, "STOPPED")
    case Late(_, _, _, StatIt(file, _, _)) => r.Stat? && !(r.size == ByteLength(file.content) && r.mode % 0x200 == file.mode)
    case Late(b, _, _, ReadBack) =>
      r.One? && VerifyOwnership(s, r.item.container, b.poolID).Ok? && !s.p.casing.EqualFold(r.item.container.state, "RUNNING")
    case Late(_, _, _, ProveAbsent(_)) => r.Stat?
    case _ => false
  }

  /** The reply is an error that `Create` has not asked for. */
  predicate Unexpected(p: Proc, r: Reply) {
    match p
    case Early(_, AskName) => r.Failed? && r.error != NotFound
    case Late(_, _, _, ProveAbsent(_)) => r.Failed? && r.error != NotFound
    case _ => r.Failed?
  }

  /** What a `Create` comes to when it gives up: before it stages it fails at once, from then on it goes to its cleanup. */
  function GivesUp(p: Proc, error: Error): Proc {
    match p
    case Late(_, id, _, _) => Cleanup(id, error, Observe)
    case _ => Finished(Single(Err(error)))
  }

  /** A `Create` gives up with drift on what it must not accept, and with the error of the call on every other error; a name
      that is not found and a token file that is not there are the two it asks for. */
  lemma GivesUpExactly(s: Site, m: Moment, o: Outcome)
    requires m.proc.Early? || m.proc.Late?
    ensures Objectionable(s, m.proc, ReplyTo(s, m, o)) ==> Step(s, m, o).proc == GivesUp(m.proc, ManagedDrift)
    ensures Unexpected(m.proc, ReplyTo(s, m, o)) ==> Step(s, m, o).proc == GivesUp(m.proc, ReplyTo(s, m, o).error)
  {
    var r := ReplyTo(s, m, o);
    hide Serve;
    hide Wants;
    if m.proc.Early? {
      EarlyGivesUp(s, m.proc.b, m.proc.early, r);
    } else {
      LateGivesUp(s, m.proc.b, m.proc.id, m.proc.mount, m.proc.late, r);
    }
    hide ResumeEarly;
    hide ResumeLate;
    hide Objectionable;
  }

  lemma EarlyGivesUp(s: Site, b: Bootstrap, step: EarlyStep, r: Reply)
    ensures Objectionable(s, Early(b, step), r) ==> ResumeEarly(s, b, step, r) == Finished(Single(Err(ManagedDrift)))
    ensures Unexpected(Early(b, step), r) ==> ResumeEarly(s, b, step, r) == Finished(Single(Err(r.error)))
  {
    hide VerifyOwnership;
    hide VerifyBootstrap;
    hide ToInstance;
    hide TrimSpace;
  }

  lemma LateGivesUp(s: Site, b: Bootstrap, id: int, mount: string, step: LateStep, r: Reply)
    ensures Objectionable(s, Late(b, id, mount, step), r) ==>
              ResumeLate(s, b, id, mount, step, r) == Cleanup(id, ManagedDrift, Observe)
    ensures Unexpected(Late(b, id, mount, step), r) ==> ResumeLate(s, b, id, mount, step, r) == Cleanup(id, r.error, Observe)
  {
    hide VerifyOwnership;
    hide ToInstance;
    hide NextFile;
    hide ByteLength;
  }

  /** The reply tells of a container as it was asked for, stopped. */
  predicate Accepted(s: Site, b: Bootstrap, r: Reply) {
    r.One? && VerifyBootstrap(s, r.item.container, b).Ok? && HasState(s, r.item.container, "STOPPED")
  }

  lemma AcceptedGoesOn(s: Site, b: Bootstrap, image: Image, r: Reply)
    requires Accepted(s, b, r)
    ensures var p := ResumeEarly(s, b, AskCreate(image), r); p.Late? || (p.Cleanup? && p.clean.Observe?)
  {
    hide VerifyBootstrap;
    hide RootOf;
    hide StagingPath;
    hide Files;
  }

  lemma LateGoesOn(s: Site, p: Proc, r: Reply)
    requires p.Late?
    ensures var q := Resume(s, p, r); q.Late? || (q.Cleanup? && q.clean.Observe?) || Succeeded(q)
  {
    hide VerifyOwnership;
    hide StagingPath;
    hide ReadsBack;
    hide ToInstance;
    hide Trouble;
  }

  ghost predicate CleansBetween(s: Site, b: Bootstrap, before: World, oracle: nat -> Outcome, i: nat, k: nat, j: nat)
    requires i <= k
  {
    exists c | k < c < j :: var p := Creation(s, b, before, oracle, i, c).proc; p.Cleanup? && p.clean.Observe?
  }

  lemma Cleaning(s: Site, b: Bootstrap, before: World, oracle: nat -> Outcome, i: nat, k: nat, c: nat, j: nat)
    requires i <= k < c < j
    requires var p := Creation(s, b, before, oracle, i, c).proc; p.Cleanup? && p.clean.Observe?
    ensures CleansBetween(s, b, before, oracle, i, k, j)
  {
    hide Creation;
  }

  lemma CleansLater(s: Site, b: Bootstrap, before: World, oracle: nat -> Outcome, i: nat, k: nat, j: nat)
    requires i <= k <= j && CleansBetween(s, b, before, oracle, i, k, j)
    ensures CleansBetween(s, b, before, oracle, i, k, j + 1)
  {
    hide Creation;
  }

  lemma AcceptedStep(s: Site, m: Moment, o: Outcome)
    requires m.proc.Early? && m.proc.early.AskCreate? && Accepted(s, m.proc.b, ReplyTo(s, m, o))
    ensures var p := Step(s, m, o).proc; p.Late? || (p.Cleanup? && p.clean.Observe?)
  {
    hide Accepted;
    AcceptedGoesOn(s, m.proc.b, m.proc.early.image, ReplyTo(s, m, o));
    hide Serve;
    hide ResumeEarly;
    hide Wants;
  }

  lemma LateStepGoesOn(s: Site, m: Moment, o: Outcome)
    requires m.proc.Late?
    ensures var p := Step(s, m, o).proc; p.Late? || (p.Cleanup? && p.clean.Observe?) || Succeeded(p)
  {
    LateGoesOn(s, m.proc, ReplyTo(s, m, o));
    hide Serve;
    hide Resume;
    hide Wants;
    hide Succeeded;
  }

  ghost predicate AcceptedAt(s: Site, b: Bootstrap, before: World, oracle: nat -> Outcome, i: nat, k: nat)
    requires i <= k
  {
    var m := Creation(s, b, before, oracle, i, k);
    m.proc.Early? && m.proc.early.AskCreate? && Accepted(s, m.proc.b, ReplyTo(s, m, oracle(k)))
  }

  /** Once its container was accepted, a `Create` is staging, or done, or has come to its cleanup. */
  lemma {:induction false} AcceptedRuns(s: Site, b: Bootstrap, before: World, oracle: nat -> Outcome, i: nat, k: nat, j: nat)
    requires i <= k < j && AcceptedAt(s, b, before, oracle, i, k)
    ensures var p := Creation(s, b, before, oracle, i, j).proc;
            p.Late? || Succeeded(p) || (p.Cleanup? && p.clean.Observe?) || CleansBetween(s, b, before, oracle, i, k, j)
    decreases j
  {
    hide CleansBetween;
    hide Accepted;
    hide Creation;
    hide Step;
    hide Serve;
    hide Wants;
    NextCreation(s, b, before, oracle, i, j);
    var m := Creation(s, b, before, oracle, i, j - 1);
    if j == k + 1 { AcceptedStep(s, m, oracle(k)); return; }
    hide AcceptedAt;
    AcceptedRuns(s, b, before, oracle, i, k, j - 1);
    if CleansBetween(s, b, before, oracle, i, k, j - 1) {
      CleansLater(s, b, before, oracle, i, k, j - 1);
    } else if m.proc.Cleanup? {
      Cleaning(s, b, before, oracle, i, k, j - 1, j);
    } else if m.proc.Late? {
      LateStepGoesOn(s, m, oracle(j - 1));
    } else {
      NotLateFinished(m, s, oracle(j - 1));
    }
  }

  /** A `Create` whose container was made as asked for, and stopped, never fails without having come to its cleanup. */
  lemma CleansUpAfter(s: Site, b: Bootstrap, before: World, oracle: nat -> Outcome, i: nat, k: nat, j: nat)
    requires i <= k < j && AcceptedAt(s, b, before, oracle, i, k) && Failing(Creation(s, b, before, oracle, i, j).proc)
    ensures CleansBetween(s, b, before, oracle, i, k, j)
  {
    hide CleansBetween;
    hide AcceptedAt;
    hide Creation;
    AcceptedRuns(s, b, before, oracle, i, k, j);
  }

  // ----- a name that is taken -----

  lemma NameTells(s: Site, b: Bootstrap, w: World, o: Outcome, id: int)
    requires Answered(o) && o.id == id && id in w.containers && w.containers[id].name == Named(s, b)
    ensures Step(s, Moment(w, Early(b, AskName)), o).proc
         == Finished(Single(match VerifyOwnership(s, w.containers[id], b.poolID)
                            case Err(e) => Err(e)
                            case Ok(_) => Ok(ToInstance(s, Item(id, w.containers[id]), b.poolID))))
  {
    hide Wipes;
    hide Named;
    hide VerifyOwnership;
    hide ToInstance;
  }

  /** A request for a name that a container has is answered by that container: foreign if it is not this manager's or not of
      the pool, drift if it is not settled, and otherwise the container field by field; nothing is made. */
  lemma RepeatExactly(s: Site, b: Bootstrap, before: World, oracle: nat -> Outcome, i: nat, id: int)
    requires FindsItsName(s, b, before, oracle, i, id) && b.poolID != ""
    ensures var (m, c) := (Creation(s, b, before, oracle, i, i + 2), before.containers[id]);
            && m.world.containers == before.containers
            && m.proc == Finished(Single(match Looked(s, id, c)
                                         case Err(e) => Err(e)
                                         case Ok(_) => if c.description.value.poolID == b.poolID
                                                       then Ok(Shown(s, id, c, b.poolID)) else Err(Foreign)))
  {
    AdoptionExactly(s, b, before, oracle, i, id);
    var c := before.containers[id];
    VersionAnswers(s, b, before, oracle(i));
    TwoCreations(s, b, before, oracle, i);
    var m := Step(s, Moment(before, Early(b, AskVersion)), oracle(i));
    hide Step;
    hide Creation;
    NameTells(s, b, m.world, oracle(i + 1), id);
    OwnerLooked(s, id, c);
    InstanceShown(s, Item(id, c), b.poolID);
    hide Owner;
    hide Accepts;
    hide TrimSpace;
    hide Bears;
    hide ContainerAnswers.Settled;
    hide Steady;
    hide Identified;
    hide ToInstance;
    hide Shown;
    hide Named;
  }

  lemma TwoCreations(s: Site, b: Bootstrap, before: World, oracle: nat -> Outcome, i: nat)
    requires Accepts(b)
    ensures Creation(s, b, before, oracle, i, i + 2)
         == Step(s, Step(s, Moment(before, Early(b, AskVersion)), oracle(i)), oracle(i + 1))
  {
    hide Step;
    hide Accepts;
    assert Creation(s, b, before, oracle, i, i + 1) == Step(s, Creation(s, b, before, oracle, i, i), oracle(i));
    assert Creation(s, b, before, oracle, i, i) == Moment(before, Early(b, AskVersion));
  }

  // ----- success -----

  /** The next call is served, and what TrueNAS chooses is what an honest one would choose: the configured version, an image
      of the family, a fresh ID and root, a container that is stopped until it is started and running from then on, and an
      init wrapper that has done its work when it is looked for. */
  ghost predicate Kind(s: Site, b: Bootstrap, m: Moment, o: Outcome) {
    && o.fate == Served
    && match m.proc
       case Early(_, AskVersion) => TrimSpace(o.text) == TrimSpace(s.systemVersion)
       case Early(_, AskImage) => Resolved(o.image)
       case Early(_, AskCreate(_)) =>
         && o.id !in m.world.containers && Unclaimed(m.world, Named(s, b), o.dataset) && o.state == STOPPED
         && Mountpoint(o.dataset, Named(s, b)).Some?
       case Late(_, _, _, StartIt) => o.state == RUNNING
       case Late(_, id, _, ProveAbsent(_)) => id in o.wiped
       case _ => true
  }

  /** On the way to success, with `n` calls still to make. */
  ghost predicate OnTrack(b: Bootstrap, m: Moment, n: nat) {
    match m.proc
    case Early(b', AskVersion) => b' == b && n == 14
    case Early(b', AskName) => b' == b && n == 13
    case Early(b', AskImage) => b' == b && n == 12
    case Early(b', AskCreate(image)) => b' == b && n == 11 && Resolved(image)
    case Late(_, id, _, PutIt(_, _, todo)) => n == 2 * |todo| + 6
    case Late(_, id, _, StatIt(_, _, todo)) => n == 2 * |todo| + 5
    case Late(_, id, _, StartIt) => n == 4
    case Late(_, id, _, Scrub) => n == 3 && id in m.world.containers && m.world.containers[id].state == RUNNING
    case Late(_, id, _, ReadBack) =>
      n == 2 && id in m.world.containers && m.world.containers[id].state == RUNNING
      && m.world.containers[id].init == DEFAULT_INIT
    case Late(_, _, _, ProveAbsent(_)) => n == 1
    case Finished(Single(Ok(_))) => n == 0
    case _ => false
  }

  lemma VersionTracks(s: Site, b: Bootstrap, w: World, o: Outcome)
    requires Kind(s, b, Moment(w, Early(b, AskVersion)), o)
    ensures OnTrack(b, Step(s, Moment(w, Early(b, AskVersion)), o), 13)
  {
    VersionAnswers(s, b, w, o);
    hide Step;
    hide TrimSpace;
  }

  lemma NameTracks(s: Site, b: Bootstrap, w: World, o: Outcome)
    requires o.fate == Served && Free(w, Named(s, b))
    ensures OnTrack(b, Step(s, Moment(w, Early(b, AskName)), o), 12)
  {
    hide Named;
    hide VerifyOwnership;
    hide Wipes;
    assert Serve(s.p.casing, w, GetByName(Named(s, b)), o).1 == Failed(NotFound);
    hide Serve;
  }

  lemma ImageTracks(s: Site, b: Bootstrap, w: World, o: Outcome)
    requires Kind(s, b, Moment(w, Early(b, AskImage)), o)
    ensures OnTrack(b, Step(s, Moment(w, Early(b, AskImage)), o), 11)
  {
    hide Wipes;
    hide Blank;
    assert Serve(s.p.casing, w, ResolveImage(IMAGE_FAMILY), o).1 == ImageIs(o.image);
    hide Serve;
  }

  /** The container comes into being as requested, passes its checks, and staging begins. */
  lemma MadeVerified(s: Site, b: Bootstrap, image: Image, o: Outcome)
    requires s.Valid() && Resolved(image) && o.state == STOPPED && Mountpoint(o.dataset, Named(s, b)).Some?
    ensures var made := Made(Requested(s, b, image), o);
            && VerifyBootstrap(s, made, b) == Ok(Unit.Unit) && IsStopped(s, made)
            && RootOf(made) == Mountpoint(o.dataset, Named(s, b))
  {
    RootedDataset(o.dataset, Named(s, b));
    hide IMAGE_FAMILY;
    hide Blank;
    hide Mountpoint;
    hide Named;
    hide InitialEnv;
    hide BOOTSTRAP_INIT;
    hide OWNER_SCHEMA;
    hide MANAGED_BY;
    hide FLAVOR;
    hide PLAIN_POLICY;
  }

  lemma NamedStarts(s: Site, b: Bootstrap)
    requires s.Valid()
    ensures "garm" <= Named(s, b)
  {
    DigestedNameAdmissible(s.p.casing, s.p.digest, s.controllerID, b.name, '-');
  }

  lemma CreateTracks(s: Site, b: Bootstrap, w: World, image: Image, o: Outcome)
    requires s.Valid() && Resolved(image) && Kind(s, b, Moment(w, Early(b, AskCreate(image))), o)
    ensures OnTrack(b, Step(s, Moment(w, Early(b, AskCreate(image))), o), 10)
  {
    var spec := Requested(s, b, image);
    CreateTells(s.p.casing, w, spec, o);
    MadeVerified(s, b, image, o);
    var mount := Mountpoint(o.dataset, Named(s, b)).value;
    NamedStarts(s, b);
    MountIsRooted(o.dataset, Named(s, b));
    assert spec.name == Named(s, b) by { hide Named; hide OwnerRecord; hide InitialEnv; hide BOOTSTRAP_INIT; }
    assert Makes(w, spec, o) by { hide Unclaimed; hide Requested; hide Named; }
    hide Requested;
    hide Makes;
    hide Made;
    hide Serve;
    hide Mountpoint;
    hide Named;
    hide RootOf;
    hide VerifyBootstrap;
    hide IsStopped;
    FirstFile(s, b, o.id, mount);
    hide NextFile;
    hide Files;
    hide RootedMount;
    hide Unclaimed;
  }

  lemma FirstFile(s: Site, b: Bootstrap, id: int, mount: string)
    requires RootedMount(mount)
    ensures var p := NextFile(b, id, mount, Files(s, b)); p.Late? && p.b == b && p.late.PutIt? && |p.late.todo| == 2
  {
    var files := Files(s, b);
    assert files[0] in files && |files[1..]| == 2;
    PlanStaged(s, b, mount, files[0]);
    hide Files;
    hide StagingPath;
  }

  lemma NextFileTracks(s: Site, b: Bootstrap, w: World, id: int, mount: string, todo: seq<Staged>)
    requires RootedMount(mount) && forall f | f in todo :: f in Files(s, b)
    ensures OnTrack(b, Moment(w, NextFile(b, id, mount, todo)), 2 * |todo| + 4)
  {
    hide Files;
    hide StagingPath;
    hide RootedMount;
    if todo != [] {
      assert todo[0] in todo;
      PlanStaged(s, b, mount, todo[0]);
    }
  }

  lemma PutTracks(s: Site, b: Bootstrap, m: Moment, o: Outcome, n: nat)
    requires m.proc.Late? && m.proc.late.PutIt? && o.fate == Served && OnTrack(b, m, n)
    ensures n > 0 && OnTrack(b, Step(s, m, o), n - 1)
  {
    hide Wipes;
    var step := m.proc.late;
    assert !Serve(s.p.casing, m.world, PutFile(step.full, step.file.content, step.file.mode), o).1.Failed?;
    hide Serve;
  }

  /** A file that is on disk is read back as it was written. */
  lemma ReadsAsWritten(casing: CaseMaps, w: World, path: string, file: Staged, o: Outcome)
    requires Answered(o) && file.mode < 0x200
    requires var files := Wiped(casing, w, o.wiped).files; path in files && files[path] == File(file.content, file.mode)
    ensures ReadsBack(Serve(casing, w, StatFile(path), o).1, file)
  {
    ModeReads(file.mode);
    hide Wiped;
    hide ByteLength;
  }

  lemma StatReadsBack(s: Site, b: Bootstrap, before: World, m: Moment, o: Outcome)
    requires s.Valid() && CreateHolds(s, b, before, m.world, m.proc) && m.proc.Late? && m.proc.late.StatIt? && Answered(o)
    ensures ReadsBack(Serve(s.p.casing, m.world, StatFile(m.proc.late.full), o).1, m.proc.late.file)
  {
    var step := m.proc.late;
    StagedStays(s, b, before, m, o.wiped);
    hide CreateHolds;
    PlanModes(s, b, step.file);
    hide Files;
    hide RootedMount;
    ReadsAsWritten(s.p.casing, m.world, step.full, step.file, o);
    hide Serve;
    hide Wiped;
    hide ReadsBack;
  }

  lemma StatSteps(s: Site, m: Moment, o: Outcome)
    requires m.proc.Late? && m.proc.late.StatIt?
    requires ReadsBack(Serve(s.p.casing, m.world, StatFile(m.proc.late.full), o).1, m.proc.late.file)
    ensures Step(s, m, o).proc == NextFile(m.proc.b, m.proc.id, m.proc.mount, m.proc.late.todo)
  {
    hide Serve;
    hide NextFile;
  }

  lemma StatTracks(s: Site, b: Bootstrap, before: World, m: Moment, o: Outcome, n: nat)
    requires s.Valid() && CreateHolds(s, b, before, m.world, m.proc)
    requires m.proc.Late? && m.proc.late.StatIt? && o.fate == Served && OnTrack(b, m, n)
    ensures n > 0 && OnTrack(b, Step(s, m, o), n - 1)
  {
    hide Step;
    hide Serve;
    hide CreateHolds;
    hide Wiped;
    hide Files;
    hide RootedMount;
    hide ReadsBack;
    hide NextFile;
    assert n == 2 * |m.proc.late.todo| + 5;
    hide OnTrack;
    StatReadsBack(s, b, before, m, o);
    StagedStays(s, b, before, m, {});
    StatSteps(s, m, o);
    NextFileTracks(s, b, Step(s, m, o).world, m.proc.id, m.proc.mount, m.proc.late.todo);
    SameTrack(b, Step(s, m, o), 2 * |m.proc.late.todo| + 4);
  }

  lemma SameTrack(b: Bootstrap, m: Moment, n: nat)
    ensures OnTrack(b, Moment(m.world, m.proc), n) == OnTrack(b, m, n)
  {
    hide OnTrack;
  }

  lemma StagedStays(s: Site, b: Bootstrap, before: World, m: Moment, wiped: set<int>)
    requires s.Valid() && CreateHolds(s, b, before, m.world, m.proc) && m.proc.Late? && m.proc.late.StatIt?
    ensures var (p, step) := (m.proc, m.proc.late);
            var files := Wiped(s.p.casing, m.world, wiped).files;
            && p.b == b && step.full in files && files[step.full] == File(step.file.content, step.file.mode)
            && RootedMount(p.mount) && step.file in Files(s, b) && forall f | f in step.todo :: f in Files(s, b)
  {
    var (p, step, w) := (m.proc, m.proc.late, m.world);
    hide Mine;
    hide IsStopped;
    hide Unscrubbed;
    hide RootedMount;
    hide RootOf;
    hide Files;
    hide Alone;
    hide NameTaken;
    var done :| Progress(s, b, w.files, p.mount, done + [step.file], step.todo);
    var all := done + [step.file] + step.todo;
    assert all == Files(s, b);
    assert step.file in all && forall f | f in step.todo :: f in all;
    assert forall f | f in done + [step.file] :: f in all;
    WipeSparesAll(s, b, before, w, p.id, p.mount, wiped, done + [step.file]);
    assert step.file in done + [step.file];
    hide Wiped;
  }

  lemma AtHandThere(s: Site, b: Bootstrap, before: World, m: Moment)
    requires CreateHolds(s, b, before, m.world, m.proc) && m.proc.Late?
    ensures m.proc.b == b && m.proc.id in m.world.containers && m.proc.id !in before.containers
    ensures RootOf(m.world.containers[m.proc.id]) == Some(m.proc.mount) && RootedMount(m.proc.mount)
    ensures m.proc.late.ProveAbsent? ==> m.proc.late.observed == m.world.containers[m.proc.id]
                                         && IsRunning(s, m.world.containers[m.proc.id])
  {
    hide Mine;
    hide IsStopped;
    hide Unscrubbed;
    hide RootedMount;
    hide RootOf;
    hide Alone;
    hide NameTaken;
    hide VerifyOwnership;
    hide IsRunning;
    hide Progress;
  }

  lemma StartTracks(s: Site, b: Bootstrap, m: Moment, o: Outcome)
    requires m.proc.Late? && m.proc.late.StartIt? && Kind(s, b, m, o) && m.proc.id in m.world.containers
    ensures OnTrack(b, Step(s, m, o), 3)
  {
    PowerTells(s.p.casing, m.world, m.proc.id, Start(m.proc.id), o);
    hide Serve;
  }

  lemma ScrubTracks(s: Site, b: Bootstrap, m: Moment, o: Outcome)
    requires m.proc.Late? && m.proc.late.Scrub? && o.fate == Served && OnTrack(b, m, 3)
    ensures OnTrack(b, Step(s, m, o), 2)
  {
    var id := m.proc.id;
    UpdateTells(s.p.casing, m.world, id, DEFAULT_INIT, map[], o);
    assert !Serve(s.p.casing, m.world, Update(id, DEFAULT_INIT, map[]), o).1.Failed? by { hide Wipes; }
    hide Serve;
    hide DEFAULT_INIT;
  }

  lemma SteadyVerifies(s: Site, b: Bootstrap, c: Container)
    requires s.Valid() && Outfitted(s, b, c) && c.state == RUNNING && c.init == DEFAULT_INIT
    ensures VerifyOwnership(s, c, b.poolID) == Ok(Unit.Unit) && IsRunning(s, c)
  {
    OutfittedSteady(s, b, c);
    assert s.p.casing.upper(RUNNING) == RUNNING;
    hide Outfitted;
    hide Steady;
    hide Identified;
    hide InPool;
  }

  lemma ReadSteps(s: Site, b: Bootstrap, m: Moment, o: Outcome)
    requires m.proc.Late? && m.proc.late.ReadBack? && o.fate == Served && m.proc.id in m.world.containers && m.proc.b == b
    requires VerifyOwnership(s, m.world.containers[m.proc.id], b.poolID) == Ok(Unit.Unit)
    requires IsRunning(s, m.world.containers[m.proc.id])
    ensures OnTrack(b, Step(s, m, o), 1)
  {
    GetReply(s.p.casing, m.world, m.proc.id, o);
    hide Serve;
    hide VerifyOwnership;
    hide IsRunning;
  }

  lemma ReadTracks(s: Site, b: Bootstrap, m: Moment, o: Outcome)
    requires s.Valid() && m.proc.Late? && m.proc.late.ReadBack? && o.fate == Served && OnTrack(b, m, 2) && m.proc.b == b
    requires Outfitted(s, b, m.world.containers[m.proc.id])
    ensures OnTrack(b, Step(s, m, o), 1)
  {
    hide Outfitted;
    hide VerifyOwnership;
    hide IsRunning;
    hide Step;
    SteadyVerifies(s, b, m.world.containers[m.proc.id]);
    ReadSteps(s, b, m, o);
  }

  lemma WipedOut(casing: CaseMaps, w: World, id: int, wiped: set<int>, mount: string)
    requires id in wiped && id in w.containers && InState(casing, w.containers[id], RUNNING)
    requires RootOf(w.containers[id]) == Some(mount)
    ensures mount + TOKEN_PATH !in Wiped(casing, w, wiped).files
  {
    hide InState;
    hide RootOf;
    hide TOKEN_PATH;
    assert Wipes(casing, w, wiped, mount + TOKEN_PATH);
    hide Wipes;
  }

  lemma AbsentReply(casing: CaseMaps, w: World, path: string, o: Outcome)
    requires Answered(o) && path !in Wiped(casing, w, o.wiped).files
    ensures Serve(casing, w, StatFile(path), o).1 == Failed(NotFound)
  {
    hide Wiped;
  }

  lemma ProofFinds(s: Site, b: Bootstrap, before: World, m: Moment, o: Outcome)
    requires CreateHolds(s, b, before, m.world, m.proc) && m.proc.Late? && m.proc.late.ProveAbsent?
    requires o.fate == Served && m.proc.id in o.wiped
    ensures Serve(s.p.casing, m.world, StatFile(TokenFile(m.proc.mount)), o).1 == Failed(NotFound)
  {
    AtHandThere(s, b, before, m);
    hide CreateHolds;
    TokenFilePlaced(m.proc.mount);
    hide TokenFile;
    hide TOKEN_PATH;
    hide RootedMount;
    hide RootOf;
    WipedOut(s.p.casing, m.world, m.proc.id, o.wiped, m.proc.mount);
    hide Wiped;
    hide InState;
    AbsentReply(s.p.casing, m.world, m.proc.mount + TOKEN_PATH, o);
    hide Serve;
  }

  lemma ProofSteps(s: Site, b: Bootstrap, m: Moment, o: Outcome)
    requires m.proc.Late? && m.proc.late.ProveAbsent?
    requires Serve(s.p.casing, m.world, StatFile(TokenFile(m.proc.mount)), o).1 == Failed(NotFound)
    ensures OnTrack(b, Step(s, m, o), 0)
  {
    hide Serve;
    hide TokenFile;
    hide ToInstance;
  }

  lemma ProofTracks(s: Site, b: Bootstrap, before: World, m: Moment, o: Outcome)
    requires CreateHolds(s, b, before, m.world, m.proc) && m.proc.Late? && m.proc.late.ProveAbsent?
    requires o.fate == Served && m.proc.id in o.wiped
    ensures OnTrack(b, Step(s, m, o), 0)
  {
    hide CreateHolds;
    hide Serve;
    hide TokenFile;
    hide Step;
    hide OnTrack;
    ProofFinds(s, b, before, m, o);
    ProofSteps(s, b, m, o);
  }

  lemma EarlyTracks(s: Site, b: Bootstrap, m: Moment, o: Outcome, n: nat)
    requires s.Valid() && m.proc.Early? && Kind(s, b, m, o) && OnTrack(b, m, n) && Free(m.world, Named(s, b))
    ensures n > 0 && OnTrack(b, Step(s, m, o), n - 1)
  {
    hide Step;
    hide Free;
    hide Unclaimed;
    hide Mountpoint;
    hide Resolved;
    hide Named;
    hide TrimSpace;
    match m.proc.early
    case AskVersion => VersionTracks(s, b, m.world, o);
    case AskName => NameTracks(s, b, m.world, o);
    case AskImage => ImageTracks(s, b, m.world, o);
    case AskCreate(image) => CreateTracks(s, b, m.world, image, o);
  }

  lemma StagingTracks(s: Site, b: Bootstrap, before: World, m: Moment, o: Outcome, n: nat)
    requires s.Valid() && CreateHolds(s, b, before, m.world, m.proc)
    requires m.proc.Late? && (m.proc.late.PutIt? || m.proc.late.StatIt? || m.proc.late.StartIt?)
    requires Kind(s, b, m, o) && OnTrack(b, m, n)
    ensures n > 0 && OnTrack(b, Step(s, m, o), n - 1)
  {
    AtHandThere(s, b, before, m);
    assert m.proc.late.StartIt? ==> n == 4;
    assert o.fate == Served;
    hide Step;
    hide CreateHolds;
    hide RootOf;
    hide RootedMount;
    hide IsRunning;
    hide OnTrack;
    hide Kind;
    if m.proc.late.PutIt? {
      PutTracks(s, b, m, o, n);
    } else if m.proc.late.StatIt? {
      StatTracks(s, b, before, m, o, n);
    } else {
      StartTracks(s, b, m, o);
    }
  }

  /** How many calls are left, by the step. */
  lemma TrackCounts(s: Site, b: Bootstrap, m: Moment, o: Outcome, n: nat)
    requires m.proc.Late? && Kind(s, b, m, o) && OnTrack(b, m, n)
    ensures var late := m.proc.late;
            && o.fate == Served && (late.ProveAbsent? ==> m.proc.id in o.wiped && n == 1)
            && (late.Scrub? ==> n == 3) && (late.ReadBack? ==> n == 2)
  {
  }

  lemma NewIsOutfitted(s: Site, b: Bootstrap, before: World, m: Moment, id: int)
    requires Outfits(s, b, before, m) && id in m.world.containers && id !in before.containers
    ensures Outfitted(s, b, m.world.containers[id])
  {
    hide Outfitted;
  }

  lemma LateTracks(s: Site, b: Bootstrap, before: World, m: Moment, o: Outcome, n: nat)
    requires s.Valid() && CreateHolds(s, b, before, m.world, m.proc) && Outfits(s, b, before, m) && m.proc.Late?
    requires Kind(s, b, m, o) && OnTrack(b, m, n)
    ensures n > 0 && OnTrack(b, Step(s, m, o), n - 1)
  {
    hide Step;
    hide CreateHolds;
    hide Outfits;
    hide Outfitted;
    hide RootOf;
    hide RootedMount;
    hide IsRunning;
    hide OnTrack;
    hide Kind;
    AtHandThere(s, b, before, m);
    TrackCounts(s, b, m, o, n);
    NewIsOutfitted(s, b, before, m, m.proc.id);
    if m.proc.late.Scrub? {
      ScrubTracks(s, b, m, o);
    } else if m.proc.late.ReadBack? {
      ReadTracks(s, b, m, o);
    } else if m.proc.late.ProveAbsent? {
      ProofTracks(s, b, before, m, o);
    } else {
      StagingTracks(s, b, before, m, o, n);
    }
  }

  /** One kind answer brings a `Create` on its way one call closer to success. */
  lemma StepTracks(s: Site, b: Bootstrap, before: World, m: Moment, o: Outcome, n: nat)
    requires s.Valid() && CreateHolds(s, b, before, m.world, m.proc) && Outfits(s, b, before, m)
    requires Kind(s, b, m, o) && OnTrack(b, m, n) && n > 0 && Free(before, Named(s, b))
    ensures OnTrack(b, Step(s, m, o), n - 1)
  {
    assert m.proc.Early? || m.proc.Late?;
    EarlyUnchanged(s, b, before, m);
    hide Named;
    hide OnTrack;
    hide Kind;
    hide Step;
    hide CreateHolds;
    hide Outfits;
    if m.proc.Early? { EarlyTracks(s, b, m, o, n); } else { LateTracks(s, b, before, m, o, n); }
  }

  ghost predicate AllKind(s: Site, b: Bootstrap, before: World, oracle: nat -> Outcome, i: nat, j: nat)
    requires i <= j
  {
    forall k | i <= k < j :: Kind(s, b, Creation(s, b, before, oracle, i, k), oracle(k))
  }

  lemma KindEarlier(s: Site, b: Bootstrap, before: World, oracle: nat -> Outcome, i: nat, j: nat)
    requires i < j && AllKind(s, b, before, oracle, i, j)
    ensures AllKind(s, b, before, oracle, i, j - 1)
    ensures Kind(s, b, Creation(s, b, before, oracle, i, j - 1), oracle(j - 1))
  {
    hide Kind;
    hide Creation;
  }

  lemma NextCreation(s: Site, b: Bootstrap, before: World, oracle: nat -> Outcome, i: nat, j: nat)
    requires i < j
    ensures Creation(s, b, before, oracle, i, j) == Step(s, Creation(s, b, before, oracle, i, j - 1), oracle(j - 1))
  {
    hide Step;
  }

  lemma {:induction false} RunTracks(s: Site, b: Bootstrap, before: World, oracle: nat -> Outcome, i: nat, j: nat, n: nat)
    requires s.Valid() && Accepts(b) && i <= j && j + n == i + 14 && AllKind(s, b, before, oracle, i, j)
    requires Free(before, Named(s, b))
    ensures OnTrack(b, Creation(s, b, before, oracle, i, j), n)
    decreases j
  {
    hide Kind;
    hide OnTrack;
    hide Accepts;
    hide CreateHolds;
    hide Outfits;
    hide Step;
    hide Run;
    hide Free;
    hide Named;
    if i == j { BeginsOn(s, b, before, oracle, i); return; }
    KindEarlier(s, b, before, oracle, i, j);
    hide AllKind;
    RunTracks(s, b, before, oracle, i, j - 1, n + 1);
    CreateRunHolds(s, b, before, oracle, i, j - 1);
    RunOutfits(s, b, before, oracle, i, j - 1);
    NextCreation(s, b, before, oracle, i, j);
    StepTracks(s, b, before, Creation(s, b, before, oracle, i, j - 1), oracle(j - 1), n + 1);
  }

  lemma BeginsOn(s: Site, b: Bootstrap, before: World, oracle: nat -> Outcome, i: nat)
    requires Accepts(b)
    ensures OnTrack(b, Creation(s, b, before, oracle, i, i), 14)
  {
    hide Accepts;
    hide Step;
  }

  /** The container a successful `Create` has made: the one asked for, up, scrubbed of what it was started with, and without
      the token file under its root. */
  predicate Completed(s: Site, b: Bootstrap, w: World, id: int) {
    && id in w.containers && Ordered(s, b, w.containers[id]) && HasState(s, w.containers[id], "RUNNING")
    && w.containers[id].init == "/sbin/init" && w.containers[id].env == map[]
    && match RootOf(w.containers[id])
       case None => false
       case Some(root) => Under(root, "var", "lib", "garm-container", "bootstrap-instance-token") !in w.files
  }

  lemma DeliveredIsFinished(s: Site, b: Bootstrap, w: World, id: int, instance: Instance)
    requires id in w.containers && Delivered(s, b, w, id, instance) && Outfitted(s, b, w.containers[id])
    requires w.containers[id].name == Named(s, b)
    ensures Completed(s, b, w, id) && instance == Shown(s, id, w.containers[id], b.poolID)
  {
    var c := w.containers[id];
    OutfittedOrdered(s, b, c);
    InstanceShown(s, Item(id, c), b.poolID);
    RootIsUnder(RootOf(c).value, "var", "lib", "garm-container", "bootstrap-instance-token");
    hide Ordered;
    hide Outfitted;
    hide VerifyOwnership;
    hide RootOf;
    hide Under;
    hide Root;
    hide ToInstance;
    hide Shown;
    hide Named;
  }

  lemma EndsFresh(s: Site, b: Bootstrap, before: World, m: Moment)
    requires CreateHolds(s, b, before, m.world, m.proc) && Outfits(s, b, before, m) && OnTrack(b, m, 0)
    requires Free(before, Named(s, b))
    ensures m.proc.Finished? && m.proc.answer.Single? && m.proc.answer.instance.Ok?
    ensures exists id :: OnlyNew(before, m.world, id) && m.world.containers[id].name == Named(s, b)
              && Outfitted(s, b, m.world.containers[id]) && Delivered(s, b, m.world, id, m.proc.answer.instance.value)
  {
    hide Outfitted;
    hide Named;
    hide Delivered;
    hide VerifyOwnership;
    hide ToInstance;
    hide OwnerRecord;
    hide LateHolds;
    hide Holding;
  }

  /** A `Create` whose calls are served, asked by a supported request for a name that is free, succeeds after its fourteen
      calls: one container is added and nothing else has changed, it is the one asked for, up and scrubbed, its token file
      is gone, and the instance handed out shows it, field by field. */
  lemma CreateSucceeds(s: Site, b: Bootstrap, before: World, oracle: nat -> Outcome, i: nat)
    requires s.Valid() && Supported(b, "truenas-container-linux-general") && AllKind(s, b, before, oracle, i, i + 14)
    requires Free(before, DigestedName(s.p.casing, s.p.digest, s.controllerID, b.name, '-'))
    ensures var m := Creation(s, b, before, oracle, i, i + 14);
            exists id :: id !in before.containers && Completed(s, b, m.world, id)
              && m.world.containers == before.containers[id := m.world.containers[id]]
              && m.proc == Finished(Single(Ok(Shown(s, id, m.world.containers[id], b.poolID))))
  {
    AcceptsSupported(b);
    hide Supported;
    hide Accepts;
    hide AllKind;
    assert Free(before, Named(s, b));
    hide Free;
    hide DigestedName;
    RunTracks(s, b, before, oracle, i, i + 14, 0);
    CreateRunHolds(s, b, before, oracle, i, i + 14);
    RunOutfits(s, b, before, oracle, i, i + 14);
    var m := Creation(s, b, before, oracle, i, i + 14);
    hide Creation;
    EndsFresh(s, b, before, m);
    hide CreateHolds;
    hide Outfits;
    hide OnTrack;
    hide Named;
    hide Outfitted;
    hide Delivered;
    var id :| OnlyNew(before, m.world, id) && m.world.containers[id].name == Named(s, b)
              && Outfitted(s, b, m.world.containers[id]) && Delivered(s, b, m.world, id, m.proc.answer.instance.value);
    DeliveredIsFinished(s, b, m.world, id, m.proc.answer.instance.value);
    hide Shown;
    hide Completed;
  }

  // ----- it happens -----

  /** An empty appliance that serves every call of a `Create`. */
  function Honest(s: Site, b: Bootstrap): nat -> Outcome {
    k => Outcome(Served, s.systemVersion, LUCKY_IMAGE, 1, if k == 10 then RUNNING else STOPPED,
                 DatasetOf("tank", Named(s, b)), [1], if k == 13 then {1} else {})
  }

  lemma OneID(s: Site, b: Bootstrap, m: Moment, k: nat)
    requires m.world.containers.Keys <= {1}
    ensures Step(s, m, Honest(s, b)(k)).world.containers.Keys <= {1}
  {
    if m.proc.Finished? { return; }
    var (call, o) := (Wants(s, m.proc), Honest(s, b)(k));
    hide Honest;
    assert o.id == 1;
    hide Wants;
    var w := Serve(s.p.casing, m.world, call, o).0;
    if call.Create? { CreateTells(s.p.casing, m.world, call.spec, o); }
    forall id | id in w.containers && !call.Create? ensures id in m.world.containers {
      CallAlters(s.p.casing, m.world, call, o, id);
    }
    hide Serve;
    hide Resume;
    hide Makes;
  }

  lemma {:induction false} OnlyOne(s: Site, b: Bootstrap, j: nat)
    ensures Creation(s, b, EMPTY, Honest(s, b), 0, j).world.containers.Keys <= {1}
  {
    hide Step;
    if j > 0 {
      OnlyOne(s, b, j - 1);
      NextCreation(s, b, EMPTY, Honest(s, b), 0, j);
      OneID(s, b, Creation(s, b, EMPTY, Honest(s, b), 0, j - 1), j - 1);
    }
  }

  lemma HonestEarly(s: Site, b: Bootstrap, m: Moment, k: nat)
    requires s.Valid() && k < 14 && m.proc.Early? && m.proc.b == b && OnTrack(b, m, 14 - k) && m.world.containers == map[]
    requires Mountpoint(DatasetOf("tank", Named(s, b)), Named(s, b)).Some?
    ensures Kind(s, b, m, Honest(s, b)(k))
  {
    LuckyResolved();
    hide Mountpoint;
    hide Named;
    hide Resolved;
    hide TrimSpace;
    hide LUCKY_IMAGE;
  }

  lemma HonestLate(s: Site, b: Bootstrap, m: Moment, k: nat)
    requires k < 14 && m.proc.Late? && m.proc.id == 1 && OnTrack(b, m, 14 - k)
    ensures Kind(s, b, m, Honest(s, b)(k))
  {
    hide Named;
    hide LUCKY_IMAGE;
  }

  lemma HasRoot(s: Site, b: Bootstrap)
    requires s.Valid()
    ensures Mountpoint(DatasetOf("tank", Named(s, b)), Named(s, b)).Some?
  {
    var mount := NamedRoot(s, b);
    hide Mountpoint;
    hide RootedMount;
    hide Named;
  }

  lemma HonestAt(s: Site, b: Bootstrap, j: nat)
    requires s.Valid() && Accepts(b) && j < 14 && AllKind(s, b, EMPTY, Honest(s, b), 0, j)
    ensures Kind(s, b, Creation(s, b, EMPTY, Honest(s, b), 0, j), Honest(s, b)(j))
  {
    hide Kind;
    hide Accepts;
    hide Named;
    hide Honest;
    hide Creation;
    hide AllKind;
    hide OnTrack;
    hide CreateHolds;
    hide RootOf;
    hide RootedMount;
    hide Mountpoint;
    hide DatasetOf;
    hide Step;
    HasRoot(s, b);
    RunTracks(s, b, EMPTY, Honest(s, b), 0, j, 14 - j);
    OnlyOne(s, b, j);
    CreationHolds(s, b, Honest(s, b), j);
    var m := Creation(s, b, EMPTY, Honest(s, b), 0, j);
    EarlyUnchanged(s, b, EMPTY, m);
    TracksUnfinished(b, m, 14 - j);
    if m.proc.Late? {
      AtHandThere(s, b, EMPTY, m);
      HonestLate(s, b, m, j);
    } else {
      HonestEarly(s, b, m, j);
    }
  }

  lemma TracksUnfinished(b: Bootstrap, m: Moment, n: nat)
    requires OnTrack(b, m, n) && n > 0
    ensures m.proc.Early? || m.proc.Late?
  {
  }

  lemma KindLonger(s: Site, b: Bootstrap, before: World, oracle: nat -> Outcome, j: nat)
    requires AllKind(s, b, before, oracle, 0, j) && Kind(s, b, Creation(s, b, before, oracle, 0, j), oracle(j))
    ensures AllKind(s, b, before, oracle, 0, j + 1)
  {
    hide Kind;
    hide Creation;
  }

  lemma {:induction false} AllHonest(s: Site, b: Bootstrap, j: nat)
    requires s.Valid() && Accepts(b) && j <= 14
    ensures AllKind(s, b, EMPTY, Honest(s, b), 0, j)
  {
    hide Kind;
    hide Accepts;
    hide Honest;
    hide Creation;
    if j > 0 {
      AllHonest(s, b, j - 1);
      hide AllKind;
      HonestAt(s, b, j - 1);
      KindLonger(s, b, EMPTY, Honest(s, b), j - 1);
    }
  }

  lemma CreationHolds(s: Site, b: Bootstrap, oracle: nat -> Outcome, j: nat)
    requires s.Valid()
    ensures var m := Creation(s, b, EMPTY, oracle, 0, j); CreateHolds(s, b, EMPTY, m.world, m.proc)
  {
    CreateRunHolds(s, b, EMPTY, oracle, 0, j);
    hide CreateHolds;
    hide Run;
  }

  /** On an empty appliance every supported request is served like that. */
  lemma HonestServes(s: Site, b: Bootstrap)
    requires s.Valid() && Supported(b, "truenas-container-linux-general")
    ensures AllKind(s, b, EMPTY, Honest(s, b), 0, 14)
  {
    AcceptsSupported(b);
    hide Supported;
    AllHonest(s, b, 14);
    hide AllKind;
  }
}

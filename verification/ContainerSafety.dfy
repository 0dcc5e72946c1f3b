/** What every step of a container operation keeps, with no outside actor in mid-operation. */
module ContainerSafety {
  import opened Text
  import opened Names
  import opened Provider
  import opened Paths
  import opened Container
  import opened ContainerStaging

  // ----- what the client calls do -----

  lemma QuietCall(casing: CaseMaps, w: World, call: Call, o: Outcome)
    requires !call.Create? && !Ignorable(call)
    ensures Serve(casing, w, call, o).0.containers == w.containers
  {
    hide Wipes;
    hide Itemized;
    hide NameTaken;
    hide Enumerates;
    hide ByteLength;
  }

  lemma GetTells(casing: CaseMaps, w: World, id: int, o: Outcome)
    ensures var (w', r) := Serve(casing, w, Get(id), o);
            && w'.containers == w.containers
            && (r.One? ==> id in w.containers && r.item == Item(id, w.containers[id]))
            && (id in w.containers ==> r != Failed(NotFound))
  {
    hide Wipes;
  }

  lemma LookupTells(casing: CaseMaps, w: World, name: string, o: Outcome)
    ensures var (w', r) := Serve(casing, w, GetByName(name), o);
            && w'.containers == w.containers
            && (r.One? ==> r.item.id in w.containers && r.item.container == w.containers[r.item.id]
                           && r.item.container.name == name)
            && (r == Failed(NotFound) ==> !NameTaken(w, name))
  {
    hide Wipes;
  }

  lemma ListTells(casing: CaseMaps, w: World, o: Outcome)
    ensures var (w', r) := Serve(casing, w, List, o);
            && w'.containers == w.containers
            && (r.Many? ==> Enumerates(o.order, w.containers.Keys) && r.items == Itemized(w, o.order))
            && r != Failed(NotFound)
  {
    hide Wipes;
    assert Enumerates(o.order, w.containers.Keys) ==> Itemized(Wiped(casing, w, o.wiped), o.order) == Itemized(w, o.order)
    by {
      if Enumerates(o.order, w.containers.Keys) { ItemizedSame(w, Wiped(casing, w, o.wiped), o.order); }
    }
    hide Itemized;
  }

  lemma {:induction false} ItemizedSame(w: World, w': World, ids: seq<int>)
    requires w'.containers == w.containers && forall k | 0 <= k < |ids| :: ids[k] in w.containers
    ensures Itemized(w', ids) == Itemized(w, ids)
  {
    if ids != [] { ItemizedSame(w, w', ids[1..]); }
  }

  /** What `Create` makes of a requested container, when it makes it. */
  predicate Makes(w: World, spec: Container, o: Outcome) {
    o.fate != Refused && o.id !in w.containers && Unclaimed(w, spec.name, o.dataset)
  }

  function Made(spec: Container, o: Outcome): Container {
    spec.(state := o.state, dataset := o.dataset)
  }

  lemma CreateTells(casing: CaseMaps, w: World, spec: Container, o: Outcome)
    ensures var (w', r) := Serve(casing, w, Create(spec), o);
            if Makes(w, spec, o)
            then w'.containers == w.containers[o.id := Made(spec, o)]
                 && r == if o.fate == Lost then Failed(Other) else One(Item(o.id, Made(spec, o)))
            else w'.containers == w.containers && r == Failed(Other)
  {
    hide Wipes;
    hide RootOf;
    hide Mountpoint;
    hide InState;
    assert Unclaimed(Wiped(casing, w, o.wiped), spec.name, o.dataset) == Unclaimed(w, spec.name, o.dataset);
    hide Unclaimed;
  }

  lemma UpdateTells(casing: CaseMaps, w: World, id: int, init: string, env: map<Variable, string>, o: Outcome)
    requires id in w.containers
    ensures var (w', r) := Serve(casing, w, Update(id, init, env), o);
            && w'.containers == w.containers[id := w'.containers[id]]
            && w'.containers[id] == (if o.fate == Refused || o.fate == Ignored then w.containers[id]
                                     else w.containers[id].(init := init, env := env))
  {
    hide Wipes;
  }

  lemma PowerTells(casing: CaseMaps, w: World, id: int, call: Call, o: Outcome)
    requires id in w.containers && (call == Start(id) || call == Stop(id, true) || call == Stop(id, false))
    ensures var (w', r) := Serve(casing, w, call, o);
            && w'.containers == w.containers[id := w'.containers[id]]
            && w'.containers[id] == (if o.fate == Refused || o.fate == Ignored then w.containers[id]
                                     else w.containers[id].(state := o.state))
            && (r.Failed? <==> o.fate == Refused || o.fate == Lost) && r != Failed(NotFound)
  {
    hide Wipes;
  }

  lemma DeleteTells(casing: CaseMaps, w: World, id: int, o: Outcome)
    requires id in w.containers
    ensures var (w', r) := Serve(casing, w, Delete(id), o);
            && w'.containers == (if o.fate == Refused || o.fate == Ignored then w.containers else w.containers - {id})
            && (r.Failed? <==> o.fate == Refused || o.fate == Lost) && r != Failed(NotFound)
  {
    hide Wipes;
  }

  lemma PutTells(casing: CaseMaps, w: World, path: string, content: string, mode: nat, o: Outcome)
    ensures var (w', r) := Serve(casing, w, PutFile(path, content, mode), o);
            && w'.containers == w.containers
            && (!r.Failed? ==> w'.files == Wiped(casing, w, o.wiped).files[path := File(content, mode)])
  {
    hide Wipes;
  }

  lemma StatTells(casing: CaseMaps, w: World, path: string, o: Outcome)
    ensures var (w', r) := Serve(casing, w, StatFile(path), o);
            && w'.containers == w.containers
            && w'.files == Wiped(casing, w, o.wiped).files
            && (r == Failed(NotFound) ==> path !in w'.files)
  {
    hide Wipes;
    hide ByteLength;
  }

  // ----- Create -----

  /** The container an unfinished `Create` has made is the only difference in the inventory, and its name is new. */
  ghost predicate OnlyNew(before: World, w: World, id: int) {
    && id !in before.containers && id in w.containers && w.containers == before.containers[id := w.containers[id]]
    && !NameTaken(before, w.containers[id].name)
  }

  predicate Mine(s: Site, b: Bootstrap, c: Container) {
    && c.name == Named(s, b) && c.description == Some(OwnerRecord(s, b))
    && (Unscrubbed(s, b, c) || Scrubbed(c))
  }

  predicate Unscrubbed(s: Site, b: Bootstrap, c: Container) {
    c.init == BOOTSTRAP_INIT && c.env == InitialEnv(s, b)
  }

  predicate Scrubbed(c: Container) {
    c.init == DEFAULT_INIT && c.env == map[]
  }

  /** No other container has this root. */
  ghost predicate Alone(before: World, mount: string) {
    forall id | id in before.containers :: RootOf(before.containers[id]) != Some(mount)
  }

  predicate OnDisk(files: map<string, File>, mount: string, file: Staged) {
    mount + file.path in files && files[mount + file.path] == File(file.content, file.mode)
  }

  predicate AllOnDisk(files: map<string, File>, mount: string, staged: seq<Staged>) {
    forall f | f in staged :: OnDisk(files, mount, f)
  }

  /** How far staging has come: `done` is on disk and `rest` is still to do. */
  ghost predicate Progress(s: Site, b: Bootstrap, files: map<string, File>, mount: string, done: seq<Staged>,
                           rest: seq<Staged>) {
    Files(s, b) == done + rest && AllOnDisk(files, mount, done)
  }

  ghost predicate LateHolds(s: Site, b: Bootstrap, c: Container, files: map<string, File>, mount: string, step: LateStep) {
    match step
    case PutIt(file, full, todo) =>
      && IsStopped(s, c) && Unscrubbed(s, b, c) && full == mount + file.path
      && exists done :: Progress(s, b, files, mount, done, [file] + todo)
    case StatIt(file, full, todo) =>
      && IsStopped(s, c) && Unscrubbed(s, b, c) && full == mount + file.path
      && exists done :: Progress(s, b, files, mount, done + [file], todo)
    case StartIt => IsStopped(s, c) && Unscrubbed(s, b, c) && AllOnDisk(files, mount, Files(s, b))
    case Scrub => Unscrubbed(s, b, c)
    case ReadBack => true
    case ProveAbsent(observed) => observed == c && VerifyOwnership(s, c, b.poolID).Ok? && IsRunning(s, c)
  }

  /** An unfinished `Create` that owns container `id`, rooted at `mount`. */
  ghost predicate Holding(s: Site, b: Bootstrap, before: World, w: World, id: int, mount: string) {
    && OnlyNew(before, w, id) && Mine(s, b, w.containers[id])
    && RootOf(w.containers[id]) == Some(mount) && RootedMount(mount) && Alone(before, mount)
  }

  /** What an unfinished or finished `Create` keeps; `before` is the world it was called in. */
  ghost predicate CreateHolds(s: Site, b: Bootstrap, before: World, w: World, p: Proc) {
    match p
    case Early(b', step) => b' == b && w.containers == before.containers
    case Late(b', id, mount, step) =>
      b' == b && Holding(s, b, before, w, id, mount) && LateHolds(s, b, w.containers[id], w.files, mount, step)
    case Cleanup(id, _, step) =>
      OnlyNew(before, w, id) && Mine(s, b, w.containers[id]) && (step.Discard? ==> IsStopped(s, w.containers[id]))
    case Finished(Single(r)) =>
      || (w.containers == before.containers && (r.Ok? ==> Adopted(s, b, before, r.value)))
      || exists id :: OnlyNew(before, w, id) && Mine(s, b, w.containers[id]) && (r.Ok? ==> Delivered(s, b, w, id, r.value))
    case _ => false
  }

  /** `Create` found a container of this name and hands it out as it is. */
  ghost predicate Adopted(s: Site, b: Bootstrap, before: World, instance: Instance) {
    exists id | id in before.containers ::
      && before.containers[id].name == Named(s, b)
      && VerifyOwnership(s, before.containers[id], b.poolID).Ok?
      && instance == ToInstance(s, Item(id, before.containers[id]), b.poolID)
  }

  /** What a newly made container is when `Create` returns it. */
  ghost predicate Delivered(s: Site, b: Bootstrap, w: World, id: int, instance: Instance)
    requires id in w.containers
  {
    var c := w.containers[id];
    && IsRunning(s, c) && VerifyOwnership(s, c, b.poolID).Ok? && Scrubbed(c)
    && instance == ToInstance(s, Item(id, c), b.poolID)
    && exists mount :: RootOf(c) == Some(mount) && mount + TOKEN_PATH !in w.files
  }

  lemma SameInventory(s: Site, b: Bootstrap, before: World, w: World, p: Proc)
    requires w.containers == before.containers
    requires (p.Early? && p.b == b) || (p.Finished? && p.answer.Single?)
    requires p.Finished? && p.answer.instance.Ok? ==> Adopted(s, b, before, p.answer.instance.value)
    ensures CreateHolds(s, b, before, w, p)
  {
    hide Adopted;
    hide Mine;
    hide OnlyNew;
    hide Delivered;
  }

  lemma LeftBehind(s: Site, b: Bootstrap, before: World, w: World, id: int, p: Proc)
    requires OnlyNew(before, w, id) && Mine(s, b, w.containers[id])
    requires p == Fail(if p.Finished? && p.answer.Single? && p.answer.instance.Err? then p.answer.instance.error else Other)
          || (p.Cleanup? && p.id == id && (p.clean.Discard? ==> IsStopped(s, w.containers[id])))
    ensures CreateHolds(s, b, before, w, p)
  {
    hide Mine;
    hide OnlyNew;
    hide Delivered;
    hide IsStopped;
  }

  lemma EarlyKeeps(s: Site, b: Bootstrap, before: World, w: World, step: EarlyStep, o: Outcome)
    requires w.containers == before.containers && !step.AskCreate?
    ensures var (w', r) := Serve(s.p.casing, w, EarlyCall(s, b, step), o);
            CreateHolds(s, b, before, w', ResumeEarly(s, b, step, r))
  {
    hide VerifyOwnership;
    hide Serve;
    hide Trouble;
    hide TrimSpace;
    hide CreateHolds;
    hide ToInstance;
    hide IMAGE_FAMILY;
    hide Named;
    QuietCall(s.p.casing, w, EarlyCall(s, b, step), o);
    if step.AskName? { LookupTells(s.p.casing, w, Named(s, b), o); }
    var (w', r) := Serve(s.p.casing, w, EarlyCall(s, b, step), o);
    SameInventory(s, b, before, w', ResumeEarly(s, b, step, r));
  }

  lemma MakingKeeps(s: Site, b: Bootstrap, before: World, w: World, image: Image, o: Outcome)
    requires s.Valid() && w.containers == before.containers
    ensures var (w', r) := Serve(s.p.casing, w, Create(Requested(s, b, image)), o);
            CreateHolds(s, b, before, w', ResumeEarly(s, b, AskCreate(image), r))
  {
    hide Serve;
    hide Admitted;
    hide CreateHolds;
    hide Named;
    hide InitialEnv;
    hide BOOTSTRAP_INIT;
    hide PLAIN_POLICY;
    hide OwnerRecord;
    hide s.Valid;
    var spec := Requested(s, b, image);
    CreateTells(s.p.casing, w, spec, o);
    var (w', r) := Serve(s.p.casing, w, Create(spec), o);
    if !Makes(w, spec, o) {
      hide Makes;
      SameInventory(s, b, before, w', ResumeEarly(s, b, AskCreate(image), r));
    } else if o.fate == Lost {
      hide Unclaimed;
      LeftBehind(s, b, before, w', o.id, ResumeEarly(s, b, AskCreate(image), r));
    } else {
      assert RootOf(Made(spec, o)) == Mountpoint(o.dataset, spec.name);
      hide Mountpoint;
      hide NameTaken;
      AdmittedHolds(s, b, before, w', Item(o.id, Made(spec, o)));
    }
  }

  lemma AdmittedHolds(s: Site, b: Bootstrap, before: World, w: World, made: Item)
    requires s.Valid() && OnlyNew(before, w, made.id) && w.containers[made.id] == made.container
    requires Mine(s, b, made.container) && Unscrubbed(s, b, made.container)
    requires forall id | id in before.containers ::
               RootOf(before.containers[id]).None? || RootOf(before.containers[id]) != RootOf(made.container)
    ensures CreateHolds(s, b, before, w, Admitted(s, b, made))
  {
    hide VerifyBootstrap;
    hide IsStopped;
    hide RootOf;
    hide NextFile;
    hide Mine;
    hide Unscrubbed;
    hide OnlyNew;
    hide CreateHolds;
    hide Files;
    if VerifyBootstrap(s, made.container, b).Ok? && IsStopped(s, made.container) && RootOf(made.container).Some? {
      StagingHolds(s, b, before, w, made.id, RootOf(made.container).value);
    } else {
      LeftBehind(s, b, before, w, made.id, Admitted(s, b, made));
    }
  }

  lemma StagingHolds(s: Site, b: Bootstrap, before: World, w: World, id: int, mount: string)
    requires s.Valid() && OnlyNew(before, w, id) && Mine(s, b, w.containers[id])
    requires Unscrubbed(s, b, w.containers[id]) && IsStopped(s, w.containers[id]) && RootOf(w.containers[id]) == Some(mount)
    requires forall i | i in before.containers :: RootOf(before.containers[i]) != Some(mount)
    ensures CreateHolds(s, b, before, w, NextFile(b, id, mount, Files(s, b)))
  {
    hide Unscrubbed;
    hide IsStopped;
    hide NextFile;
    hide LateHolds;
    hide RootedMount;
    hide Files;
    hide RootOf;
    hide Named;
    OwnRootIsRooted(s, b, w.containers[id], mount);
    NextFileHolds(s, b, w.containers[id], w.files, mount, [], Files(s, b), id);
  }

  lemma OwnRootIsRooted(s: Site, b: Bootstrap, c: Container, mount: string)
    requires s.Valid() && c.name == Named(s, b) && RootOf(c) == Some(mount)
    ensures RootedMount(mount)
  {
    hide RootedMount;
    hide Mountpoint;
    DigestedNameAdmissible(s.p.casing, s.p.digest, s.controllerID, b.name, '-');
    hide DigestedName;
    MountIsRooted(c.dataset, c.name);
  }

  /** Moving on to the next file keeps what staging promises. */
  lemma NextFileHolds(s: Site, b: Bootstrap, c: Container, files: map<string, File>, mount: string, done: seq<Staged>,
                      rest: seq<Staged>, id: int)
    requires IsStopped(s, c) && Unscrubbed(s, b, c) && RootedMount(mount) && Progress(s, b, files, mount, done, rest)
    ensures var p := NextFile(b, id, mount, rest);
            p.Late? && p.b == b && p.id == id && p.mount == mount && LateHolds(s, b, c, files, mount, p.late)
  {
    hide RootedMount;
    hide IsStopped;
    hide Unscrubbed;
    hide StagingPath;
    hide AllOnDisk;
    hide Files;
    if rest == [] {
      assert Files(s, b) == done;
    } else {
      assert rest == [rest[0]] + rest[1..];
      assert Files(s, b)[|done|] == rest[0];
      PlanStaged(s, b, mount, rest[0]);
      assert Progress(s, b, files, mount, done, [rest[0]] + rest[1..]);
    }
  }

  lemma NotBoth(s: Site, c: Container)
    requires s.Valid()
    ensures !(IsRunning(s, c) && IsStopped(s, c))
  {
  }

  /** While the new container is stopped, no other container's init wrapper removes one of its files. */
  lemma WipeSpares(s: Site, b: Bootstrap, before: World, w: World, id: int, mount: string, wiped: set<int>, f: Staged)
    requires s.Valid() && OnlyNew(before, w, id) && RootOf(w.containers[id]) == Some(mount) && Alone(before, mount)
    requires IsStopped(s, w.containers[id]) && f in Files(s, b) && OnDisk(w.files, mount, f)
    ensures OnDisk(Wiped(s.p.casing, w, wiped).files, mount, f)
  {
    hide RootOf;
    hide Files;
    hide RUNNER_SCRIPT_PATH;
    hide TOKEN_PATH;
    var path := mount + f.path;
    if Wipes(s.p.casing, w, wiped, path) {
      var i :| i in wiped && i in w.containers && InState(s.p.casing, w.containers[i], RUNNING)
               && RootOf(w.containers[i]).Some? && RootOf(w.containers[i]).value + TOKEN_PATH == path;
      NotBoth(s, w.containers[id]);
      hide InState;
      TokenIsStaged(s, b);
      EndsApart(s, b, f, Staged(TOKEN_PATH, PRIVATE, b.token, true), mount, RootOf(w.containers[i]).value);
    }
  }

  lemma TokenIsStaged(s: Site, b: Bootstrap)
    ensures Staged(TOKEN_PATH, PRIVATE, b.token, true) in Files(s, b)
  {
    hide TOKEN_PATH;
    hide RUNNER_SCRIPT_PATH;
    hide INIT_SCRIPT_PATH;
    assert Files(s, b)[2] == Staged(TOKEN_PATH, PRIVATE, b.token, true);
  }

  lemma WipeSparesAll(s: Site, b: Bootstrap, before: World, w: World, id: int, mount: string, wiped: set<int>,
                      staged: seq<Staged>)
    requires s.Valid() && OnlyNew(before, w, id) && RootOf(w.containers[id]) == Some(mount) && Alone(before, mount)
    requires IsStopped(s, w.containers[id]) && (forall f | f in staged :: f in Files(s, b))
    requires AllOnDisk(w.files, mount, staged)
    ensures AllOnDisk(Wiped(s.p.casing, w, wiped).files, mount, staged)
  {
    hide Files;
    hide OnDisk;
    hide OnlyNew;
    hide RootOf;
    hide Alone;
    hide IsStopped;
    forall f | f in staged
      ensures OnDisk(Wiped(s.p.casing, w, wiped).files, mount, f)
    {
      WipeSpares(s, b, before, w, id, mount, wiped, f);
    }
    hide Wiped;
  }

  lemma PutAddsOne(s: Site, b: Bootstrap, files: map<string, File>, mount: string, done: seq<Staged>, file: Staged)
    requires AllOnDisk(files, mount, done) && (forall f | f in done :: f in Files(s, b)) && file in Files(s, b)
    ensures AllOnDisk(files[mount + file.path := File(file.content, file.mode)], mount, done + [file])
  {
    hide Files;
    forall f | f in done + [file]
      ensures OnDisk(files[mount + file.path := File(file.content, file.mode)], mount, f)
    {
      if mount + f.path == mount + file.path {
        if f in done { EndsApart(s, b, f, file, mount, mount); }
      }
    }
  }

  lemma PutKeeps(s: Site, b: Bootstrap, before: World, w: World, id: int, mount: string, file: Staged, full: string,
                 todo: seq<Staged>, o: Outcome)
    requires s.Valid() && CreateHolds(s, b, before, w, Late(b, id, mount, PutIt(file, full, todo)))
    ensures var (w', r) := Serve(s.p.casing, w, PutFile(full, file.content, file.mode), o);
            CreateHolds(s, b, before, w', ResumeLate(s, b, id, mount, PutIt(file, full, todo), r))
  {
    hide Serve;
    hide NameTaken;
    hide Wiped;
    hide Files;
    hide Mine;
    hide IsStopped;
    hide Unscrubbed;
    hide RootedMount;
    hide RootOf;
    hide Alone;
    PutTells(s.p.casing, w, full, file.content, file.mode, o);
    var (w', r) := Serve(s.p.casing, w, PutFile(full, file.content, file.mode), o);
    if r.Failed? {
      LeftBehind(s, b, before, w', id, Cleanup(id, r.error, Observe));
    } else {
      var done :| Progress(s, b, w.files, mount, done, [file] + todo);
      PutProgress(s, b, before, w, id, mount, file, todo, done, o.wiped);
      assert OnlyNew(before, w', id);
      hide Progress;
      hide OnlyNew;
      assert LateHolds(s, b, w'.containers[id], w'.files, mount, StatIt(file, full, todo));
    }
  }

  lemma PutProgress(s: Site, b: Bootstrap, before: World, w: World, id: int, mount: string, file: Staged,
                    todo: seq<Staged>, done: seq<Staged>, wiped: set<int>)
    requires s.Valid() && OnlyNew(before, w, id) && RootOf(w.containers[id]) == Some(mount) && Alone(before, mount)
    requires IsStopped(s, w.containers[id]) && Progress(s, b, w.files, mount, done, [file] + todo)
    ensures var files := Wiped(s.p.casing, w, wiped).files[mount + file.path := File(file.content, file.mode)];
            Progress(s, b, files, mount, done + [file], todo)
  {
    hide Files;
    hide AllOnDisk;
    hide Wiped;
    hide OnlyNew;
    hide RootOf;
    hide Alone;
    hide IsStopped;
    assert done + ([file] + todo) == done + [file] + todo;
    assert forall f | f in done :: f in done + ([file] + todo);
    assert file in [file] + todo && file in done + ([file] + todo);
    WipeSparesAll(s, b, before, w, id, mount, wiped, done);
    PutAddsOne(s, b, Wiped(s.p.casing, w, wiped).files, mount, done, file);
  }

  lemma StatKeeps(s: Site, b: Bootstrap, before: World, w: World, id: int, mount: string, file: Staged, full: string,
                  todo: seq<Staged>, o: Outcome)
    requires s.Valid() && CreateHolds(s, b, before, w, Late(b, id, mount, StatIt(file, full, todo)))
    ensures var (w', r) := Serve(s.p.casing, w, StatFile(full), o);
            CreateHolds(s, b, before, w', ResumeLate(s, b, id, mount, StatIt(file, full, todo), r))
  {
    hide Serve;
    hide Mine;
    hide IsStopped;
    hide Unscrubbed;
    hide RootedMount;
    hide RootOf;
    hide NextFile;
    hide ReadsBack;
    StatTells(s.p.casing, w, full, o);
    var (w', r) := Serve(s.p.casing, w, StatFile(full), o);
    if r.Failed? || !ReadsBack(r, file) {
      LeftBehind(s, b, before, w', id, ResumeLate(s, b, id, mount, StatIt(file, full, todo), r));
    } else {
      var done :| Progress(s, b, w.files, mount, done + [file], todo);
      assert forall f | f in done + [file] :: f in done + [file] + todo;
      WipeSparesAll(s, b, before, w, id, mount, o.wiped, done + [file]);
      NextFileHolds(s, b, w'.containers[id], w'.files, mount, done + [file], todo, id);
      hide AllOnDisk;
      hide LateHolds;
    }
  }

  lemma StartKeeps(s: Site, b: Bootstrap, before: World, w: World, id: int, mount: string, o: Outcome)
    requires s.Valid() && CreateHolds(s, b, before, w, Late(b, id, mount, StartIt))
    ensures var (w', r) := Serve(s.p.casing, w, Start(id), o);
            CreateHolds(s, b, before, w', ResumeLate(s, b, id, mount, StartIt, r))
  {
    hide Serve;
    hide RootedMount;
    hide Mountpoint;
    hide Alone;
    hide Files;
    hide AllOnDisk;
    hide InitialEnv;
    hide IsStopped;
    hide Named;
    hide OwnerRecord;
    PowerTells(s.p.casing, w, id, Start(id), o);
    var (w', r) := Serve(s.p.casing, w, Start(id), o);
    assert OnlyNew(before, w', id) && Mine(s, b, w'.containers[id]) && RootOf(w'.containers[id]) == Some(mount);
    if r.Failed? {
      LeftBehind(s, b, before, w', id, Cleanup(id, r.error, Observe));
    }
  }

  lemma ScrubKeeps(s: Site, b: Bootstrap, before: World, w: World, id: int, mount: string, o: Outcome)
    requires s.Valid() && CreateHolds(s, b, before, w, Late(b, id, mount, Scrub))
    ensures var (w', r) := Serve(s.p.casing, w, Update(id, DEFAULT_INIT, map[]), o);
            CreateHolds(s, b, before, w', ResumeLate(s, b, id, mount, Scrub, r))
  {
    hide Serve;
    hide RootedMount;
    hide Mountpoint;
    hide Alone;
    hide Files;
    hide InitialEnv;
    hide Named;
    hide OwnerRecord;
    hide DEFAULT_INIT;
    hide BOOTSTRAP_INIT;
    UpdateTells(s.p.casing, w, id, DEFAULT_INIT, map[], o);
    var (w', r) := Serve(s.p.casing, w, Update(id, DEFAULT_INIT, map[]), o);
    assert OnlyNew(before, w', id) && Mine(s, b, w'.containers[id]) && RootOf(w'.containers[id]) == Some(mount);
    if r.Failed? {
      LeftBehind(s, b, before, w', id, Cleanup(id, r.error, Observe));
    }
  }

  lemma ReadBackKeeps(s: Site, b: Bootstrap, before: World, w: World, id: int, mount: string, o: Outcome)
    requires s.Valid() && CreateHolds(s, b, before, w, Late(b, id, mount, ReadBack))
    ensures var (w', r) := Serve(s.p.casing, w, Get(id), o);
            CreateHolds(s, b, before, w', ResumeLate(s, b, id, mount, ReadBack, r))
  {
    hide Serve;
    hide RootedMount;
    hide RootOf;
    hide Alone;
    hide Mine;
    hide IsRunning;
    hide VerifyOwnership;
    hide Trouble;
    GetTells(s.p.casing, w, id, o);
    var (w', r) := Serve(s.p.casing, w, Get(id), o);
    var p := ResumeLate(s, b, id, mount, ReadBack, r);
    if p.Cleanup? { LeftBehind(s, b, before, w', id, p); }
  }

  lemma ProveAbsentKeeps(s: Site, b: Bootstrap, before: World, w: World, id: int, mount: string, observed: Container, o: Outcome)
    requires s.Valid() && CreateHolds(s, b, before, w, Late(b, id, mount, ProveAbsent(observed)))
    ensures var (w', r) := Serve(s.p.casing, w, StatFile(TokenFile(mount)), o);
            var p := ResumeLate(s, b, id, mount, ProveAbsent(observed), r);
            && CreateHolds(s, b, before, w', p)
            && (p.Finished? ==> p.answer.Single? && p.answer.instance.Ok? && OnlyNew(before, w', id)
                                && Delivered(s, b, w', id, p.answer.instance.value))
  {
    hide Serve;
    hide RootOf;
    hide Alone;
    hide Mine;
    hide IsRunning;
    hide TokenFile;
    hide TOKEN_PATH;
    hide RootedMount;
    hide ToInstance;
    TokenFilePlaced(mount);
    StatTells(s.p.casing, w, TokenFile(mount), o);
    var (w', r) := Serve(s.p.casing, w, StatFile(TokenFile(mount)), o);
    var p := ResumeLate(s, b, id, mount, ProveAbsent(observed), r);
    if p.Cleanup? {
      LeftBehind(s, b, before, w', id, p);
    } else {
      OwnedIsScrubbed(s, observed, b.poolID);
      hide VerifyOwnership;
      hide Scrubbed;
      assert Delivered(s, b, w', id, p.answer.instance.value);
    }
  }

  lemma OwnedIsScrubbed(s: Site, c: Container, poolID: string)
    requires VerifyOwnership(s, c, poolID).Ok?
    ensures Scrubbed(c) && Owner(s, c).Ok? && InPool(c, poolID)
  {
    hide Identified;
    hide SoundBase;
    hide DEFAULT_INIT;
  }

  lemma LateKeeps(s: Site, b: Bootstrap, before: World, w: World, id: int, mount: string, step: LateStep, o: Outcome)
    requires s.Valid() && CreateHolds(s, b, before, w, Late(b, id, mount, step))
    ensures var (w', r) := Serve(s.p.casing, w, LateCall(id, mount, step), o);
            CreateHolds(s, b, before, w', ResumeLate(s, b, id, mount, step, r))
  {
    hide CreateHolds;
    hide Serve;
    hide ResumeLate;
    match step
    case PutIt(file, full, todo) => PutKeeps(s, b, before, w, id, mount, file, full, todo, o);
    case StatIt(file, full, todo) => StatKeeps(s, b, before, w, id, mount, file, full, todo, o);
    case StartIt => StartKeeps(s, b, before, w, id, mount, o);
    case Scrub => ScrubKeeps(s, b, before, w, id, mount, o);
    case ReadBack => ReadBackKeeps(s, b, before, w, id, mount, o);
    case ProveAbsent(observed) => ProveAbsentKeeps(s, b, before, w, id, mount, observed, o);
  }

  lemma CleanupKeeps(s: Site, b: Bootstrap, before: World, w: World, id: int, error: Error, step: CleanStep, o: Outcome)
    requires CreateHolds(s, b, before, w, Cleanup(id, error, step))
    ensures var (w', r) := Serve(s.p.casing, w, CleanCall(id, step), o);
            CreateHolds(s, b, before, w', ResumeCleanup(s, id, error, step, r))
  {
    hide Serve;
    hide Mine;
    hide IsRunning;
    hide IsStopped;
    var (w', r) := Serve(s.p.casing, w, CleanCall(id, step), o);
    match step
    case Observe => GetTells(s.p.casing, w, id, o); LeftBehind(s, b, before, w', id, ResumeCleanup(s, id, error, step, r));
    case Recheck => GetTells(s.p.casing, w, id, o); LeftBehind(s, b, before, w', id, ResumeCleanup(s, id, error, step, r));
    case ForceStop =>
      PowerTells(s.p.casing, w, id, Stop(id, true), o);
      PowerKeepsMine(s, b, w.containers[id], w'.containers[id]);
      LeftBehind(s, b, before, w', id, ResumeCleanup(s, id, error, step, r));
    case Discard =>
      DeleteTells(s.p.casing, w, id, o);
      assert w.containers - {id} == before.containers;
      if w'.containers == before.containers {
        SameInventory(s, b, before, w', Fail(error));
      } else {
        LeftBehind(s, b, before, w', id, Fail(error));
      }
  }

  lemma PowerKeepsMine(s: Site, b: Bootstrap, c: Container, d: Container)
    requires Mine(s, b, c) && d == c.(state := d.state)
    ensures Mine(s, b, d)
  {
    hide InitialEnv;
    hide Named;
    hide OwnerRecord;
    hide BOOTSTRAP_INIT;
    hide DEFAULT_INIT;
  }

  lemma CreateStepKeeps(s: Site, b: Bootstrap, before: World, st: Moment, o: Outcome)
    requires s.Valid() && CreateHolds(s, b, before, st.world, st.proc)
    ensures var next := Step(s, st, o); CreateHolds(s, b, before, next.world, next.proc)
  {
    hide Serve;
    hide ResumeEarly;
    hide ResumeLate;
    hide ResumeCleanup;
    hide Holding;
    hide LateHolds;
    hide OnlyNew;
    hide Mine;
    match st.proc
    case Early(_, step) =>
      if step.AskCreate? {
        MakingKeeps(s, b, before, st.world, step.image, o);
      } else {
        EarlyKeeps(s, b, before, st.world, step, o);
      }
    case Late(_, id, mount, step) => LateKeeps(s, b, before, st.world, id, mount, step, o);
    case Cleanup(id, error, step) => CleanupKeeps(s, b, before, st.world, id, error, step, o);
    case _ =>
  }

  /** At every point of every run of `Create`, whatever TrueNAS answers and wherever it stops. */
  lemma {:induction false} CreateRunHolds(s: Site, b: Bootstrap, before: World, oracle: nat -> Outcome, i: nat, j: nat)
    requires s.Valid() && i <= j
    ensures var st := Run(s, Moment(before, Begin(CreateOp(b))), oracle, i, j); CreateHolds(s, b, before, st.world, st.proc)
  {
    hide CreateHolds;
    hide Step;
    if i == j {
      SameInventory(s, b, before, before, Begin(CreateOp(b)));
    } else {
      CreateRunHolds(s, b, before, oracle, i, j - 1);
      CreateStepKeeps(s, b, before, Run(s, Moment(before, Begin(CreateOp(b))), oracle, i, j - 1), oracle(j - 1));
    }
  }
}

/** The container backend: what TrueNAS holds, what one client call does to it, and each manager operation as the
    sequence of calls it makes. An operation that dies is one that is not stepped any further. */
module Container {
  import opened Text
  import opened Names
  import opened Provider
  import opened Paths

  const FLAVOR := "truenas-container-linux-general"
  const IMAGE_FAMILY := "ubuntu:noble:amd64:default"
  const OWNER_SCHEMA := "semper-supra.garm-container-owner/1"
  const MANAGED_BY := "garm-provider-truenas"
  const DEFAULT_INIT := "/sbin/init"
  const BOOTSTRAP_INIT := "/bin/sh /usr/local/bin/garm-container-init"
  const RUNNER_SCRIPT_PATH := Root(["usr", "local", "bin", "garm-runner-bootstrap"])
  const INIT_SCRIPT_PATH := Root(["usr", "local", "bin", "garm-container-init"])
  const TOKEN_PATH := Root(["var", "lib", "garm-container", "bootstrap-instance-token"])
  const PLAIN_POLICY := "DEFAULT"
  const RUNNING := "RUNNING"
  const STOPPED := "STOPPED"

  datatype Image = Image(name: string, version: string)

  /** The environment variables the provider sets, and every other one. */
  datatype Variable =
    CallbackURL | MetadataURL | InstanceToken | DownloadURL | Filename | SHA256 | AllowRunAsRoot | Another(text: string)

  datatype Ownership = Ownership(
    schema: string, managedBy: string, controllerID: string, poolID: string, runnerName: string, profile: string)

  /** A container as TrueNAS reports it; the description is what its JSON text decodes to. */
  datatype Container = Container(
    name: string, description: Option<Ownership>, state: string, dataset: string, image: Image, autostart: bool,
    idMap: string, capabilities: string, init: string, env: map<Variable, string>)

  datatype File = File(content: string, mode: nat)

  datatype World = World(containers: map<int, Container>, files: map<string, File>)

  /** One configured manager; `wrapper` is the text of the init wrapper script. */
  datatype Site = Site(p: Platform, wrapper: string, controllerID: string, systemVersion: string)
  {
    ghost predicate Valid() {
      p.Valid() && !Blank(controllerID)
    }
  }

  // ----- what the manager demands of a container -----

  predicate InState(casing: CaseMaps, c: Container, state: string) {
    casing.EqualFold(c.state, state)
  }

  predicate IsRunning(s: Site, c: Container) {
    InState(s.p.casing, c, RUNNING)
  }

  predicate IsStopped(s: Site, c: Container) {
    InState(s.p.casing, c, STOPPED)
  }

  /** `decodeOwnedIdentity` */
  predicate Identified(s: Site, c: Container) {
    match c.description
    case None => false
    case Some(owner) =>
      owner.schema == OWNER_SCHEMA && owner.managedBy == MANAGED_BY && owner.controllerID == s.controllerID
      && owner.profile == FLAVOR
  }

  /** `verifyBaseRuntime` */
  predicate SoundBase(casing: CaseMaps, c: Container) {
    && !c.autostart && c.idMap == PLAIN_POLICY && c.capabilities == PLAIN_POLICY
    && !Blank(c.dataset)
    && c.image.name == IMAGE_FAMILY && !Blank(c.image.version)
    && (casing.upper(c.state) == RUNNING || casing.upper(c.state) == STOPPED)
  }

  /** `verifySteadyRuntime` */
  predicate Steady(casing: CaseMaps, c: Container) {
    SoundBase(casing, c) && c.init == DEFAULT_INIT && c.env == map[]
  }

  /** `owner` */
  function Owner(s: Site, c: Container): Result<Ownership> {
    if !Identified(s, c) then Err(Foreign)
    else if !Steady(s.p.casing, c) then Err(ManagedDrift)
    else Ok(c.description.value)
  }

  predicate InPool(c: Container, poolID: string) {
    poolID == "" || (c.description.Some? && c.description.value.poolID == poolID)
  }

  /** `verifyOwnership` */
  function VerifyOwnership(s: Site, c: Container, poolID: string): Result<Unit> {
    match Owner(s, c)
    case Err(e) => Err(e)
    case Ok(_) => if InPool(c, poolID) then Ok(Unit.Unit) else Err(Foreign)
  }

  /** `verifyBootstrapOwnership` */
  function VerifyBootstrap(s: Site, c: Container, b: Bootstrap): Result<Unit> {
    if !Identified(s, c) || !InPool(c, b.poolID) then Err(Foreign)
    else if SoundBase(s.p.casing, c) && c.init == BOOTSTRAP_INIT && c.env == InitialEnv(s, b) then Ok(Unit.Unit)
    else Err(ManagedDrift)
  }

  // ----- the bootstrap plan -----

  datatype Staged = Staged(path: string, mode: nat, content: string, secret: bool)

  function BootstrapEnv(s: Site, b: Bootstrap): map<Variable, string> {
    map[CallbackURL := b.callbackURL, MetadataURL := b.metadataURL, InstanceToken := b.token,
        DownloadURL := s.p.contract.tool.url, Filename := s.p.contract.tool.filename, SHA256 := s.p.contract.tool.sha256]
  }

  function InitialEnv(s: Site, b: Bootstrap): map<Variable, string> {
    (BootstrapEnv(s, b) - {InstanceToken})[AllowRunAsRoot := "1"]
  }

  const EXECUTABLE := 0x1ED
  const PRIVATE := 0x180

  function Files(s: Site, b: Bootstrap): seq<Staged> {
    [Staged(RUNNER_SCRIPT_PATH, EXECUTABLE, s.p.script, false),
     Staged(INIT_SCRIPT_PATH, EXECUTABLE, s.wrapper, false),
     Staged(TOKEN_PATH, PRIVATE, b.token, true)]
  }

  /** The container `Create` asks for; TrueNAS chooses its state and dataset. */
  function Requested(s: Site, b: Bootstrap, image: Image): Container {
    Container(Named(s, b), Some(OwnerRecord(s, b)), "", "", image, false, PLAIN_POLICY, PLAIN_POLICY, BOOTSTRAP_INIT, InitialEnv(s, b))
  }

  function OwnerRecord(s: Site, b: Bootstrap): Ownership {
    Ownership(OWNER_SCHEMA, MANAGED_BY, s.controllerID, b.poolID, b.name, FLAVOR)
  }

  function Named(s: Site, b: Bootstrap): string {
    DigestedName(s.p.casing, s.p.digest, s.controllerID, b.name, '-')
  }

  /** `path.Join(mountpoint, …)` of the token file, as the last check of `Create` spells it. */
  function TokenFile(mount: string): string {
    JoinPath(mount, TrimPrefix(TOKEN_PATH, "/"))
  }

  /** The path checks of `stageBootstrapFiles` for one file. */
  function StagingPath(mount: string, file: Staged): Option<string> {
    match Place(mount, file.path)
    case At(full) => if file.secret && (file.path != TOKEN_PATH || file.mode != PRIVATE) then None else Some(full)
    case _ => None
  }

  // ----- client calls -----

  datatype Call =
    | SystemVersion
    | ResolveImage(family: string)
    | GetByName(name: string)
    | Get(id: int)
    | List
    | Create(spec: Container)
    | Update(id: int, init: string, env: map<Variable, string>)
    | PutFile(path: string, content: string, mode: nat)
    | StatFile(path: string)
    | Start(id: int)
    | Stop(id: int, force: bool)
    | Delete(id: int)

  datatype Item = Item(id: int, container: Container)

  datatype Reply =
    | Failed(error: Error)
    | Text(text: string)
    | ImageIs(image: Image)
    | One(item: Item)
    | Many(items: seq<Item>)
    | Stat(size: nat, mode: nat)
    | Acknowledged

  /** What becomes of one call: served, refused untouched, carried out but reported as failed, or acknowledged
      without being carried out. */
  datatype Fate = Served | Refused | Lost | Ignored

  /** Everything about one call that TrueNAS decides. `wiped` names running containers whose init wrapper has by
      then removed its token file. */
  datatype Outcome = Outcome(
    fate: Fate, text: string, image: Image, id: int, state: string, dataset: string, order: seq<int>, wiped: set<int>)

  predicate NameTaken(w: World, name: string) {
    exists id | id in w.containers :: w.containers[id].name == name
  }

  /** TrueNAS gives no two containers one name or one root directory. */
  predicate Unclaimed(w: World, name: string, dataset: string) {
    && !NameTaken(w, name)
    && forall id | id in w.containers ::
         var root := RootOf(w.containers[id]); root.None? || root != Mountpoint(dataset, name)
  }

  function RootOf(c: Container): Option<string> {
    Mountpoint(c.dataset, c.name)
  }

  predicate Enumerates(ids: seq<int>, all: set<int>) {
    && (forall k | 0 <= k < |ids| :: ids[k] in all) && (forall i | i in all :: i in ids)
    && forall j, k | 0 <= j < k < |ids| :: ids[j] != ids[k]
  }

  function Itemized(w: World, ids: seq<int>): seq<Item>
    requires forall k | 0 <= k < |ids| :: ids[k] in w.containers
  {
    if ids == [] then [] else [Item(ids[0], w.containers[ids[0]])] + Itemized(w, ids[1..])
  }

  const REGULAR_FILE := 0x8000

  function Changed(w: World, id: int, c: Container): World {
    w.(containers := w.containers[id := c])
  }

  /** A call that is carried out. */
  function Effect(w: World, call: Call, o: Outcome): (World, Reply) {
    match call
    case SystemVersion => (w, Text(o.text))
    case ResolveImage(_) => (w, ImageIs(o.image))
    case GetByName(name) =>
      if o.id in w.containers && w.containers[o.id].name == name then (w, One(Item(o.id, w.containers[o.id])))
      else (w, Failed(if NameTaken(w, name) then Other else NotFound))
    case Get(id) => (w, if id in w.containers then One(Item(id, w.containers[id])) else Failed(NotFound))
    case List => (w, if Enumerates(o.order, w.containers.Keys) then Many(Itemized(w, o.order)) else Failed(Other))
    case Create(spec) =>
      if o.id in w.containers || !Unclaimed(w, spec.name, o.dataset) then (w, Failed(Other))
      else
        var made := spec.(state := o.state, dataset := o.dataset);
        (Changed(w, o.id, made), One(Item(o.id, made)))
    case Update(id, init, env) =>
      if id !in w.containers then (w, Failed(NotFound))
      else
        var updated := w.containers[id].(init := init, env := env);
        (Changed(w, id, updated), One(Item(id, updated)))
    case PutFile(path, content, mode) => (w.(files := w.files[path := File(content, mode)]), Acknowledged)
    case StatFile(path) =>
      (w, if path in w.files then Stat(ByteLength(w.files[path].content), REGULAR_FILE + w.files[path].mode)
          else Failed(NotFound))
    case Start(id) => Powered(w, id, o.state)
    case Stop(id, _) => Powered(w, id, o.state)
    case Delete(id) =>
      if id in w.containers then (w.(containers := w.containers - {id}), Acknowledged) else (w, Failed(NotFound))
  }

  function Powered(w: World, id: int, state: string): (World, Reply) {
    if id !in w.containers then (w, Failed(NotFound))
    else (Changed(w, id, w.containers[id].(state := state)), Acknowledged)
  }

  predicate Wipes(casing: CaseMaps, w: World, wiped: set<int>, path: string) {
    exists id | id in wiped && id in w.containers ::
      && InState(casing, w.containers[id], RUNNING)
      && RootOf(w.containers[id]).Some?
      && RootOf(w.containers[id]).value + TOKEN_PATH == path
  }

  /** The init wrappers of running containers remove their token files in their own time. */
  function Wiped(casing: CaseMaps, w: World, wiped: set<int>): World {
    w.(files := map path | path in w.files && !Wipes(casing, w, wiped, path) :: w.files[path])
  }

  predicate Ignorable(call: Call) {
    call.Update? || call.Start? || call.Stop? || call.Delete?
  }

  function Serve(casing: CaseMaps, w: World, call: Call, o: Outcome): (World, Reply) {
    var w := Wiped(casing, w, o.wiped);
    var (done, reply) := Effect(w, call, o);
    match o.fate
    case Refused => (w, Failed(Other))
    case Lost => (done, Failed(Other))
    case Ignored => (if Ignorable(call) then w else done, reply)
    case Served => (done, reply)
  }

  // ----- the operations, call by call -----

  datatype Answer = Single(instance: Result<Instance>) | Several(instances: Result<seq<Instance>>) | Plain(done: Result<Unit>)

  /** `Create` before its container exists. */
  datatype EarlyStep = AskVersion | AskName | AskImage | AskCreate(image: Image)

  /** `Create` once it has a container: `todo` are the files after the one at hand. */
  datatype LateStep =
    | PutIt(file: Staged, full: string, todo: seq<Staged>)
    | StatIt(file: Staged, full: string, todo: seq<Staged>)
    | StartIt
    | Scrub
    | ReadBack
    | ProveAbsent(observed: Container)

  /** `cleanupFailedCreate` */
  datatype CleanStep = Observe | ForceStop | Recheck | Discard

  datatype LookStep = GetFind(providerID: string) | ListPool(poolID: string)
    | StopFind(providerID: string) | StopCall(id: int) | StopCheck(id: int)

  datatype DeleteStep = DeleteFind(providerID: string) | DeleteCall(id: int) | DeleteCheck(id: int)

  /** What `Delete` returns to: its caller, or the loop of `RemoveAll`. */
  datatype After = Answering | Sweeping(todo: seq<string>, active: bool)

  /** An operation about to make its next client call, or finished. */
  datatype Proc =
    | Early(b: Bootstrap, early: EarlyStep)
    | Late(b: Bootstrap, id: int, mount: string, late: LateStep)
    | Cleanup(id: int, error: Error, clean: CleanStep)
    | Look(look: LookStep)
    | Deleting(step: DeleteStep, after: After)
    | SweepList
    | SweepFind(providerID: string, todo: seq<string>, active: bool)
    | Finished(answer: Answer)

  function EarlyCall(s: Site, b: Bootstrap, step: EarlyStep): Call {
    match step
    case AskVersion => SystemVersion
    case AskName => GetByName(Named(s, b))
    case AskImage => ResolveImage(IMAGE_FAMILY)
    case AskCreate(image) => Create(Requested(s, b, image))
  }

  function LateCall(id: int, mount: string, step: LateStep): Call {
    match step
    case PutIt(file, full, _) => PutFile(full, file.content, file.mode)
    case StatIt(_, full, _) => StatFile(full)
    case StartIt => Start(id)
    case Scrub => Update(id, DEFAULT_INIT, map[])
    case ReadBack => Get(id)
    case ProveAbsent(_) => StatFile(TokenFile(mount))
  }

  function CleanCall(id: int, step: CleanStep): Call {
    match step
    case Observe => Get(id)
    case ForceStop => Stop(id, true)
    case Recheck => Get(id)
    case Discard => Delete(id)
  }

  function LookCall(step: LookStep): Call {
    match step
    case StopCall(id) => Stop(id, false)
    case StopCheck(id) => Get(id)
    case _ => List
  }

  function DeleteStepCall(step: DeleteStep): Call {
    match step
    case DeleteFind(_) => List
    case DeleteCall(id) => Delete(id)
    case DeleteCheck(id) => Get(id)
  }

  function Wants(s: Site, p: Proc): Call
    requires !p.Finished?
  {
    match p
    case Early(b, step) => EarlyCall(s, b, step)
    case Late(_, id, mount, step) => LateCall(id, mount, step)
    case Cleanup(id, _, step) => CleanCall(id, step)
    case Look(step) => LookCall(step)
    case Deleting(step, _) => DeleteStepCall(step)
    case SweepList => List
    case SweepFind(_, _, _) => List
  }

  function Fail(error: Error): Proc {
    Finished(Single(Err(error)))
  }

  function Close(r: Result<Unit>): Proc {
    Finished(Plain(r))
  }

  predicate Accepts(b: Bootstrap) {
    CommonBootstrap(b, FLAVOR)
  }

  function ProviderID(id: int): string {
    "container:" + Decimal(id)
  }

  function ToInstance(s: Site, item: Item, poolID: string): Instance {
    Instance(ProviderID(item.id), item.container.name, "truenas-system-container", item.container.image.version,
             s.p.casing.lower(item.container.state), poolID)
  }

  /** The error of a reply that is not what was asked for. */
  function Trouble(r: Reply): Error {
    if r.Failed? then r.error else Other
  }

  function ResumeEarly(s: Site, b: Bootstrap, step: EarlyStep, r: Reply): Proc {
    match step
    case AskVersion =>
      if !r.Text? then Fail(Trouble(r))
      else if TrimSpace(r.text) == TrimSpace(s.systemVersion) then Early(b, AskName) else Fail(ManagedDrift)
    case AskName =>
      if r == Failed(NotFound) then Early(b, AskImage)
      else if !r.One? then Fail(Trouble(r))
      else Finished(Single(match VerifyOwnership(s, r.item.container, b.poolID)
                           case Err(e) => Err(e)
                           case Ok(_) => Ok(ToInstance(s, r.item, b.poolID))))
    case AskImage =>
      if !r.ImageIs? then Fail(Trouble(r))
      else if r.image.name == IMAGE_FAMILY && !Blank(r.image.version) then Early(b, AskCreate(r.image))
      else Fail(ManagedDrift)
    case AskCreate(_) => if r.One? then Admitted(s, b, r.item) else Fail(Trouble(r))
  }

  /** The checks right after the container exists, then the first staged file. */
  function Admitted(s: Site, b: Bootstrap, made: Item): Proc {
    match VerifyBootstrap(s, made.container, b)
    case Err(e) => Fail(e)
    case Ok(_) =>
      if !IsStopped(s, made.container) then Fail(ManagedDrift)
      else match RootOf(made.container)
        case None => Cleanup(made.id, ManagedDrift, Observe)
        case Some(mount) => NextFile(b, made.id, mount, Files(s, b))
  }

  /** The loop of `stageBootstrapFiles` with `todo` still to stage. */
  function NextFile(b: Bootstrap, id: int, mount: string, todo: seq<Staged>): Proc {
    if todo == [] then Late(b, id, mount, StartIt)
    else match StagingPath(mount, todo[0])
      case None => Cleanup(id, UnsafeOperation, Observe)
      case Some(full) => Late(b, id, mount, PutIt(todo[0], full, todo[1..]))
  }

  predicate ReadsBack(r: Reply, file: Staged) {
    r.Stat? && r.size == ByteLength(file.content) && r.mode % 0x200 == file.mode
  }

  function ResumeLate(s: Site, b: Bootstrap, id: int, mount: string, step: LateStep, r: Reply): Proc {
    match step
    case PutIt(file, full, todo) =>
      if r.Failed? then Cleanup(id, r.error, Observe) else Late(b, id, mount, StatIt(file, full, todo))
    case StatIt(file, _, todo) =>
      if r.Failed? then Cleanup(id, r.error, Observe)
      else if ReadsBack(r, file) then NextFile(b, id, mount, todo) else Cleanup(id, ManagedDrift, Observe)
    case StartIt => if r.Failed? then Cleanup(id, r.error, Observe) else Late(b, id, mount, Scrub)
    case Scrub => if r.Failed? then Cleanup(id, r.error, Observe) else Late(b, id, mount, ReadBack)
    case ReadBack =>
      if !r.One? then Cleanup(id, Trouble(r), Observe)
      else (match VerifyOwnership(s, r.item.container, b.poolID)
            case Err(e) => Cleanup(id, e, Observe)
            case Ok(_) =>
              if IsRunning(s, r.item.container) then Late(b, id, mount, ProveAbsent(r.item.container))
              else Cleanup(id, ManagedDrift, Observe))
    case ProveAbsent(observed) =>
      if r == Failed(NotFound) then Finished(Single(Ok(ToInstance(s, Item(id, observed), b.poolID))))
      else Cleanup(id, if r.Failed? then r.error else ManagedDrift, Observe)
  }

  function ResumeCleanup(s: Site, id: int, error: Error, step: CleanStep, r: Reply): Proc {
    match step
    case Observe =>
      if !r.One? then Fail(error) else Cleanup(id, error, if IsRunning(s, r.item.container) then ForceStop else Recheck)
    case ForceStop => if r.Failed? then Fail(error) else Cleanup(id, error, Recheck)
    case Recheck => if r.One? && IsStopped(s, r.item.container) then Cleanup(id, error, Discard) else Fail(error)
    case Discard => Fail(error)
  }

  function Find(items: seq<Item>, providerID: string): Option<Item> {
    if items == [] then None
    else if ProviderID(items[0].id) == providerID then Some(items[0])
    else Find(items[1..], providerID)
  }

  /** `findOwned` on one listing; `Get` looks its container up in the same way. */
  function FindOwned(s: Site, items: seq<Item>, providerID: string): Result<Item> {
    match Find(items, providerID)
    case None => Err(NotFound)
    case Some(item) =>
      match Owner(s, item.container)
      case Err(e) => Err(e)
      case Ok(_) => Ok(item)
  }

  /** `findOwned` on the reply to its `List` call. */
  function Found(s: Site, r: Reply, providerID: string): Result<Item> {
    if r.Many? then FindOwned(s, r.items, providerID) else Err(Trouble(r))
  }

  function PoolOf(c: Container): string {
    if c.description.Some? then c.description.value.poolID else ""
  }

  /** The containers `List` looks at: it asks for less than full ownership before it insists on a steady runtime. */
  predicate Claimed(s: Site, c: Container, poolID: string) {
    && c.description.Some? && c.description.value.controllerID == s.controllerID
    && c.description.value.managedBy == MANAGED_BY
    && (poolID == "" || c.description.value.poolID == poolID)
  }

  function Listed(s: Site, items: seq<Item>, poolID: string): Result<seq<Item>> {
    if items == [] then Ok([])
    else if !Claimed(s, items[0].container, poolID) then Listed(s, items[1..], poolID)
    else if !Steady(s.p.casing, items[0].container) then Err(ManagedDrift)
    else match Listed(s, items[1..], poolID)
      case Err(e) => Err(e)
      case Ok(rest) => Ok([items[0]] + rest)
  }

  /** The items `List` selects from the reply to its client call. */
  function Selected(s: Site, r: Reply, poolID: string): Result<seq<Item>> {
    if r.Many? then Listed(s, r.items, poolID) else Err(Trouble(r))
  }

  function Instances(s: Site, items: seq<Item>): seq<Instance> {
    if items == [] then [] else [ToInstance(s, items[0], PoolOf(items[0].container))] + Instances(s, items[1..])
  }

  function ProviderIDs(items: seq<Item>): seq<string> {
    if items == [] then [] else [ProviderID(items[0].id)] + ProviderIDs(items[1..])
  }

  function ResumeLook(s: Site, step: LookStep, r: Reply): Proc {
    match step
    case GetFind(providerID) =>
      Finished(Single(match Found(s, r, providerID)
                      case Err(e) => Err(e)
                      case Ok(item) => Ok(ToInstance(s, item, PoolOf(item.container)))))
    case ListPool(poolID) =>
      Finished(Several(match Selected(s, r, poolID) case Err(e) => Err(e) case Ok(items) => Ok(Instances(s, items))))
    case StopFind(providerID) =>
      (match Found(s, r, providerID)
       case Err(e) => Close(Err(e))
       case Ok(item) =>
         if IsStopped(s, item.container) then Close(Ok(Unit.Unit))
         else if IsRunning(s, item.container) then Look(StopCall(item.id)) else Close(Err(UnsafeOperation)))
    case StopCall(id) => if r.Failed? then Close(Err(r.error)) else Look(StopCheck(id))
    case StopCheck(_) =>
      Close(if !r.One? then Err(Trouble(r))
            else if IsStopped(s, r.item.container) then Ok(Unit.Unit) else Err(ManagedDrift))
  }

  function NextSweep(todo: seq<string>, active: bool): Proc {
    if todo == [] then Close(if active then Err(Active) else Ok(Unit.Unit)) else SweepFind(todo[0], todo[1..], active)
  }

  function Return(after: After, r: Result<Unit>): Proc {
    if after.Answering? || r.Err? then Close(r) else NextSweep(after.todo, after.active)
  }

  function ResumeDelete(s: Site, step: DeleteStep, after: After, r: Reply): Proc {
    match step
    case DeleteFind(providerID) =>
      (match Found(s, r, providerID)
       case Err(e) => Return(after, if e == NotFound then Ok(Unit.Unit) else Err(e))
       case Ok(item) =>
         if IsStopped(s, item.container) then Deleting(DeleteCall(item.id), after) else Return(after, Err(Active)))
    case DeleteCall(id) => if r.Failed? then Return(after, Err(r.error)) else Deleting(DeleteCheck(id), after)
    case DeleteCheck(_) =>
      Return(after, if r == Failed(NotFound) then Ok(Unit.Unit) else Err(if r.Failed? then r.error else ManagedDrift))
  }

  function ResumeSweep(s: Site, providerID: string, todo: seq<string>, active: bool, r: Reply): Proc {
    match Found(s, r, providerID)
    case Err(e) => Close(Err(e))
    case Ok(item) =>
      if IsStopped(s, item.container) then Deleting(DeleteFind(providerID), Sweeping(todo, active))
      else NextSweep(todo, true)
  }

  function Resume(s: Site, p: Proc, r: Reply): Proc
    requires !p.Finished?
  {
    match p
    case Early(b, step) => ResumeEarly(s, b, step, r)
    case Late(b, id, mount, step) => ResumeLate(s, b, id, mount, step, r)
    case Cleanup(id, error, step) => ResumeCleanup(s, id, error, step, r)
    case Look(step) => ResumeLook(s, step, r)
    case Deleting(step, after) => ResumeDelete(s, step, after, r)
    case SweepList =>
      (match Selected(s, r, "")
       case Err(e) => Close(Err(e))
       case Ok(items) => NextSweep(ProviderIDs(items), false))
    case SweepFind(providerID, todo, active) => ResumeSweep(s, providerID, todo, active, r)
  }

  // ----- runs -----

  datatype Op =
    | CreateOp(b: Bootstrap)
    | GetOp(target: string)
    | ListOp(poolID: string)
    | StopOp(target: string)
    | DeleteOp(target: string)
    | RemoveAllOp

  /** How each operation begins. */
  function Begin(op: Op): Proc {
    match op
    case CreateOp(b) => if Accepts(b) then Early(b, AskVersion) else Fail(Unsupported)
    case GetOp(target) => Look(GetFind(target))
    case ListOp(poolID) => Look(ListPool(poolID))
    case StopOp(target) => Look(StopFind(target))
    case DeleteOp(target) => Deleting(DeleteFind(target), Answering)
    case RemoveAllOp => SweepList
  }

  datatype Moment = Moment(world: World, proc: Proc)

  /** The operation makes one call. */
  function Step(s: Site, st: Moment, o: Outcome): Moment {
    if st.proc.Finished? then st
    else
      var (w, reply) := Serve(s.p.casing, st.world, Wants(s, st.proc), o);
      Moment(w, Resume(s, st.proc, reply))
  }

  /** The state after the calls numbered from `i` up to `j`; every `j` is a point where the process may die. */
  function Run(s: Site, st: Moment, oracle: nat -> Outcome, i: nat, j: nat): Moment
    requires i <= j
  {
    if i == j then st else Step(s, Run(s, st, oracle, i, j - 1), oracle(j - 1))
  }
}

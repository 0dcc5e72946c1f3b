/** The mock map and the Compose-encoding store answer every run of manager operations alike. */
module AppsRefinement {
  import opened Text
  import opened Names
  import opened Provider
  import opened Documents
  import opened Compose
  import opened ComposeProofs
  import opened Apps

  // ----- the reference: what a manager can find out -----

  /** What the client holds, tokens aside: the Apps a listing shows, and, for every other name, what asking for it by
      that name tells. Other people's Apps are among the latter. */
  datatype Inventory = Inventory(listed: map<string, App>, aside: map<string, Result<App>>)

  datatype Answer = One(instance: Result<Instance>) | Many(instances: Result<set<Instance>>) | Done(done: Result<Unit>)

  /** One event of a run: an operation of the manager of some controller, or TrueNAS moving an App to a raw state. */
  datatype Event =
    | Create(controllerID: string, request: Bootstrap)
    | Get(controllerID: string, id: string)
    | List(controllerID: string, poolID: string)
    | Delete(controllerID: string, id: string)
    | Start
    | Stop(controllerID: string, id: string)
    | RemoveAll(controllerID: string)
    | SetState(name: string, raw: string)

  function Bare(app: App): App {
    app.(spec := app.spec.(bootstrapToken := ""))
  }

  function Found(m: Inventory, name: string): Result<App> {
    if name in m.listed then Ok(m.listed[name]) else if name in m.aside then m.aside[name] else Err(NotFound)
  }

  function Minus(m: Inventory, names: set<string>): Inventory {
    Inventory(m.listed - names, m.aside - names)
  }

  /** The word for a state. */
  function Word(state: State): string {
    match state
    case Running => "RUNNING"
    case Stopped => "STOPPED"
    case Crashed => "CRASHED"
    case Stopping => "STOPPING"
    case Deploying => "DEPLOYING"
  }

  /** The instance an App of that name, state and pool is shown as. */
  function Shows(p: Platform, name: string, state: State, poolID: string): Instance {
    Instance(name, name, "truenas-custom-app", "mvp", p.casing.lower(Word(state)), poolID)
  }

  function ShowsApp(p: Platform, app: App): Instance {
    Shows(p, app.spec.name, app.state, app.spec.poolID)
  }

  lemma InstanceShows(p: Platform, app: App)
    ensures ToInstance(p, app) == ShowsApp(p, app)
  {
  }

  /** The App is the controller's and of that pool; an empty pool stands for any. */
  predicate Belongs(app: App, controllerID: string, poolID: string) {
    app.spec.controllerID == controllerID && poolID in {"", app.spec.poolID}
  }

  lemma OwnsBelongs(app: App, controllerID: string, poolID: string)
    ensures Owns(controllerID, app, poolID) <==> Belongs(app, controllerID, poolID)
  {
  }

  /** The App a request asks for, under the one profile. */
  function Asked(p: Platform, controllerID: string, request: Bootstrap): AppSpec {
    AppSpec(
      name := AppName(p.casing, p.digest, controllerID, request.name), image := p.contract.image,
      controllerID := controllerID, poolID := request.poolID, cpu := p.contract.cpu, memoryBytes := p.contract.memoryBytes,
      runAsUser := p.contract.user, capDrop := p.contract.capDrop, noNewPrivileges := true, workdirTmpfs := false,
      credentialTmpfs := true, hostMounts := [], dockerSocket := false, callbackURL := request.callbackURL,
      metadataURL := request.metadataURL, bootstrapToken := request.token, runnerDownloadURL := p.contract.tool.url,
      runnerFilename := p.contract.tool.filename, runnerSHA256 := p.contract.tool.sha256,
      executionProfile := p.contract.flavor)
  }

  lemma RequestedIsAsked(p: Platform, controllerID: string, request: Bootstrap)
    ensures RequestedSpec(p, controllerID, request) == Asked(p, controllerID, request)
  {
    hide AppName;
  }

  /** A request is taken if it is a supported one and its name keeps at least one letter or digit. */
  predicate Takes(p: Platform, request: Bootstrap) {
    Supported(request, p.contract.flavor) && Nameable(p.casing, request.name)
  }

  lemma AcceptsTakes(p: Platform, request: Bootstrap)
    ensures Accepts(p, request) <==> Takes(p, request)
  {
    CommonIsSupported(request, p.contract.flavor);
    hide CommonBootstrap;
    hide Supported;
    hide Nameable;
  }

  function Chosen(p: Platform, m: map<string, App>, controllerID: string, poolID: string): set<Instance> {
    set n | n in m && Belongs(m[n], controllerID, poolID) :: ShowsApp(p, m[n])
  }

  predicate Removable(controllerID: string, app: App) {
    app.spec.controllerID == controllerID && (app.state.Stopped? || app.state.Crashed?)
  }

  predicate Blocking(controllerID: string, app: App) {
    app.spec.controllerID == controllerID && (app.state.Deploying? || app.state.Running? || app.state.Stopping?)
  }

  /** The listed Apps that are the controller's and idle. */
  function Doomed(m: map<string, App>, controllerID: string): set<string> {
    set n | n in m && Removable(controllerID, m[n])
  }

  /** What `RemoveAll` reports: an owned busy App is in the way, or nothing. */
  function Verdict(m: map<string, App>, controllerID: string): Result<Unit> {
    if exists n | n in m :: Blocking(controllerID, m[n]) then Err(Active) else Ok(Unit.Unit)
  }

  function Moved(r: Result<App>, state: State): Result<App> {
    match r
    case Ok(app) => Ok(app.(state := state))
    case Err(e) => Err(e)
  }

  /** An inventory with a new running App. */
  function Joined(m: Inventory, spec: AppSpec): Inventory {
    m.(listed := m.listed[spec.name := App(spec.(bootstrapToken := ""), Running)])
  }

  function Restated(m: Inventory, name: string, state: State): Inventory {
    if name in m.listed then m.(listed := m.listed[name := m.listed[name].(state := state)])
    else if name in m.aside then m.(aside := m.aside[name := Moved(m.aside[name], state)])
    else m
  }

  function RefCreate(p: Platform, m: Inventory, controllerID: string, request: Bootstrap): (Inventory, Result<Instance>) {
    var spec := Asked(p, controllerID, request);
    if !Takes(p, request) then (m, Err(Unsupported))
    else match Found(m, spec.name)
      case Ok(app) => (m, if Belongs(app, controllerID, request.poolID) then Ok(ShowsApp(p, app)) else Err(Foreign))
      case Err(NotFound) => (Joined(m, spec), Ok(Shows(p, spec.name, Running, request.poolID)))
      case Err(e) => (m, Err(e))
  }

  function RefGet(p: Platform, m: Inventory, controllerID: string, id: string): Result<Instance> {
    match Found(m, id)
    case Ok(app) => if Belongs(app, controllerID, "") then Ok(ShowsApp(p, app)) else Err(Foreign)
    case Err(e) => Err(e)
  }

  function RefDelete(m: Inventory, controllerID: string, id: string): (Inventory, Result<Unit>) {
    match Found(m, id)
    case Err(NotFound) => (m, Ok(Unit.Unit))
    case Err(e) => (m, Err(e))
    case Ok(app) =>
      if !Belongs(app, controllerID, "") then (m, Err(Foreign))
      else if app.state.Stopped? || app.state.Crashed? then (Minus(m, {id}), Ok(Unit.Unit))
      else (m, Err(Active))
  }

  function RefStop(m: Inventory, controllerID: string, id: string): Result<Unit> {
    match Found(m, id)
    case Err(e) => Err(e)
    case Ok(app) =>
      if !Belongs(app, controllerID, "") then Err(Foreign)
      else if app.state == Stopped then Ok(Unit.Unit) else Err(UnsafeOperation)
  }

  function RefStep(p: Platform, m: Inventory, e: Event): (Inventory, Answer) {
    match e
    case Create(controllerID, request) => var (m', r) := RefCreate(p, m, controllerID, request); (m', One(r))
    case Get(controllerID, id) => (m, One(RefGet(p, m, controllerID, id)))
    case List(controllerID, poolID) => (m, Many(Ok(Chosen(p, m.listed, controllerID, poolID))))
    case Delete(controllerID, id) => var (m', r) := RefDelete(m, controllerID, id); (m', Done(r))
    case Start => (m, Done(Err(UnsafeOperation)))
    case Stop(controllerID, id) => (m, Done(RefStop(m, controllerID, id)))
    case RemoveAll(controllerID) => (Minus(m, Doomed(m.listed, controllerID)), Done(Verdict(m.listed, controllerID)))
    case SetState(name, raw) =>
      if name in m.listed.Keys + m.aside.Keys then (Restated(m, name, MapState(p.casing, raw)), Done(Ok(Unit.Unit)))
      else (m, Done(Err(NotFound)))
  }

  // ----- the manager over a client -----

  function Setting(p: Platform, b: Backend, name: string, raw: string): (Backend, Result<Unit>) {
    if name !in Known(b) then (b, Err(NotFound))
    else match b
      case Mock(apps) => (Mock(apps[name := apps[name].(state := MapState(p.casing, raw))]), Ok(Unit.Unit))
      case TrueNAS(held, _, _, _, _) => (b.(held := held[name := held[name].(state := raw)]), Ok(Unit.Unit))
  }

  function AsSet(r: Result<seq<Instance>>): Result<set<Instance>> {
    match r
    case Err(e) => Err(e)
    case Ok(items) => Ok(set i | i in items)
  }

  function Step(p: Platform, b: Backend, e: Event, names: seq<string>): (Backend, Answer)
    requires forall n | n in names :: n in Known(b)
  {
    match e
    case Create(controllerID, request) => var (b', r) := CreateInstance(p, b, controllerID, request); (b', One(r))
    case Get(controllerID, id) => var (b', r) := GetInstance(p, b, controllerID, id); (b', One(r))
    case List(controllerID, poolID) => var (b', r) := ListInstances(p, b, controllerID, poolID, names); (b', Many(AsSet(r)))
    case Delete(controllerID, id) => var (b', r) := DeleteInstance(p, b, controllerID, id); (b', Done(r))
    case Start => (b, Done(Err(UnsafeOperation)))
    case Stop(controllerID, id) => var (b', r) := StopInstance(p, b, controllerID, id); (b', Done(r))
    case RemoveAll(controllerID) => var (b', r) := RemoveInstances(p, b, controllerID, names); (b', Done(r))
    case SetState(name, raw) => var (b', r) := Setting(p, b, name, raw); (b', Done(r))
  }

  /** The answers of a run; at each event the client lists its names in an order of its own. */
  ghost function Answers(p: Platform, b: Backend, events: seq<Event>, orders: seq<Order>): seq<Answer>
    requires |orders| == |events| && forall o | o in orders :: Fair(o)
    decreases |events|
  {
    if events == [] then []
    else
      assert Enumerates(orders[0](Known(b)), Known(b)) by { assert Fair(orders[0]); hide Known; }
      var next := Step(p, b, events[0], orders[0](Known(b)));
      [next.1] + Answers(p, next.0, events[1..], orders[1..])
  }

  ghost function RefAnswers(p: Platform, m: Inventory, events: seq<Event>): seq<Answer>
    decreases |events|
  {
    if events == [] then []
    else
      var next := RefStep(p, m, events[0]);
      [next.1] + RefAnswers(p, next.0, events[1..])
  }

  /** Controller and pool IDs without outer space, as a created document can carry them. */
  predicate Admissible(p: Platform, e: Event) {
    e.Create? ==> Nameable(p.casing, e.controllerID) && Trimmed(e.controllerID) && Trimmed(e.request.poolID)
  }

  // ----- what a client must keep for the reference to describe it -----

  /** A listing shows this App. */
  predicate Shown(p: Platform, b: Backend, n: string)
    requires b.TrueNAS? && n in b.held
  {
    PlausibleManagedAppName(n) && ReadApp(p, b, n).Ok?
  }

  /** A listing passes this App over: its name rules it out, or it is not managed by this provider. */
  predicate Skipped(p: Platform, b: Backend, n: string)
    requires b.TrueNAS? && n in b.held
  {
    !PlausibleManagedAppName(n) || ReadApp(p, b, n) == Err(Unmanaged)
  }

  /** A listing fails on this App. */
  predicate Faulty(p: Platform, b: Backend, n: string)
    requires b.TrueNAS? && n in b.held
  {
    !Shown(p, b, n) && !Skipped(p, b, n)
  }

  /** Every call is served, and the mock's file keeps every App under its own name. */
  ghost predicate Calm(b: Backend) {
    match b
    case Mock(apps) => forall n | n in apps :: apps[n].spec.name == n
    case TrueNAS(_, _, _, _, luck) => luck == []
  }

  /** No App makes a listing fail. Other Apps may be there, under any policy. */
  ghost predicate Legible(p: Platform, b: Backend) {
    Calm(b) && (b.TrueNAS? ==> forall n | n in b.held :: Shown(p, b, n) || Skipped(p, b, n))
  }

  /** Legible, without a gateway policy, and reporting new Apps as running. */
  ghost predicate Faithful(p: Platform, b: Backend) {
    Legible(p, b) && (b.TrueNAS? ==> !b.gateway && MapState(p.casing, b.newState) == Running)
  }

  function Told(r: Result<App>): Result<App> {
    if r == Err(Unmanaged) then Err(Foreign) else r
  }

  /** What the client holds, as a manager can find it out. */
  ghost function View(p: Platform, b: Backend): Inventory {
    match b
    case Mock(apps) => Inventory(map n | n in apps :: Bare(apps[n]), map[])
    case TrueNAS(_, _, _, _, _) => Sorted(Readings(p, b))
  }

  /** What asking for each App by its name tells. */
  ghost function Readings(p: Platform, b: Backend): map<string, Result<App>>
    requires b.TrueNAS?
  {
    map n | n in b.held :: ReadApp(p, b, n)
  }

  predicate Listable(n: string, r: Result<App>) {
    PlausibleManagedAppName(n) && r.Ok?
  }

  /** The readings that a listing shows, and the others. */
  ghost function Sorted(readings: map<string, Result<App>>): Inventory {
    Inventory(map n | n in readings && Listable(n, readings[n]) :: readings[n].value,
              map n | n in readings && !Listable(n, readings[n]) :: Told(readings[n]))
  }

  predicate Tolerable(n: string, r: Result<App>) {
    !PlausibleManagedAppName(n) || r.Ok? || r == Err(Unmanaged)
  }

  lemma LegibleReadings(p: Platform, b: Backend)
    requires b.TrueNAS?
    ensures Legible(p, b) <==> b.luck == [] && forall n | n in Readings(p, b) :: Tolerable(n, Readings(p, b)[n])
  {
    hide PlausibleManagedAppName;
    hide ReadApp;
    var readings := Readings(p, b);
    assert forall n | n in b.held :: Tolerable(n, readings[n]) <==> (Shown(p, b, n) || Skipped(p, b, n));
  }

  lemma SortedMinus(readings: map<string, Result<App>>, names: set<string>)
    ensures Sorted(readings - names) == Minus(Sorted(readings), names)
  {
    hide Listable;
    hide Told;
  }

  lemma SortedPlus(readings: map<string, Result<App>>, n: string, app: App)
    requires n !in readings && Listable(n, Ok(app))
    ensures Sorted(readings[n := Ok(app)]) == Sorted(readings).(listed := Sorted(readings).listed[n := app])
  {
    hide Listable;
    hide Told;
  }

  lemma SortedRestated(readings: map<string, Result<App>>, n: string, state: State)
    requires n in readings
    ensures Sorted(readings[n := Moved(readings[n], state)]) == Restated(Sorted(readings), n, state)
  {
    hide PlausibleManagedAppName;
    var (before, after) := (Sorted(readings), Sorted(readings[n := Moved(readings[n], state)]));
    assert after.listed == Restated(before, n, state).listed;
    assert after.aside == Restated(before, n, state).aside;
  }

  function Without(b: Backend, names: set<string>): Backend {
    match b
    case Mock(apps) => Mock(apps - names)
    case TrueNAS(held, _, _, _, _) => b.(held := held - names)
  }

  lemma ViewNames(p: Platform, b: Backend)
    requires Calm(b)
    ensures View(p, b).listed.Keys + View(p, b).aside.Keys == Known(b)
    ensures View(p, b).listed.Keys !! View(p, b).aside.Keys
    ensures forall n | n in View(p, b).listed :: View(p, b).listed[n].spec.name == n
    ensures forall n | n in View(p, b).aside :: View(p, b).aside[n] != Err(NotFound)
  {
    hide PlausibleManagedAppName;
    if b.TrueNAS? {
      forall n | n in b.held
        ensures ReadApp(p, b, n) != Err(NotFound) && (ReadApp(p, b, n).Ok? ==> ReadApp(p, b, n).value.spec.name == n)
      {
        ReadShape(p, b, n);
      }
    }
    hide ReadApp;
  }

  /** What is read keeps its name and has no token, and an App that is there is never reported missing. */
  lemma ReadShape(p: Platform, b: Backend, n: string)
    requires b.TrueNAS? && n in b.held
    ensures ReadApp(p, b, n) != Err(NotFound)
    ensures ReadApp(p, b, n).Ok? ==> ReadApp(p, b, n).value.spec.name == n && Bare(ReadApp(p, b, n).value) == ReadApp(p, b, n).value
  {
    var app := RawApp(n, b.held[n].state, b.held[n].config);
    if DecodeApp(p, app).Ok? { DecodedShape(p, app); }
    NeverMissing(p, app);
    hide DecodeApp;
    hide ValidateGateway;
  }

  lemma NeverMissing(p: Platform, app: RawApp)
    ensures DecodeApp(p, app) != Err(NotFound)
  {
    hide StringMap;
    hide FixedFields;
    hide TrimSpace;
  }

  function BareResult(r: Result<App>): Result<App> {
    match r
    case Ok(app) => Ok(Bare(app))
    case Err(e) => Err(e)
  }

  lemma GetFaithful(p: Platform, b: Backend, name: string)
    requires Calm(b)
    ensures Apps.GetApp(p, b, name).0 == b
    ensures BareResult(Apps.GetApp(p, b, name).1) == Found(View(p, b), name)
  {
    hide PlausibleManagedAppName;
    if b.TrueNAS? && name in b.held { ReadShape(p, b, name); }
    hide ReadApp;
  }

  /** Reading one App depends on nothing but that App and the policy. */
  lemma SameRead(p: Platform, b: Backend, b': Backend, n: string)
    requires b.TrueNAS? && b'.TrueNAS? && n in b.held && n in b'.held
    requires b.held[n] == b'.held[n] && b.gateway == b'.gateway
    ensures ReadApp(p, b, n) == ReadApp(p, b', n)
  {
    hide DecodeApp;
    hide ValidateGateway;
  }

  // ----- creating -----

  lemma RequestedIsPrintable(p: Platform, controllerID: string, request: Bootstrap)
    requires p.Valid() && Accepts(p, request) && Nameable(p.casing, controllerID)
    requires Trimmed(controllerID) && Trimmed(request.poolID)
    ensures var spec := RequestedSpec(p, controllerID, request);
            Printable(p.contract, spec) && PlausibleManagedAppName(spec.name)
  {
    AppNameDiscoverable(p.casing, p.digest, controllerID, request.name);
    NameableNotEmpty(p.casing, controllerID);
    hide Blank;
    hide AppName;
    hide PlausibleManagedAppName;
  }

  lemma NameableNotEmpty(casing: Casing, s: string)
    requires Nameable(casing, s)
    ensures s != ""
  {
    assert casing.lower("") == "";
  }

  /** Creating an App that is not there leaves it readable as requested, tokens aside, and nothing else changed. */
  lemma CreateFaithful(p: Platform, b: Backend, spec: AppSpec)
    requires p.Valid() && Faithful(p, b) && spec.name !in Known(b)
    requires Printable(p.contract, spec) && PlausibleManagedAppName(spec.name)
    ensures var (b', r) := CreateApp(p, b, spec);
            && Faithful(p, b')
            && View(p, b') == Joined(View(p, b), spec)
            && BareResult(r) == Ok(App(spec.(bootstrapToken := ""), Running))
  {
    hide CreatedDocument;
    hide DecodeApp;
    hide ValidateGateway;
    hide Printable;
    hide PlausibleManagedAppName;
    hide ReadApp;
    hide Apps.GetApp;
    if b.TrueNAS? { CreateHeldFaithful(p, b, spec); } else { CreateMockFaithful(p, b, spec); }
    hide Faithful;
    hide View;
    hide CreateApp;
  }

  lemma CreateMockFaithful(p: Platform, b: Backend, spec: AppSpec)
    requires Faithful(p, b) && b.Mock? && spec.name !in b.apps
    ensures var (b', r) := CreateApp(p, b, spec);
            Faithful(p, b') && r == Ok(App(spec, Running)) && View(p, b') == Joined(View(p, b), spec)
  {
  }

  function Adding(b: Backend, name: string, held: Held): Backend
    requires b.TrueNAS?
  {
    b.(held := b.held[name := held])
  }

  lemma CreateHeldFaithful(p: Platform, b: Backend, spec: AppSpec)
    requires Lawful(p.contract) && Faithful(p, b) && b.TrueNAS? && spec.name !in b.held
    requires Printable(p.contract, spec) && PlausibleManagedAppName(spec.name)
    ensures var (b', r) := CreateApp(p, b, spec);
            && Faithful(p, b') && View(p, b') == Joined(View(p, b), spec)
            && r == Ok(App(spec.(bootstrapToken := ""), Running))
  {
    hide PlausibleManagedAppName;
    hide Faithful;
    hide View;
    hide CreateApp;
    hide ReadApp;
    hide Printable;
    hide Lawful;
    BackendSettings(p, b);
    var held := CreatedHeld(p, b, spec);
    AddedFaithful(p, b, held, spec);
  }

  lemma BackendSettings(p: Platform, b: Backend)
    requires Faithful(p, b) && b.TrueNAS?
    ensures b.luck == [] && !b.gateway && MapState(p.casing, b.newState) == Running
  {
  }

  /** What TrueNAS holds after the document was sent, and how it reads. */
  lemma CreatedHeld(p: Platform, b: Backend, spec: AppSpec) returns (held: Held)
    requires b.TrueNAS? && b.luck == [] && !b.gateway && MapState(p.casing, b.newState) == Running
    requires Lawful(p.contract) && Printable(p.contract, spec) && spec.name !in b.held
    ensures CreateApp(p, b, spec) == GetApp(p, Adding(b, spec.name, held), spec.name)
    ensures ReadApp(p, Adding(b, spec.name, held), spec.name) == Ok(App(spec.(bootstrapToken := ""), Running))
  {
    hide Carried;
    hide DecodeApp;
    hide ValidateGateway;
    hide CreatedDocument;
    hide GetApp;
    hide Lawful;
    hide Printable;
    hide MapState;
    hide Complete;
    hide TrimmedOwner;
    hide Allowlisted;
    PlainIsCreated(p, spec);
    PrintableIsTrimmed(p.contract, spec);
    CreatedDocumentDecodes(p, spec, b.newState, b.form, false, false);
    held := Held(b.newState, Carried(CreatedDocument(p, spec, false).value, b.form));
  }

  lemma PrintableIsTrimmed(c: Pinned, spec: AppSpec)
    requires Printable(c, spec)
    ensures Complete(spec) && TrimmedOwner(spec) == spec
  {
    hide TrimSpace;
  }

  lemma PlainIsCreated(p: Platform, spec: AppSpec)
    requires Printable(p.contract, spec)
    ensures Allowlisted(p.contract, spec) && CreatedDocument(p, spec, false).Ok?
  {
    hide Document;
    hide Reread;
    hide Blank;
  }

  lemma AddedFaithful(p: Platform, b: Backend, held: Held, spec: AppSpec)
    requires Faithful(p, b) && b.TrueNAS? && spec.name !in b.held && PlausibleManagedAppName(spec.name)
    requires ReadApp(p, Adding(b, spec.name, held), spec.name) == Ok(App(spec.(bootstrapToken := ""), Running))
    ensures var b' := Adding(b, spec.name, held);
            Faithful(p, b') && View(p, b') == Joined(View(p, b), spec)
  {
    hide PlausibleManagedAppName;
    hide MapState;
    hide ReadApp;
    hide Legible;
    hide Readings;
    hide Sorted;
    var b' := Adding(b, spec.name, held);
    var app := App(spec.(bootstrapToken := ""), Running);
    AddedReadings(p, b, held, spec.name);
    LegibleReadings(p, b);
    LegibleReadings(p, b');
    SortedPlus(Readings(p, b), spec.name, app);
  }

  lemma AddedReadings(p: Platform, b: Backend, held: Held, n: string)
    requires b.TrueNAS? && n !in b.held
    ensures n !in Readings(p, b)
    ensures var b' := Adding(b, n, held); Readings(p, b') == Readings(p, b)[n := ReadApp(p, b', n)]
  {
    var b' := Adding(b, n, held);
    forall m | m in b.held
      ensures ReadApp(p, b', m) == ReadApp(p, b, m)
    {
      SameRead(p, b, b', m);
    }
    hide ReadApp;
  }

  // ----- listing -----

  /** The Apps of a map under the given names, in the order of the names. */
  function Picked(m: map<string, App>, names: seq<string>): seq<App> {
    if names == [] then [] else (if names[0] in m then [m[names[0]]] else []) + Picked(m, names[1..])
  }

  /** The listing loop shows what is to be shown, skips what is to be skipped, and fails on nothing. */
  lemma {:induction false} ReadListedShows(p: Platform, b: Backend, names: seq<string>)
    requires b.TrueNAS? && b.luck == [] && forall n | n in names :: n in b.held && !Faulty(p, b, n)
    ensures ReadListed(p, b, names) == (b, Ok(Picked(View(p, b).listed, names)))
    decreases |names|
  {
    hide PlausibleManagedAppName;
    hide ReadApp;
    if names != [] {
      assert names[0] in names;
      assert forall n | n in names[1..] :: n in names;
      ReadListedShows(p, b, names[1..]);
      var rest := Picked(View(p, b).listed, names[1..]);
      assert [] + rest == rest;
    }
  }

  /** A listing holds, tokens aside, each App of `m` once and nothing else. */
  ghost predicate Lists(apps: seq<App>, m: map<string, App>) {
    && (forall i | 0 <= i < |apps| :: apps[i].spec.name in m && Bare(apps[i]) == m[apps[i].spec.name])
    && (forall i, j | 0 <= i < j < |apps| :: apps[i].spec.name != apps[j].spec.name)
    && forall n | n in m :: Named(apps, n)
  }

  predicate Named(apps: seq<App>, n: string) {
    exists a | a in apps :: a.spec.name == n
  }

  lemma {:induction false} PickedLists(m: map<string, App>, names: seq<string>)
    requires forall n | n in m :: m[n].spec.name == n && Bare(m[n]) == m[n]
    requires forall i, j | 0 <= i < j < |names| :: names[i] != names[j]
    ensures var apps := Picked(m, names);
            && (forall a | a in apps :: a.spec.name in m && a.spec.name in names && a == m[a.spec.name])
            && (forall i, j | 0 <= i < j < |apps| :: apps[i].spec.name != apps[j].spec.name)
            && forall n | n in m && n in names :: Named(apps, n)
    decreases |names|
  {
    hide Bare;
    if names != [] {
      var (n, tail) := (names[0], names[1..]);
      PickedLists(m, tail);
      var (apps, rest) := (Picked(m, names), Picked(m, tail));
      assert n !in tail;
      assert apps == (if n in m then [m[n]] else []) + rest;
      assert forall a :: a in apps <==> a in rest || (n in m && a == m[n]);
      forall k | k in m && k in names ensures Named(apps, k) {
        if k == n {
          assert m[n] in apps;
        } else {
          assert k in tail && Named(rest, k);
        }
      }
    }
  }

  lemma ListShows(p: Platform, b: Backend, names: seq<string>)
    requires Legible(p, b) && Enumerates(names, Known(b))
    ensures Apps.ListApps(p, b, names).0 == b && Apps.ListApps(p, b, names).1.Ok?
    ensures Lists(Apps.ListApps(p, b, names).1.value, View(p, b).listed)
  {
    if b.Mock? { MockShows(p, b, names); } else { StoreShows(p, b, names); }
    hide Lists;
    hide Legible;
    hide View;
    hide Apps.ListApps;
  }

  lemma MockShows(p: Platform, b: Backend, names: seq<string>)
    requires Calm(b) && b.Mock? && Enumerates(names, Known(b))
    ensures Apps.ListApps(p, b, names).0 == b && Apps.ListApps(p, b, names).1.Ok?
    ensures Lists(Apps.ListApps(p, b, names).1.value, View(p, b).listed)
  {
    hide Bare;
    var apps := b.apps;
    assert Known(b) == apps.Keys;
    forall n | n in View(p, b).listed ensures Named(Lookup(apps, names), n) {
      var i :| 0 <= i < |names| && names[i] == n;
      assert Lookup(apps, names)[i].spec.name == n;
    }
    BareNames(apps);
  }

  lemma BareNames(apps: map<string, App>)
    ensures forall n | n in apps :: Bare(apps[n]).spec.name == apps[n].spec.name
  {
  }

  lemma StoreShows(p: Platform, b: Backend, names: seq<string>)
    requires Legible(p, b) && b.TrueNAS? && Enumerates(names, b.held.Keys)
    ensures Apps.ListApps(p, b, names).0 == b && Apps.ListApps(p, b, names).1.Ok?
    ensures Lists(Apps.ListApps(p, b, names).1.value, View(p, b).listed)
  {
    hide View;
    hide Shown;
    hide Skipped;
    ReadListedShows(p, b, names);
    hide ReadListed;
    ShownShape(p, b);
    PickedListsAll(View(p, b).listed, names, b.held.Keys);
    hide Lists;
    hide Bare;
    hide Picked;
  }

  lemma PickedListsAll(m: map<string, App>, names: seq<string>, held: set<string>)
    requires forall n | n in m :: m[n].spec.name == n && Bare(m[n]) == m[n]
    requires Enumerates(names, held) && m.Keys <= held
    ensures Lists(Picked(m, names), m)
  {
    PickedLists(m, names);
    hide Bare;
    hide Picked;
    hide Named;
    forall a | a in Picked(m, names) ensures a.spec.name in m && Bare(a) == m[a.spec.name] {
    }
  }

  lemma ShownShape(p: Platform, b: Backend)
    requires b.TrueNAS?
    ensures View(p, b).listed.Keys <= b.held.Keys
    ensures forall n | n in View(p, b).listed :: var app := View(p, b).listed[n]; app.spec.name == n && Bare(app) == app
  {
    hide PlausibleManagedAppName;
    forall n | n in b.held && ReadApp(p, b, n).Ok?
      ensures ReadApp(p, b, n).value.spec.name == n && Bare(ReadApp(p, b, n).value) == ReadApp(p, b, n).value
    {
      ReadShape(p, b, n);
    }
    hide ReadApp;
  }

  lemma {:induction false} SelectedMembers(p: Platform, apps: seq<App>, controllerID: string, poolID: string, i: Instance)
    ensures i in Selected(p, apps, controllerID, poolID)
       <==> exists k :: 0 <= k < |apps| && Owns(controllerID, apps[k], poolID) && i == ToInstance(p, apps[k])
  {
    hide Owns;
    hide ToInstance;
    if apps != [] {
      var n := |apps| - 1;
      SelectedMembers(p, apps[..n], controllerID, poolID, i);
      if k :| 0 <= k < |apps| && Owns(controllerID, apps[k], poolID) && i == ToInstance(p, apps[k]) {
        if k < n { assert apps[..n][k] == apps[k]; }
      }
    }
  }

  /** The listed instances are those of the owned Apps, whatever order the client listed in and whatever else it holds. */
  lemma ListIsChosen(p: Platform, b: Backend, controllerID: string, poolID: string, names: seq<string>)
    requires Legible(p, b) && Enumerates(names, Known(b))
    ensures ListInstances(p, b, controllerID, poolID, names).0 == b
    ensures AsSet(ListInstances(p, b, controllerID, poolID, names).1)
         == Ok(Chosen(p, View(p, b).listed, controllerID, poolID))
  {
    hide Legible;
    hide Apps.ListApps;
    hide View;
    hide Lists;
    ListShows(p, b, names);
    SelectedIsChosen(p, View(p, b).listed, Apps.ListApps(p, b, names).1.value, controllerID, poolID);
  }

  lemma SelectedIsChosen(p: Platform, m: map<string, App>, apps: seq<App>, controllerID: string, poolID: string)
    requires Lists(apps, m)
    ensures (set i | i in Selected(p, apps, controllerID, poolID)) == Chosen(p, m, controllerID, poolID)
  {
    hide ToInstance;
    hide Owns;
    hide Bare;
    hide Belongs;
    hide ShowsApp;
    forall k | 0 <= k < |apps|
      ensures Owns(controllerID, apps[k], poolID) == Belongs(m[apps[k].spec.name], controllerID, poolID)
      ensures ToInstance(p, apps[k]) == ShowsApp(p, m[apps[k].spec.name])
    {
      BareShown(p, apps[k], controllerID, poolID);
    }
    forall i
      ensures i in Selected(p, apps, controllerID, poolID) <==> i in Chosen(p, m, controllerID, poolID)
    {
      SelectedMembers(p, apps, controllerID, poolID, i);
      if k :| 0 <= k < |apps| && Owns(controllerID, apps[k], poolID) && i == ToInstance(p, apps[k]) {
        assert apps[k].spec.name in m;
      }
      if n :| n in m && Belongs(m[n], controllerID, poolID) && i == ShowsApp(p, m[n]) {
        assert Named(apps, n);
        var k :| 0 <= k < |apps| && apps[k].spec.name == n;
      }
    }
  }

  /** What the manager asks of an App and tells about it is what the reference says of the App without its token. */
  lemma BareShown(p: Platform, app: App, controllerID: string, poolID: string)
    ensures Owns(controllerID, app, poolID) == Belongs(Bare(app), controllerID, poolID)
    ensures ToInstance(p, app) == ShowsApp(p, Bare(app))
  {
    InstanceShows(p, app);
  }

  /** The manager never looks at a token. */
  lemma BareSame(controllerID: string, app: App)
    ensures Removable(controllerID, app) == Removable(controllerID, Bare(app))
    ensures Blocking(controllerID, app) == Blocking(controllerID, Bare(app))
    ensures app.state == Bare(app).state
  {
  }

  // ----- a listing that fails -----

  /** The listing loop ends with the error of the first App it cannot read, and fails on nothing else. */
  lemma {:induction false} ReadListedFails(p: Platform, b: Backend, names: seq<string>)
    requires b.TrueNAS? && b.luck == [] && forall n | n in names :: n in b.held
    ensures ReadListed(p, b, names).0 == b
    ensures match ReadListed(p, b, names).1
            case Ok(_) => forall n | n in names :: !Faulty(p, b, n)
            case Err(e) => exists i | 0 <= i < |names| :: FailsAt(p, b, names, i, e)
    decreases |names|
  {
    hide PlausibleManagedAppName;
    hide ReadApp;
    if names != [] {
      var tail := names[1..];
      assert names[0] in names;
      assert forall n | n in tail :: n in names;
      ReadListedFails(p, b, tail);
      match ReadListed(p, b, names).1 {
        case Ok(_) => assert forall n | n in names :: n == names[0] || n in tail;
        case Err(e) =>
          if Faulty(p, b, names[0]) {
            assert FailsAt(p, b, names, 0, e);
          } else {
            var i :| 0 <= i < |tail| && FailsAt(p, b, tail, i, e);
            assert FailsAt(p, b, names, i + 1, e);
          }
      }
    }
  }

  predicate FailsAt(p: Platform, b: Backend, names: seq<string>, i: nat, e: Error)
    requires b.TrueNAS? && forall n | n in names :: n in b.held
  {
    && i < |names| && Faulty(p, b, names[i]) && ReadApp(p, b, names[i]) == Err(e)
    && forall k | 0 <= k < i :: !Faulty(p, b, names[k])
  }

  /** An App of a plausible name that reads as anything but managed or unmanaged stops everybody: `List` and `RemoveAll`
      end with the error of the first such App, and nothing is removed. */
  lemma UnreadableStops(p: Platform, b: Backend, controllerID: string, poolID: string, names: seq<string>)
    requires b.TrueNAS? && b.luck == [] && Enumerates(names, b.held.Keys) && !Legible(p, b)
    ensures exists i, e | 0 <= i < |names| && FailsAt(p, b, names, i, e) ::
              && ListInstances(p, b, controllerID, poolID, names) == (b, Err(e))
              && RemoveInstances(p, b, controllerID, names) == (b, Err(e))
  {
    ReadListedFails(p, b, names);
    hide ReadListed;
    hide ReadApp;
    hide PlausibleManagedAppName;
    var n :| n in b.held && Faulty(p, b, n);
    assert n in names;
    var e := ReadListed(p, b, names).1.error;
    var i :| 0 <= i < |names| && FailsAt(p, b, names, i, e);
    hide FailsAt;
    hide Faulty;
  }

  // ----- removing -----

  lemma RemovedView(p: Platform, b: Backend, names: set<string>)
    ensures View(p, Without(b, names)) == Minus(View(p, b), names)
    ensures Faithful(p, b) ==> Faithful(p, Without(b, names))
  {
    hide PlausibleManagedAppName;
    hide MapState;
    if b.TrueNAS? {
      var b' := Without(b, names);
      forall n | n in b'.held
        ensures ReadApp(p, b', n) == ReadApp(p, b, n)
      {
        SameRead(p, b, b', n);
      }
      hide ReadApp;
      assert Readings(p, b') == Readings(p, b) - names;
      SortedMinus(Readings(p, b), names);
      hide Readings;
      hide Sorted;
    }
  }

  lemma DeleteRemoves(b: Backend, name: string)
    requires Calm(b) && name in Known(b)
    ensures Apps.DeleteApp(b, name) == (Without(b, {name}), Ok(Unit.Unit))
    ensures Calm(Without(b, {name})) && Known(Without(b, {name})) == Known(b) - {name}
  {
  }

  /** The names of the Apps that the loop removes. */
  function Removed(apps: seq<App>, controllerID: string): set<string> {
    set a | a in apps && Removable(controllerID, a) :: a.spec.name
  }

  lemma WithoutTwice(b: Backend, s: set<string>, t: set<string>)
    ensures Without(Without(b, s), t) == Without(b, s + t)
  {
    match b
    case Mock(apps) => assert (apps - s) - t == apps - (s + t);
    case TrueNAS(held, _, _, _, _) => assert (held - s) - t == held - (s + t);
  }

  lemma WithoutNone(b: Backend)
    ensures Without(b, {}) == b
  {
    match b
    case Mock(apps) => assert apps - {} == apps;
    case TrueNAS(held, _, _, _, _) => assert held - {} == held;
  }

  /** The loop removes exactly the listed Apps that are owned and idle, and reports any it left busy. */
  lemma {:induction false} RemoveListedExactly(b: Backend, controllerID: string, apps: seq<App>, active: bool)
    requires Calm(b) && forall a | a in apps :: a.spec.name in Known(b)
    requires forall i, j | 0 <= i < j < |apps| :: apps[i].spec.name != apps[j].spec.name
    ensures RemoveListed(b, controllerID, apps, active)
         == (Without(b, Removed(apps, controllerID)),
             if active || exists a | a in apps :: Blocking(controllerID, a) then Err(Active) else Ok(Unit.Unit))
    decreases |apps|
  {
    hide Calm;
    hide Known;
    hide Without;
    if apps == [] {
      WithoutNone(b);
      assert Removed(apps, controllerID) == {};
    } else {
      var (app, tail) := (apps[0], apps[1..]);
      assert app in apps && forall a | a in tail :: a in apps;
      assert forall a :: a in apps <==> a == app || a in tail;
      if Removable(controllerID, app) {
        DeleteRemoves(b, app.spec.name);
        hide Apps.DeleteApp;
        RemoveListedExactly(Without(b, {app.spec.name}), controllerID, tail, active);
        WithoutTwice(b, {app.spec.name}, Removed(tail, controllerID));
        assert Removed(apps, controllerID) == {app.spec.name} + Removed(tail, controllerID);
      } else {
        RemoveListedExactly(b, controllerID, tail, active || Blocking(controllerID, app));
        assert Removed(apps, controllerID) == Removed(tail, controllerID);
      }
    }
  }

  lemma RemovedIsDoomed(p: Platform, m: map<string, App>, apps: seq<App>, controllerID: string)
    requires Lists(apps, m)
    ensures Removed(apps, controllerID) == Doomed(m, controllerID)
    ensures (exists a | a in apps :: Blocking(controllerID, a)) <==> exists n | n in m :: Blocking(controllerID, m[n])
  {
    forall a | a in apps
      ensures a.spec.name in m && Removable(controllerID, a) == Removable(controllerID, m[a.spec.name])
      ensures Blocking(controllerID, a) == Blocking(controllerID, m[a.spec.name])
    {
      BareSame(controllerID, a);
    }
    hide Removable;
    hide Blocking;
    hide Bare;
    forall n | n in m ensures exists a | a in apps :: a.spec.name == n {
      assert Named(apps, n);
    }
  }

  /** `RemoveAll` is exact, whatever else the appliance holds and under any policy: what it holds afterwards is what it
      held without the listed, owned, idle Apps, each of the others just as it was; and `Active` is reported exactly when
      a listed owned App is busy. */
  lemma RemoveAllExact(p: Platform, b: Backend, controllerID: string, names: seq<string>)
    requires Legible(p, b) && Enumerates(names, Known(b))
    ensures var m := View(p, b).listed;
            RemoveInstances(p, b, controllerID, names) == (Without(b, Doomed(m, controllerID)), Verdict(m, controllerID))
  {
    ListedAreKnown(p, b, names);
    ListShows(p, b, names);
    var apps := Apps.ListApps(p, b, names).1.value;
    hide Legible;
    hide View;
    hide Apps.ListApps;
    RemoveListedExactly(b, controllerID, apps, false);
    RemovedIsDoomed(p, View(p, b).listed, apps, controllerID);
    hide RemoveListed;
    hide Lists;
    hide Known;
  }

  lemma ListedAreKnown(p: Platform, b: Backend, names: seq<string>)
    requires Legible(p, b) && Enumerates(names, Known(b))
    ensures Calm(b) && View(p, b).listed.Keys <= Known(b)
  {
    ViewNames(p, b);
    hide View;
  }

  // ----- every event, every run -----

  lemma CreateRefines(p: Platform, b: Backend, controllerID: string, request: Bootstrap)
    requires p.Valid() && Faithful(p, b) && Nameable(p.casing, controllerID) && Trimmed(controllerID)
    requires Trimmed(request.poolID)
    ensures var (b', r) := CreateInstance(p, b, controllerID, request);
            Faithful(p, b') && (View(p, b'), r) == RefCreate(p, View(p, b), controllerID, request)
  {
    hide Faithful;
    hide View;
    hide AppName;
    FaithfulCalm(p, b);
    AcceptsTakes(p, request);
    RequestedIsAsked(p, controllerID, request);
    var spec := RequestedSpec(p, controllerID, request);
    hide Asked;
    if Accepts(p, request) {
      RequestedIsPrintable(p, controllerID, request);
      NameAndPool(p, controllerID, request);
      GetFaithful(p, b, spec.name);
      ViewNames(p, b);
      var got := Apps.GetApp(p, b, spec.name).1;
      if got.Ok? {
        BareShown(p, got.value, controllerID, request.poolID);
      } else if got.error == NotFound {
        CreateFaithful(p, b, spec);
        BareShown(p, CreateApp(p, b, spec).1.value, controllerID, request.poolID);
      }
      hide Apps.GetApp;
      hide CreateApp;
      hide ToInstance;
      hide Owns;
      hide RequestedSpec;
      hide Printable;
      hide Shows;
    }
    hide Accepts;
    hide Takes;
  }

  lemma NameAndPool(p: Platform, controllerID: string, request: Bootstrap)
    ensures var spec := RequestedSpec(p, controllerID, request);
            spec.controllerID == controllerID && spec.poolID == request.poolID
  {
    hide AppName;
  }

  lemma FaithfulCalm(p: Platform, b: Backend)
    requires Faithful(p, b)
    ensures Calm(b) && Legible(p, b)
  {
  }

  lemma SettingRefines(p: Platform, b: Backend, name: string, raw: string)
    requires Faithful(p, b)
    ensures var (b', r) := Setting(p, b, name, raw);
            && Faithful(p, b')
            && (if name in View(p, b).listed.Keys + View(p, b).aside.Keys
                then View(p, b') == Restated(View(p, b), name, MapState(p.casing, raw)) && r == Ok(Unit.Unit)
                else b' == b && r == Err(NotFound))
  {
    hide Faithful;
    hide View;
    hide MapState;
    hide Calm;
    FaithfulCalm(p, b);
    ViewNames(p, b);
    if name in Known(b) {
      if b.Mock? { SettingMock(p, b, name, raw); } else { SettingStore(p, b, name, raw); }
    }
    hide Restated;
  }

  lemma SettingMock(p: Platform, b: Backend, name: string, raw: string)
    requires Faithful(p, b) && b.Mock? && name in b.apps
    ensures var b' := Setting(p, b, name, raw).0;
            Faithful(p, b') && View(p, b') == Restated(View(p, b), name, MapState(p.casing, raw))
  {
    hide MapState;
    var state := MapState(p.casing, raw);
    var apps := b.apps[name := b.apps[name].(state := state)];
    BareMoved(b.apps[name], state);
    hide Bare;
    assert (map n | n in apps :: Bare(apps[n]))
        == (map n | n in b.apps :: Bare(b.apps[n]))[name := Bare(b.apps[name]).(state := state)];
  }

  lemma BareMoved(app: App, state: State)
    ensures Bare(app.(state := state)) == Bare(app).(state := state)
  {
  }

  lemma SettingStore(p: Platform, b: Backend, name: string, raw: string)
    requires Faithful(p, b) && b.TrueNAS? && name in b.held
    ensures var b' := Setting(p, b, name, raw).0;
            Faithful(p, b') && View(p, b') == Restated(View(p, b), name, MapState(p.casing, raw))
  {
    hide PlausibleManagedAppName;
    hide MapState;
    hide ReadApp;
    hide Legible;
    hide Readings;
    hide Sorted;
    hide Restated;
    var b' := Setting(p, b, name, raw).0;
    SetReadings(p, b, name, raw);
    LegibleReadings(p, b);
    LegibleReadings(p, b');
    SortedRestated(Readings(p, b), name, MapState(p.casing, raw));
  }

  lemma SetReadings(p: Platform, b: Backend, name: string, raw: string)
    requires b.TrueNAS? && name in b.held
    ensures name in Readings(p, b)
    ensures Readings(p, Setting(p, b, name, raw).0)
         == Readings(p, b)[name := Moved(Readings(p, b)[name], MapState(p.casing, raw))]
  {
    hide MapState;
    hide ReadApp;
    hide Moved;
    var b' := Setting(p, b, name, raw).0;
    RestatedRead(p, b, name, raw);
    forall n | n in b.held && n != name
      ensures ReadApp(p, b', n) == ReadApp(p, b, n)
    {
      SameRead(p, b, b', n);
    }
  }

  lemma RestatedRead(p: Platform, b: Backend, name: string, raw: string)
    requires b.TrueNAS? && name in b.held
    ensures ReadApp(p, b.(held := b.held[name := b.held[name].(state := raw)]), name)
         == Moved(ReadApp(p, b, name), MapState(p.casing, raw))
  {
    hide DecodeRunner;
    hide StringMap;
    hide StringList;
    hide GatewayEntry;
    hide MapState;
  }

  lemma GetRefines(p: Platform, b: Backend, controllerID: string, id: string)
    requires Calm(b)
    ensures var (b', r) := GetInstance(p, b, controllerID, id);
            b' == b && r == RefGet(p, View(p, b), controllerID, id)
  {
    hide Calm;
    hide View;
    hide ToInstance;
    GetFaithful(p, b, id);
    hide Found;
    var got := Apps.GetApp(p, b, id).1;
    if got.Ok? { BareShown(p, got.value, controllerID, ""); }
    hide Apps.GetApp;
  }

  lemma StopRefines(p: Platform, b: Backend, controllerID: string, id: string)
    requires Calm(b)
    ensures var (b', r) := StopInstance(p, b, controllerID, id);
            b' == b && r == RefStop(View(p, b), controllerID, id)
  {
    hide Calm;
    hide View;
    GetFaithful(p, b, id);
    hide Found;
    var got := Apps.GetApp(p, b, id).1;
    if got.Ok? { BareShown(p, got.value, controllerID, ""); }
    hide Apps.GetApp;
  }

  lemma DeleteRefines(p: Platform, b: Backend, controllerID: string, id: string)
    requires Faithful(p, b)
    ensures var (b', r) := DeleteInstance(p, b, controllerID, id);
            Faithful(p, b') && (View(p, b'), r) == RefDelete(View(p, b), controllerID, id)
  {
    FaithfulCalm(p, b);
    hide Faithful;
    hide Legible;
    hide Calm;
    hide View;
    GetFaithful(p, b, id);
    var got := Apps.GetApp(p, b, id).1;
    if got.Ok? {
      FoundKnown(p, b, id);
      BareShown(p, got.value, controllerID, "");
      BareSame(controllerID, got.value);
      DeleteRemoves(b, id);
      RemovedView(p, b, {id});
    }
    hide Found;
    hide Minus;
    hide Apps.GetApp;
    hide Apps.DeleteApp;
    hide Without;
  }

  lemma FoundKnown(p: Platform, b: Backend, id: string)
    requires Calm(b) && Found(View(p, b), id).Ok?
    ensures id in Known(b)
  {
    ViewNames(p, b);
    hide View;
  }

  lemma RemoveRefines(p: Platform, b: Backend, controllerID: string, names: seq<string>)
    requires Faithful(p, b) && Enumerates(names, Known(b))
    ensures var (b', r) := RemoveInstances(p, b, controllerID, names);
            && Faithful(p, b') && View(p, b') == Minus(View(p, b), Doomed(View(p, b).listed, controllerID))
            && r == Verdict(View(p, b).listed, controllerID)
  {
    FaithfulCalm(p, b);
    hide Faithful;
    hide Legible;
    hide View;
    hide Doomed;
    hide Verdict;
    hide Without;
    hide Minus;
    RemoveAllExact(p, b, controllerID, names);
    RemovedView(p, b, Doomed(View(p, b).listed, controllerID));
    hide RemoveInstances;
  }

  lemma SingleRefines(p: Platform, b: Backend, e: Event, names: seq<string>)
    requires p.Valid() && Faithful(p, b) && Admissible(p, e) && Enumerates(names, Known(b))
    requires e.Create? || e.Get? || e.Delete? || e.Stop?
    ensures var (b', a) := Step(p, b, e, names);
            Faithful(p, b') && (View(p, b'), a) == RefStep(p, View(p, b), e)
  {
    FaithfulCalm(p, b);
    hide Faithful;
    hide Calm;
    hide View;
    match e {
      case Create(controllerID, request) => CreateRefines(p, b, controllerID, request);
      case Get(controllerID, id) => GetRefines(p, b, controllerID, id);
      case Delete(controllerID, id) => DeleteRefines(p, b, controllerID, id);
      case Stop(controllerID, id) => StopRefines(p, b, controllerID, id);
    }
    hide CreateInstance;
    hide GetInstance;
    hide DeleteInstance;
    hide StopInstance;
    hide RefCreate;
    hide RefGet;
    hide RefDelete;
    hide RefStop;
  }

  lemma ListStepRefines(p: Platform, b: Backend, e: Event, names: seq<string>)
    requires Faithful(p, b) && Enumerates(names, Known(b)) && e.List?
    ensures Step(p, b, e, names) == (b, RefStep(p, View(p, b), e).1) && RefStep(p, View(p, b), e).0 == View(p, b)
  {
    FaithfulCalm(p, b);
    hide Faithful;
    hide Legible;
    hide View;
    ListIsChosen(p, b, e.controllerID, e.poolID, names);
    hide ListInstances;
    hide Chosen;
  }

  lemma RemoveStepRefines(p: Platform, b: Backend, e: Event, names: seq<string>)
    requires Faithful(p, b) && Enumerates(names, Known(b)) && e.RemoveAll?
    ensures var (b', a) := Step(p, b, e, names);
            Faithful(p, b') && (View(p, b'), a) == RefStep(p, View(p, b), e)
  {
    hide Faithful;
    hide View;
    RemoveRefines(p, b, e.controllerID, names);
    hide RemoveInstances;
    hide Doomed;
    hide Minus;
    hide Verdict;
  }

  lemma SetStepRefines(p: Platform, b: Backend, e: Event, names: seq<string>)
    requires Faithful(p, b) && Enumerates(names, Known(b)) && e.SetState?
    ensures var (b', a) := Step(p, b, e, names);
            Faithful(p, b') && (View(p, b'), a) == RefStep(p, View(p, b), e)
  {
    hide Faithful;
    hide View;
    SettingRefines(p, b, e.name, e.raw);
    hide Setting;
    hide Restated;
    hide MapState;
  }

  /** One event answers alike over any faithful client, whatever else it holds, and leaves it faithful. */
  lemma StepRefines(p: Platform, b: Backend, e: Event, names: seq<string>)
    requires p.Valid() && Faithful(p, b) && Admissible(p, e) && Enumerates(names, Known(b))
    ensures var (b', a) := Step(p, b, e, names);
            Faithful(p, b') && (View(p, b'), a) == RefStep(p, View(p, b), e)
  {
    hide Faithful;
    hide View;
    hide Admissible;
    if e.Start? { return; }
    hide RefStep;
    if e.List? {
      ListStepRefines(p, b, e, names);
    } else if e.RemoveAll? {
      RemoveStepRefines(p, b, e, names);
    } else if e.SetState? {
      SetStepRefines(p, b, e, names);
    } else {
      SingleRefines(p, b, e, names);
    }
    hide Step;
  }

  /** Over any faithful client a run answers as the reference map does. */
  lemma {:induction false} RunRefines(p: Platform, b: Backend, events: seq<Event>, orders: seq<Order>)
    requires p.Valid() && Faithful(p, b)
    requires |orders| == |events| && (forall o | o in orders :: Fair(o)) && forall e | e in events :: Admissible(p, e)
    ensures Answers(p, b, events, orders) == RefAnswers(p, View(p, b), events)
    decreases |events|
  {
    hide Faithful;
    hide View;
    hide Step;
    hide RefStep;
    if events != [] {
      var names := orders[0](Known(b));
      assert Fair(orders[0]) && Enumerates(names, Known(b));
      assert Admissible(p, events[0]);
      StepRefines(p, b, events[0], names);
      RunRefines(p, Step(p, b, events[0], names).0, events[1..], orders[1..]);
    }
  }

  /** From an empty inventory every run of operations and state changes, by any managers, answers alike over the
      mock map and over the store, whatever order each lists in and wherever TrueNAS keeps the document. */
  lemma BackendsAgree(p: Platform, events: seq<Event>, mockOrders: seq<Order>, storeOrders: seq<Order>, form: Form,
                      newState: string)
    requires p.Valid() && MapState(p.casing, newState) == Running
    requires |mockOrders| == |events| && forall o | o in mockOrders :: Fair(o)
    requires |storeOrders| == |events| && forall o | o in storeOrders :: Fair(o)
    requires forall e | e in events :: Admissible(p, e)
    ensures Answers(p, Mock(map[]), events, mockOrders)
         == Answers(p, TrueNAS(map[], false, form, newState, []), events, storeOrders)
  {
    var store := TrueNAS(map[], false, form, newState, []);
    assert View(p, Mock(map[])) == Inventory(map[], map[]) == View(p, store);
    RunRefines(p, Mock(map[]), events, mockOrders);
    RunRefines(p, store, events, storeOrders);
  }
}

/** The Apps backend: one manager over two clients, the in-memory mock and the Compose-encoding store. */
module Apps {
  import opened Names
  import opened Provider
  import opened Compose

  /** What TrueNAS does with one call: serve it, refuse it untouched, or carry it out and still report an error. */
  datatype Fate = Serve | Refuse | Lose

  datatype Held = Held(state: string, config: Config)

  /** The client behind the manager. `luck` lists the fates of the coming TrueNAS calls; after it, all are served. */
  datatype Backend =
    | Mock(apps: map<string, App>)
    | TrueNAS(held: map<string, Held>, gateway: bool, form: Form, newState: string, luck: seq<Fate>)

  function NextFate(b: Backend): Fate
    requires b.TrueNAS?
  {
    if b.luck == [] then Serve else b.luck[0]
  }

  function Spend(b: Backend): Backend
    requires b.TrueNAS?
  {
    if b.luck == [] then b else b.(luck := b.luck[1..])
  }

  /** Go gives map iteration no order, and the store sorts; every enumeration of the names is allowed. */
  type Order = set<string> -> seq<string>

  ghost predicate Enumerates(names: seq<string>, s: set<string>) {
    && (forall n :: n in names <==> n in s)
    && forall i, j | 0 <= i < j < |names| :: names[i] != names[j]
  }

  ghost predicate Fair(order: Order) {
    forall s :: Enumerates(order(s), s)
  }

  // ----- the client calls -----

  function Known(b: Backend): set<string> {
    if b.Mock? then b.apps.Keys else b.held.Keys
  }

  /** Decoding and policy validation of one App, as both `GetApp` and `ListApps` do it. */
  function ReadApp(p: Platform, b: Backend, name: string): Result<App>
    requires b.TrueNAS? && name in b.held
  {
    var app := RawApp(name, b.held[name].state, b.held[name].config);
    match DecodeApp(p, app)
    case Err(e) => Err(e)
    case Ok(decoded) => if ValidateGateway(p, app, b.gateway).Ok? then Ok(decoded) else Err(Other)
  }

  function GetApp(p: Platform, b: Backend, name: string): (Backend, Result<App>) {
    match b
    case Mock(apps) => (b, if name in apps then Ok(apps[name]) else Err(NotFound))
    case TrueNAS(held, _, _, _, _) =>
      (Spend(b),
       if NextFate(b) != Serve then Err(Other)
       else if name !in held then Err(NotFound)
       else match ReadApp(p, b, name)
         case Err(Unmanaged) => Err(Foreign)
         case r => r)
  }

  function CreateApp(p: Platform, b: Backend, spec: AppSpec): (Backend, Result<App>) {
    match b
    case Mock(apps) =>
      if spec.name in apps then (b, Ok(apps[spec.name]))
      else (Mock(apps[spec.name := App(spec, Running)]), Ok(App(spec, Running)))
    case TrueNAS(held, gateway, form, newState, _) =>
      match CreatedDocument(p, spec, gateway)
      case Err(e) => (b, Err(e))
      case Ok(document) =>
        if NextFate(b) == Refuse || spec.name in held then (Spend(b), Err(Other))
        else
          var b' := Spend(b).(held := held[spec.name := Held(newState, Carried(document, form))]);
          if NextFate(b) == Lose then (b', Err(Other)) else GetApp(p, b', spec.name)
  }

  /** The listing loop of the store over the names still to visit. */
  function ReadListed(p: Platform, b: Backend, names: seq<string>): (Backend, Result<seq<App>>)
    requires b.TrueNAS? && forall n | n in names :: n in b.held
    decreases |names|
  {
    if names == [] then (b, Ok([]))
    else if !PlausibleManagedAppName(names[0]) then ReadListed(p, b, names[1..])
    else if NextFate(b) != Serve then (Spend(b), Err(Other))
    else match ReadApp(p, b, names[0])
      case Err(Unmanaged) => ReadListed(p, Spend(b), names[1..])
      case Err(e) => (Spend(b), Err(e))
      case Ok(app) =>
        match ReadListed(p, Spend(b), names[1..])
        case (b', Ok(rest)) => (b', Ok([app] + rest))
        case (b', Err(e)) => (b', Err(e))
  }

  function Lookup(apps: map<string, App>, names: seq<string>): seq<App>
    requires forall n | n in names :: n in apps
  {
    seq(|names|, i requires 0 <= i < |names| => apps[names[i]])
  }

  function ListApps(p: Platform, b: Backend, names: seq<string>): (Backend, Result<seq<App>>)
    requires forall n | n in names :: n in Known(b)
  {
    match b
    case Mock(apps) => assert Known(b) == apps.Keys; (b, Ok(Lookup(apps, names)))
    case TrueNAS(held, _, _, _, _) =>
      assert Known(b) == held.Keys;
      if NextFate(b) != Serve then (Spend(b), Err(Other)) else ReadListed(p, Spend(b), names)
  }

  function DeleteApp(b: Backend, name: string): (Backend, Result<Unit>) {
    match b
    case Mock(apps) => (Mock(apps - {name}), Ok(Unit.Unit))
    case TrueNAS(held, _, _, _, _) =>
      if NextFate(b) == Refuse || name !in held then (Spend(b), Err(Other))
      else (Spend(b).(held := held - {name}), if NextFate(b) == Serve then Ok(Unit.Unit) else Err(Other))
  }

  // ----- the manager's operations -----

  function ToInstance(p: Platform, app: App): Instance {
    Instance(app.spec.name, app.spec.name, "truenas-custom-app", "mvp", Status(p, app.state), app.spec.poolID)
  }

  function Status(p: Platform, s: State): string {
    p.casing.lower(match s
      case Deploying => "DEPLOYING" case Running => "RUNNING" case Stopping => "STOPPING"
      case Stopped => "STOPPED" case Crashed => "CRASHED")
  }

  predicate Accepts(p: Platform, b: Bootstrap) {
    CommonBootstrap(b, p.contract.flavor) && Nameable(p.casing, b.name)
  }

  /** `verifyOwnership`; an empty pool means any. */
  predicate Owns(controllerID: string, app: App, poolID: string) {
    app.spec.controllerID == controllerID && (poolID == "" || app.spec.poolID == poolID)
  }

  function RequestedSpec(p: Platform, controllerID: string, b: Bootstrap): AppSpec {
    FixedSpec(p.contract, AppName(p.casing, p.digest, controllerID, b.name), controllerID, b.poolID, b.callbackURL,
              b.metadataURL, b.token)
  }

  function CreateInstance(p: Platform, b: Backend, controllerID: string, req: Bootstrap): (Backend, Result<Instance>) {
    if !Accepts(p, req) then (b, Err(Unsupported))
    else
      var spec := RequestedSpec(p, controllerID, req);
      match GetApp(p, b, spec.name)
      case (b1, Ok(app)) => (b1, if Owns(controllerID, app, req.poolID) then Ok(ToInstance(p, app)) else Err(Foreign))
      case (b1, Err(NotFound)) =>
        (match CreateApp(p, b1, spec)
         case (b2, Err(e)) => (b2, Err(e))
         case (b2, Ok(app)) =>
           (b2, if Owns(controllerID, app, req.poolID) then Ok(ToInstance(p, app)) else Err(Foreign)))
      case (b1, Err(e)) => (b1, Err(e))
  }

  function GetInstance(p: Platform, b: Backend, controllerID: string, id: string): (Backend, Result<Instance>) {
    match GetApp(p, b, id)
    case (b', Err(e)) => (b', Err(e))
    case (b', Ok(app)) => (b', if Owns(controllerID, app, "") then Ok(ToInstance(p, app)) else Err(Foreign))
  }

  function Selected(p: Platform, apps: seq<App>, controllerID: string, poolID: string): seq<Instance> {
    if apps == [] then []
    else
      var rest := Selected(p, apps[..|apps| - 1], controllerID, poolID);
      var last := apps[|apps| - 1];
      if Owns(controllerID, last, poolID) then rest + [ToInstance(p, last)] else rest
  }

  function ListInstances(p: Platform, b: Backend, controllerID: string, poolID: string, names: seq<string>)
    : (Backend, Result<seq<Instance>>)
    requires forall n | n in names :: n in Known(b)
  {
    match ListApps(p, b, names)
    case (b', Err(e)) => (b', Err(e))
    case (b', Ok(apps)) => (b', Ok(Selected(p, apps, controllerID, poolID)))
  }

  function DeleteInstance(p: Platform, b: Backend, controllerID: string, id: string): (Backend, Result<Unit>) {
    match GetApp(p, b, id)
    case (b1, Err(NotFound)) => (b1, Ok(Unit.Unit))
    case (b1, Err(e)) => (b1, Err(e))
    case (b1, Ok(app)) =>
      if !Owns(controllerID, app, "") then (b1, Err(Foreign))
      else if app.state.Busy() then (b1, Err(Active))
      else DeleteApp(b1, id)
  }

  function StopInstance(p: Platform, b: Backend, controllerID: string, id: string): (Backend, Result<Unit>) {
    match GetApp(p, b, id)
    case (b1, Err(e)) => (b1, Err(e))
    case (b1, Ok(app)) =>
      (b1, if !Owns(controllerID, app, "") then Err(Foreign)
           else if app.state == Stopped then Ok(Unit.Unit) else Err(UnsafeOperation))
  }

  /** The loop of `RemoveAll` over the apps still to visit. */
  function RemoveListed(b: Backend, controllerID: string, apps: seq<App>, active: bool): (Backend, Result<Unit>)
    decreases |apps|
  {
    if apps == [] then (b, if active then Err(Active) else Ok(Unit.Unit))
    else if apps[0].spec.controllerID != controllerID then RemoveListed(b, controllerID, apps[1..], active)
    else if apps[0].state.Busy() then RemoveListed(b, controllerID, apps[1..], true)
    else match DeleteApp(b, apps[0].spec.name)
      case (b', Err(e)) => if e == NotFound then RemoveListed(b', controllerID, apps[1..], active) else (b', Err(e))
      case (b', Ok(_)) => RemoveListed(b', controllerID, apps[1..], active)
  }

  function RemoveInstances(p: Platform, b: Backend, controllerID: string, names: seq<string>): (Backend, Result<Unit>)
    requires forall n | n in names :: n in Known(b)
  {
    match ListApps(p, b, names)
    case (b', Err(e)) => (b', Err(e))
    case (b', Ok(apps)) => RemoveListed(b', controllerID, apps, false)
  }
}

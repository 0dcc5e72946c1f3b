/** Printing an allowlisted App as a Compose document, and accepting back only realisations of it. */
module Compose {
  import opened Text
  import opened Names
  import opened Provider
  import opened Documents
  import opened ComposeText

  /** One top-level value of an App's configuration. A string there matters only through its JSON reading. */
  datatype Slot = Tree(value: Value) | BlankText | MalformedText | JsonText(document: Value)

  datatype Config = Missing | Fields(slots: map<Key, Slot>)

  /** An App as TrueNAS reports it. */
  datatype RawApp = RawApp(name: string, state: string, config: Config)

  // ----- printing -----

  predicate Allowlisted(c: Pinned, spec: AppSpec) {
    && spec.image == c.image && spec.executionProfile == c.flavor
    && spec.cpu == c.cpu && spec.memoryBytes == c.memoryBytes
    && spec.runAsUser == c.user && spec.noNewPrivileges && !spec.workdirTmpfs && spec.credentialTmpfs
    && spec.runnerDownloadURL == c.tool.url && spec.runnerFilename == c.tool.filename
    && spec.runnerSHA256 == c.tool.sha256
    && spec.hostMounts == [] && !spec.dockerSocket
    && spec.capDrop == c.capDrop
  }

  function OwnerLabels(spec: AppSpec): map<Key, string> {
    map[Managed := "true", Schema := "1", Controller := spec.controllerID,
        Pool := spec.poolID, Profile := spec.executionProfile]
  }

  function BootstrapEnvironment(spec: AppSpec): map<Key, string> {
    map[CallbackURL := spec.callbackURL, MetadataURL := spec.metadataURL,
        InstanceToken := spec.bootstrapToken, DownloadURL := spec.runnerDownloadURL,
        Filename := spec.runnerFilename, SHA256 := spec.runnerSHA256]
  }

  function PrintedField(p: Platform, spec: AppSpec, labels: map<Key, string>, environment: map<Key, string>, key: Key)
    : Value
  {
    match key
    case Image => Str(spec.image)
    case User => Str(spec.runAsUser)
    case Restart => Str(p.contract.restart)
    case Entrypoint => Strs(p.contract.shell + [ComposeSafe(p.script)])
    case CapDrop => Strs(p.contract.capDrop)
    case SecurityOpt => Strs(p.contract.securityOpt)
    case Cpus => Int(spec.cpu)
    case MemLimit => Int(spec.memoryBytes)
    case Tmpfs => Strs(p.contract.tmpfs)
    case LabelsKey => Texts(labels)
    case EnvironmentKey => Texts(environment)
    case _ => Null
  }

  function PrintedService(p: Platform, spec: AppSpec, labels: map<Key, string>, environment: map<Key, string>)
    : map<Key, Value>
  {
    map k | k in REQUIRED_KEYS :: PrintedField(p, spec, labels, environment, k)
  }

  function RunnerService(p: Platform, spec: AppSpec): map<Key, Value> {
    PrintedService(p, spec, OwnerLabels(spec), BootstrapEnvironment(spec))
  }

  function Document(runner: map<Key, Value>): Value {
    Object(map[ServicesKey := Object(map[RunnerKey := Object(runner)])])
  }

  /** `composeConfig`, as the document its JSON text spells. */
  function ComposeConfig(p: Platform, spec: AppSpec): Result<Value> {
    if Allowlisted(p.contract, spec) then Ok(Reread(Document(RunnerService(p, spec)))) else Err(Unsupported)
  }

  // ----- the host-gateway policy -----

  /** `callbackHostGatewayEntry` */
  function GatewayEntry(p: Platform, callbackURL: string, metadataURL: string): Option<string> {
    match (p.hostOf(callbackURL), p.hostOf(metadataURL))
    case (Some(callback), Some(metadata)) =>
      if p.casing.EqualFold(callback, metadata) then Some(p.casing.lower(callback) + ":host-gateway") else None
    case _ => None
  }

  function FieldOf(v: Value, key: Key): Value {
    if v.Object? && key in v.fields then v.fields[key] else Null
  }

  /** `applyCallbackHostGateway` on the document the text spells. */
  function ApplyGateway(p: Platform, document: Value, spec: AppSpec, enabled: bool): Result<Value> {
    if !enabled then Ok(document)
    else match GatewayEntry(p, spec.callbackURL, spec.metadataURL)
      case None => Err(Unsupported)
      case Some(entry) =>
        var services := FieldOf(document, ServicesKey);
        var runner := FieldOf(services, RunnerKey);
        var labels := FieldOf(runner, LabelsKey);
        if !services.Object? || !runner.Object? || !labels.Object? then Err(Other)
        else if ExtraHosts in runner.fields then Err(Unsupported)
        else
          var labels' := Object(labels.fields[HostGateway := Str("true")]);
          var runner' := Object(runner.fields[LabelsKey := labels'][ExtraHosts := Strs([entry])]);
          var services' := Object(services.fields[RunnerKey := runner']);
          Ok(Reread(Object(document.fields[ServicesKey := services'])))
  }

  /** The document `CreateApp` sends. */
  function CreatedDocument(p: Platform, spec: AppSpec, gateway: bool): Result<Value> {
    match ComposeConfig(p, spec)
    case Err(e) => Err(e)
    case Ok(document) => ApplyGateway(p, document, spec, gateway)
  }

  // ----- reading back -----

  /** `composeObject`, then the `services` entry both of its callers look up. */
  function Services(config: Config): Result<Value> {
    if config.Missing? then Err(Other)
    else if ServicesKey in config.slots then
      Ok(if config.slots[ServicesKey].Tree? then config.slots[ServicesKey].value else Null)
    else match Payload(config.slots, CustomCompose)
      case Some(r) => r
      case None =>
        match Payload(config.slots, CustomComposeText)
        case Some(r) => r
        case None => Err(Other)
  }

  /** What one of the two payload keys yields, or None when the search goes on to the next key. */
  function Payload(slots: map<Key, Slot>, key: Key): Option<Result<Value>> {
    if key !in slots then None
    else match slots[key]
      case Tree(Object(fields)) => Some(Ok(FieldOf(Object(fields), ServicesKey)))
      case Tree(_) => None
      case BlankText => None
      case MalformedText => Some(Err(Other))
      case JsonText(Object(fields)) => Some(Ok(FieldOf(Object(fields), ServicesKey)))
      case JsonText(Null) => Some(Ok(Null))
      case JsonText(_) => Some(Err(Other))
  }

  const REQUIRED_KEYS: set<Key> := FIXED_KEYS + {LabelsKey, EnvironmentKey}

  const ALLOWED_LABELS: set<Key> :=
    {Managed, Schema, Controller, Pool, Profile, HostGateway}

  const ENVIRONMENT_KEYS: set<Key> :=
    {CallbackURL, MetadataURL, InstanceToken, DownloadURL,
     Filename, SHA256}

  const FIXED_KEYS: set<Key> := {Image, User, Restart, Entrypoint, CapDrop, SecurityOpt, Cpus, MemLimit, Tmpfs}

  /** The check on one field whose value does not depend on the runner. */
  predicate FixedField(p: Platform, key: Key, v: Value) {
    match key
    case Image => v == Str(p.contract.image)
    case User => v == Str(p.contract.user)
    case Restart => v == Str(p.contract.restart)
    case Entrypoint => StringList(v) == Some(p.contract.shell + [ComposeSafe(p.script)])
    case CapDrop => StringList(v) == Some(p.contract.capDrop)
    case SecurityOpt => StringList(v) == Some(p.contract.securityOpt)
    case Cpus => IntegerValue(v) == Some(p.contract.cpu)
    case MemLimit => IntegerValue(v) == Some(p.contract.memoryBytes)
    case Tmpfs => StringList(v) == Some(p.contract.tmpfs)
    case _ => true
  }

  predicate FixedFields(p: Platform, runner: map<Key, Value>)
    requires REQUIRED_KEYS <= runner.Keys
  {
    forall k | k in FIXED_KEYS :: FixedField(p, k, runner[k])
  }

  predicate FixedLabels(runner: map<Key, Value>, labels: map<Key, string>) {
    && labels.Keys <= ALLOWED_LABELS
    && (HostGateway in labels ==> labels[HostGateway] == "true")
    && (ExtraHosts in runner <==> HostGateway in labels)
  }

  predicate FixedEnvironment(tool: Tool, environment: map<Key, string>) {
    && environment.Keys == ENVIRONMENT_KEYS
    && !Blank(environment[CallbackURL]) && !Blank(environment[MetadataURL])
    && !Blank(environment[InstanceToken])
    && environment[DownloadURL] == tool.url
    && environment[Filename] == tool.filename
    && environment[SHA256] == tool.sha256
  }

  /** `validateFixedRunnerService` */
  function ValidatedEnvironment(p: Platform, runner: map<Key, Value>, labels: map<Key, string>)
    : (r: Result<map<Key, string>>)
    ensures r.Ok? ==> {CallbackURL, MetadataURL} <= r.value.Keys
  {
    if !(runner.Keys <= REQUIRED_KEYS + {ExtraHosts}) || !(REQUIRED_KEYS <= runner.Keys) then Err(ManagedDrift)
    else if !FixedFields(p, runner) || !FixedLabels(runner, labels) then Err(ManagedDrift)
    else match StringMap(runner[EnvironmentKey])
      case None => Err(ManagedDrift)
      case Some(environment) => if FixedEnvironment(p.contract.tool, environment) then Ok(environment) else Err(ManagedDrift)
  }

  function LabelOf(labels: map<Key, string>, key: Key): string {
    if key in labels then labels[key] else ""
  }

  function MapState(casing: CaseMaps, raw: string): State {
    var s := casing.upper(TrimSpace(raw));
    if s == "RUNNING" then Running
    else if s == "STOPPED" then Stopped
    else if s == "CRASHED" then Crashed
    else if s == "STOPPING" then Stopping
    else Deploying
  }

  /** The profile every accepted App has, whoever owns it and wherever it calls back. */
  function FixedSpec(c: Pinned, name: string, controllerID: string, poolID: string, callbackURL: string,
                     metadataURL: string, token: string): (spec: AppSpec)
    ensures Allowlisted(c, spec)
  {
    AppSpec(name, c.image, controllerID, poolID, c.cpu, c.memoryBytes, c.user, c.capDrop, true, false, true, [], false,
            callbackURL, metadataURL, token, c.tool.url, c.tool.filename, c.tool.sha256, c.flavor)
  }

  /** The owner a set of labels names, if it is a complete one of this provider's. */
  predicate OwnedBy(c: Pinned, labels: map<Key, string>, controllerID: string, poolID: string) {
    && LabelOf(labels, Schema) == "1"
    && TrimSpace(LabelOf(labels, Controller)) == controllerID && controllerID != ""
    && TrimSpace(LabelOf(labels, Pool)) == poolID && poolID != ""
    && TrimSpace(LabelOf(labels, Profile)) == c.flavor
  }

  /** `decodeApp` from the runner service on. */
  function DecodeRunner(p: Platform, name: string, alone: bool, runner: map<Key, Value>): Result<AppSpec> {
    match StringMap(FieldOf(Object(runner), LabelsKey))
    case None => Err(Other)
    case Some(labels) =>
      var controllerID := TrimSpace(LabelOf(labels, Controller));
      var poolID := TrimSpace(LabelOf(labels, Pool));
      if LabelOf(labels, Managed) != "true" then Err(Unmanaged)
      else if !alone || !OwnedBy(p.contract, labels, controllerID, poolID) then Err(ManagedDrift)
      else match ValidatedEnvironment(p, runner, labels)
        case Err(e) => Err(e)
        case Ok(environment) =>
          Ok(FixedSpec(p.contract, name, controllerID, poolID, environment[CallbackURL], environment[MetadataURL], ""))
  }

  /** `decodeApp` */
  function DecodeApp(p: Platform, app: RawApp): Result<App> {
    match Services(app.config)
    case Err(e) => Err(e)
    case Ok(services) =>
      var runner := FieldOf(services, RunnerKey);
      if !services.Object? || !runner.Object? then Err(Other)
      else match DecodeRunner(p, app.name, |services.fields| == 1, runner.fields)
        case Err(e) => Err(e)
        case Ok(spec) => Ok(App(spec, MapState(p.casing, app.state)))
  }

  /** `validateCallbackHostGatewayAppConfig` */
  function ValidateGateway(p: Platform, app: RawApp, expected: bool): Result<Unit> {
    match Services(app.config)
    case Err(e) => Err(e)
    case Ok(services) =>
      var runner := FieldOf(services, RunnerKey);
      if !services.Object? || !runner.Object? then Err(Other)
      else match StringMap(FieldOf(runner, LabelsKey))
        case None => Err(Other)
        case Some(labels) =>
          if !expected then
            if HostGateway in labels || ExtraHosts in runner.fields then Err(Other) else Ok(Unit.Unit)
          else if HostGateway !in labels || labels[HostGateway] != "true" then Err(Other)
          else match StringMap(FieldOf(runner, EnvironmentKey))
            case None => Err(Other)
            case Some(environment) =>
              match (GatewayEntry(p, LabelOf(environment, CallbackURL), LabelOf(environment, MetadataURL)),
                     StringList(FieldOf(runner, ExtraHosts)))
              case (Some(entry), Some(hosts)) => if hosts == [entry] then Ok(Unit.Unit) else Err(Other)
              case _ => Err(Other)
  }

  // ----- decoding accepts exactly the realisations of a printed document -----

  const OWNER_LABELS: set<Key> := {Controller, Pool, Profile}

  function NormalLabels(labels: map<Key, string>): map<Key, string> {
    map k | k in labels && k != HostGateway :: if k in OWNER_LABELS then TrimSpace(labels[k]) else labels[k]
  }

  /** How the validator looks at a field. */
  datatype Kind = Listed | Counted | Labelled | Mapped | Verbatim

  function KindOf(key: Key): Kind {
    match key
    case Entrypoint | CapDrop | SecurityOpt | Tmpfs => Listed
    case Cpus | MemLimit => Counted
    case LabelsKey => Labelled
    case EnvironmentKey => Mapped
    case _ => Verbatim
  }

  /** Two values say the same once list, map and number forms, and space around ownership labels, are set aside. */
  predicate SameReading(kind: Kind, v: Value, w: Value) {
    match kind
    case Listed => StringList(v).Some? && StringList(v) == StringList(w)
    case Counted => IntegerValue(v).Some? && IntegerValue(v) == IntegerValue(w)
    case Labelled =>
      StringMap(v).Some? && StringMap(w).Some? && NormalLabels(StringMap(v).value) == NormalLabels(StringMap(w).value)
    case Mapped => StringMap(v).Some? && StringMap(v) == StringMap(w)
    case Verbatim => v == w
  }

  /** Two runner services read the same, field by field, the gateway apart. */
  predicate SameService(a: map<Key, Value>, b: map<Key, Value>) {
    && a.Keys - {ExtraHosts} == b.Keys - {ExtraHosts} == REQUIRED_KEYS
    && forall k | k in REQUIRED_KEYS :: SameReading(KindOf(k), a[k], b[k])
  }

  /** The gateway label and `extra_hosts` come and go together, and the label says "true". */
  predicate GatewayPaired(runner: map<Key, Value>) {
    match StringMap(FieldOf(Object(runner), LabelsKey))
    case None => false
    case Some(labels) =>
      && (HostGateway in labels ==> labels[HostGateway] == "true")
      && (ExtraHosts in runner <==> HostGateway in labels)
  }

  /** A spec that can be printed and read back: IDs without outer space, URLs and token not blank. */
  predicate Printable(c: Pinned, spec: AppSpec) {
    && Allowlisted(c, spec)
    && Trimmed(spec.controllerID) && spec.controllerID != "" && Trimmed(spec.poolID) && spec.poolID != ""
    && !Blank(spec.callbackURL) && !Blank(spec.metadataURL) && !Blank(spec.bootstrapToken)
  }

  /** `runner` is, up to form, the service printed for `spec`, possibly with a paired gateway. */
  predicate Realises(p: Platform, runner: map<Key, Value>, spec: AppSpec) {
    && Printable(p.contract, spec)
    && GatewayPaired(runner)
    && SameService(runner, RunnerService(p, spec))
  }

  /** The only service of a configuration. */
  function OnlyRunner(config: Config): Option<map<Key, Value>> {
    match Services(config)
    case Err(_) => None
    case Ok(services) =>
      var runner := FieldOf(services, RunnerKey);
      if services.Object? && runner.Object? && |services.fields| == 1 then Some(runner.fields) else None
  }

  /** The token kept in a configuration, which decoding does not return. */
  function StoredToken(config: Config): string {
    match OnlyRunner(config)
    case None => ""
    case Some(runner) =>
      match StringMap(FieldOf(Object(runner), EnvironmentKey))
      case None => ""
      case Some(environment) => LabelOf(environment, InstanceToken)
  }

  /** The three places TrueNAS may report a custom document. */
  datatype Form = AtTop | AsObject | AsText

  function Carried(document: Value, form: Form): Config {
    match form
    case AtTop => if document.Object? then Fields(map k | k in document.fields :: Tree(document.fields[k])) else Missing
    case AsObject => Fields(map[CustomCompose := Tree(document)])
    case AsText => Fields(map[CustomComposeText := JsonText(document)])
  }
}

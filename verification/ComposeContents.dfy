/** What the document sent for an App says, spelled out, and when the host-gateway policy lets it be sent. */
module ComposeContents {
  import opened Text
  import opened Names
  import opened Provider
  import opened Documents
  import opened ComposeText
  import opened Compose
  import opened ComposeProofs

  // ----- the host-gateway policy -----

  /** Both URLs name a DNS host over https, and it is the same one up to case. */
  predicate OneHost(p: Platform, callbackURL: string, metadataURL: string) {
    match (p.hostOf(callbackURL), p.hostOf(metadataURL))
    case (Some(a), Some(b)) => p.casing.EqualFold(a, b)
    case _ => false
  }

  /** The one extra host: the callback's, in lower case, at the gateway. */
  function HostEntry(p: Platform, callbackURL: string): string {
    match p.hostOf(callbackURL)
    case Some(host) => p.casing.lower(host) + ":host-gateway"
    case None => ""
  }

  lemma EntryIsHost(p: Platform, callbackURL: string, metadataURL: string)
    ensures GatewayEntry(p, callbackURL, metadataURL)
         == if OneHost(p, callbackURL, metadataURL) then Some(HostEntry(p, callbackURL)) else None
  {
  }

  /** Under the policy a document is sent if and only if both URLs name one host; otherwise the request is unsupported. */
  lemma PolicySendsExactly(p: Platform, spec: AppSpec)
    requires Allowlisted(p.contract, spec)
    ensures CreatedDocument(p, spec, false).Ok?
    ensures CreatedDocument(p, spec, true).Ok? <==> OneHost(p, spec.callbackURL, spec.metadataURL)
    ensures CreatedDocument(p, spec, true).Err? ==> CreatedDocument(p, spec, true).error == Unsupported
  {
    CreatedDocumentIs(p, spec, false);
    CreatedDocumentIs(p, spec, true);
    EntryIsHost(p, spec.callbackURL, spec.metadataURL);
    hide CreatedDocument;
    hide GatewayEntry;
    hide OneHost;
    hide HostEntry;
  }

  /** A runner service with readable labels, somewhere in the App's configuration. */
  predicate Readable(app: RawApp) {
    match Services(app.config)
    case Err(_) => false
    case Ok(services) =>
      var runner := FieldOf(services, RunnerKey);
      services.Object? && runner.Object? && StringMap(FieldOf(runner, LabelsKey)).Some?
  }

  function ServiceOf(app: RawApp): map<Key, Value>
    requires Readable(app)
  {
    FieldOf(Services(app.config).value, RunnerKey).fields
  }

  function LabelsOf(app: RawApp): map<Key, string>
    requires Readable(app)
  {
    StringMap(FieldOf(Object(ServiceOf(app)), LabelsKey)).value
  }

  /** The URLs in the service's own environment name one host, and that host is its only extra one. */
  predicate GatewayHolds(p: Platform, service: map<Key, Value>) {
    match StringMap(FieldOf(Object(service), EnvironmentKey))
    case None => false
    case Some(environment) =>
      var (callback, metadata) := (LabelOf(environment, CallbackURL), LabelOf(environment, MetadataURL));
      && OneHost(p, callback, metadata)
      && StringList(FieldOf(Object(service), ExtraHosts)) == Some([HostEntry(p, callback)])
  }

  /** Validation passes exactly, with the policy on, for a labelled App whose own URLs name one host that is its only
      extra host, and, with the policy off, for one with neither label nor extra hosts. */
  lemma PolicyValidatesExactly(p: Platform, app: RawApp)
    ensures ValidateGateway(p, app, true).Ok?
       <==> && Readable(app) && HostGateway in LabelsOf(app) && LabelsOf(app)[HostGateway] == "true"
            && GatewayHolds(p, ServiceOf(app))
    ensures ValidateGateway(p, app, false).Ok?
       <==> Readable(app) && HostGateway !in LabelsOf(app) && ExtraHosts !in ServiceOf(app)
  {
    hide StringMap;
    hide StringList;
    hide Services;
    match Services(app.config)
    case Err(_) =>
    case Ok(services) =>
      match StringMap(FieldOf(FieldOf(services, RunnerKey), EnvironmentKey))
      case None =>
      case Some(environment) =>
        EntryIsHost(p, LabelOf(environment, CallbackURL), LabelOf(environment, MetadataURL));
        hide GatewayEntry;
        hide OneHost;
        hide HostEntry;
  }

  // ----- the document in full -----

  const FIELDS: set<Key> :=
    {Image, User, Restart, Entrypoint, CapDrop, SecurityOpt, Cpus, MemLimit, Tmpfs, LabelsKey, EnvironmentKey}

  /** The field of this spelling says `v` once it has been through JSON. */
  predicate Says(service: map<Key, Value>, k: Key, text: string, v: Value) {
    k in service && Spelling(k) == text && service[k] == Reread(v)
  }

  predicate Has(m: map<Key, string>, k: Key, text: string, value: string) {
    k in m && Spelling(k) == text && m[k] == value
  }

  /** The nine fields that do not depend on the owner. */
  predicate SaysProfile(p: Platform, service: map<Key, Value>, spec: AppSpec) {
    && Says(service, Image, "image", Str(spec.image)) && Says(service, User, "user", Str(spec.runAsUser))
    && Says(service, Restart, "restart", Str(p.contract.restart))
    && Says(service, Entrypoint, "entrypoint", Strs(p.contract.shell + [ComposeSafe(p.script)]))
    && Says(service, CapDrop, "cap_drop", Strs(p.contract.capDrop))
    && Says(service, SecurityOpt, "security_opt", Strs(p.contract.securityOpt))
    && Says(service, Cpus, "cpus", Int(spec.cpu)) && Says(service, MemLimit, "mem_limit", Int(spec.memoryBytes))
    && Says(service, Tmpfs, "tmpfs", Strs(p.contract.tmpfs))
  }

  predicate SaysOwner(labels: map<Key, string>, spec: AppSpec, gateway: bool) {
    && labels.Keys == {Managed, Schema, Controller, Pool, Profile} + (if gateway then {HostGateway} else {})
    && Has(labels, Managed, "io.sempersupra.garm.managed", "true")
    && Has(labels, Schema, "io.sempersupra.garm.schema", "1")
    && Has(labels, Controller, "io.sempersupra.garm.controller-id", spec.controllerID)
    && Has(labels, Pool, "io.sempersupra.garm.pool-id", spec.poolID)
    && Has(labels, Profile, "io.sempersupra.garm.execution-profile", spec.executionProfile)
    && (gateway ==> Has(labels, HostGateway, "io.sempersupra.garm.callback-host-gateway", "true"))
  }

  predicate SaysBootstrap(environment: map<Key, string>, spec: AppSpec) {
    && environment.Keys == {CallbackURL, MetadataURL, InstanceToken, DownloadURL, Filename, SHA256}
    && Has(environment, CallbackURL, "GARM_CALLBACK_URL", spec.callbackURL)
    && Has(environment, MetadataURL, "GARM_METADATA_URL", spec.metadataURL)
    && Has(environment, InstanceToken, "GARM_INSTANCE_TOKEN", spec.bootstrapToken)
    && Has(environment, DownloadURL, "GARM_RUNNER_DOWNLOAD_URL", spec.runnerDownloadURL)
    && Has(environment, Filename, "GARM_RUNNER_FILENAME", spec.runnerFilename)
    && Has(environment, SHA256, "GARM_RUNNER_SHA256", spec.runnerSHA256)
  }

  predicate SaysMaps(service: map<Key, Value>, spec: AppSpec, gateway: bool) {
    && LabelsKey in service && Spelling(LabelsKey) == "labels"
    && StringMap(service[LabelsKey]).Some? && SaysOwner(StringMap(service[LabelsKey]).value, spec, gateway)
    && EnvironmentKey in service && Spelling(EnvironmentKey) == "environment"
    && StringMap(service[EnvironmentKey]).Some? && SaysBootstrap(StringMap(service[EnvironmentKey]).value, spec)
  }

  /** The one service of a document: its own fields and no others, with readable labels and environment. */
  predicate SaysAll(p: Platform, service: map<Key, Value>, spec: AppSpec, gateway: bool) {
    && service.Keys == FIELDS + (if gateway then {ExtraHosts} else {})
    && SaysProfile(p, service, spec) && SaysMaps(service, spec, gateway)
    && (gateway ==> Says(service, ExtraHosts, "extra_hosts", Strs([HostEntry(p, spec.callbackURL)])))
  }

  lemma RunnerHas(p: Platform, spec: AppSpec, k: Key)
    requires k in REQUIRED_KEYS
    ensures k in PlainRunner(p, spec)
    ensures PlainRunner(p, spec)[k]
         == Reread(PrintedField(p, spec, OwnerLabels(spec), BootstrapEnvironment(spec), k))
  {
    hide PrintedField;
    hide Reread;
  }

  lemma NamesAndCaps(p: Platform, spec: AppSpec)
    ensures var service := PlainRunner(p, spec);
            && Says(service, Image, "image", Str(spec.image)) && Says(service, User, "user", Str(spec.runAsUser))
            && Says(service, Restart, "restart", Str(p.contract.restart))
            && Says(service, CapDrop, "cap_drop", Strs(p.contract.capDrop))
  {
    RunnerHas(p, spec, Image);
    RunnerHas(p, spec, User);
    RunnerHas(p, spec, Restart);
    RunnerHas(p, spec, CapDrop);
    hide PlainRunner;
    hide Reread;
    hide OwnerLabels;
    hide BootstrapEnvironment;
    hide ComposeSafe;
    hide REQUIRED_KEYS;
  }

  lemma LimitsAndProgram(p: Platform, spec: AppSpec)
    ensures var service := PlainRunner(p, spec);
            && Says(service, Entrypoint, "entrypoint", Strs(p.contract.shell + [ComposeSafe(p.script)]))
            && Says(service, SecurityOpt, "security_opt", Strs(p.contract.securityOpt))
            && Says(service, Cpus, "cpus", Int(spec.cpu)) && Says(service, MemLimit, "mem_limit", Int(spec.memoryBytes))
            && Says(service, Tmpfs, "tmpfs", Strs(p.contract.tmpfs))
  {
    RunnerHas(p, spec, Entrypoint);
    RunnerHas(p, spec, SecurityOpt);
    RunnerHas(p, spec, Cpus);
    RunnerHas(p, spec, MemLimit);
    RunnerHas(p, spec, Tmpfs);
    hide PlainRunner;
    hide Reread;
    hide OwnerLabels;
    hide BootstrapEnvironment;
    hide ComposeSafe;
    hide REQUIRED_KEYS;
  }

  lemma PlainSaysProfile(p: Platform, spec: AppSpec)
    ensures SaysProfile(p, PlainRunner(p, spec), spec)
  {
    NamesAndCaps(p, spec);
    LimitsAndProgram(p, spec);
    hide PlainRunner;
    hide Says;
    hide ComposeSafe;
  }

  lemma OwnNames()
    ensures Spelling(Managed) == "io.sempersupra.garm.managed" && Spelling(Schema) == "io.sempersupra.garm.schema"
    ensures Spelling(Controller) == "io.sempersupra.garm.controller-id"
  {
  }

  lemma OtherNames()
    ensures Spelling(Pool) == "io.sempersupra.garm.pool-id"
    ensures Spelling(Profile) == "io.sempersupra.garm.execution-profile"
    ensures Spelling(HostGateway) == "io.sempersupra.garm.callback-host-gateway"
  {
  }

  lemma OwnerSpelt(spec: AppSpec)
    ensures SaysOwner(OwnerLabels(spec), spec, false)
    ensures SaysOwner(OwnerLabels(spec)[HostGateway := "true"], spec, true)
  {
    OwnNames();
    OtherNames();
    hide Spelling;
  }

  lemma RequestNames()
    ensures Spelling(CallbackURL) == "GARM_CALLBACK_URL" && Spelling(MetadataURL) == "GARM_METADATA_URL"
    ensures Spelling(InstanceToken) == "GARM_INSTANCE_TOKEN"
  {
  }

  lemma ToolNames()
    ensures Spelling(DownloadURL) == "GARM_RUNNER_DOWNLOAD_URL" && Spelling(Filename) == "GARM_RUNNER_FILENAME"
    ensures Spelling(SHA256) == "GARM_RUNNER_SHA256"
  {
  }

  lemma EnvironmentSpelt(spec: AppSpec)
    ensures SaysBootstrap(BootstrapEnvironment(spec), spec)
  {
    RequestNames();
    ToolNames();
    hide Spelling;
  }

  lemma ElevenKeys(p: Platform, spec: AppSpec)
    ensures PlainRunner(p, spec).Keys == FIELDS && ExtraHosts !in PlainRunner(p, spec)
  {
    hide PrintedField;
    hide Reread;
    assert PlainRunner(p, spec).Keys == REQUIRED_KEYS;
  }

  lemma MapsSay(service: map<Key, Value>, spec: AppSpec, entry: Option<string>)
    requires ReadsAsCreated(service, spec, entry) && LabelsKey in service && EnvironmentKey in service
    ensures SaysMaps(service, spec, entry.Some?)
  {
    OwnerSpelt(spec);
    EnvironmentSpelt(spec);
    hide SaysOwner;
    hide SaysBootstrap;
    hide OwnerLabels;
    hide BootstrapEnvironment;
    hide StringMap;
    hide StringList;
  }

  lemma PlainSaysAll(p: Platform, spec: AppSpec)
    ensures SaysAll(p, PlainRunner(p, spec), spec, false)
  {
    PlainSaysProfile(p, spec);
    PlainReads(p, spec);
    ElevenKeys(p, spec);
    hide PlainRunner;
    assert LabelsKey in FIELDS && EnvironmentKey in FIELDS;
    MapsSay(PlainRunner(p, spec), spec, None);
    hide FIELDS;
    hide SaysProfile;
    hide SaysMaps;
    hide ReadsAsCreated;
    hide HostEntry;
    hide Says;
  }

  lemma ProfileStays(p: Platform, spec: AppSpec, service: map<Key, Value>, labels: Value, hosts: Value)
    requires SaysProfile(p, service, spec)
    ensures SaysProfile(p, WithGateway(service, labels, hosts), spec)
  {
    hide Reread;
    hide Spelling;
    hide ComposeSafe;
  }

  lemma GatewaySaysAll(p: Platform, spec: AppSpec)
    ensures SaysAll(p, GatewayRunner(p, spec, HostEntry(p, spec.callbackURL)), spec, true)
  {
    var entry := HostEntry(p, spec.callbackURL);
    PlainSaysProfile(p, spec);
    GatewayReads(p, spec, entry);
    ElevenKeys(p, spec);
    hide PlainRunner;
    hide HostEntry;
    ProfileStays(p, spec, PlainRunner(p, spec), Reread(Texts(OwnerLabels(spec)[HostGateway := "true"])), Reread(Strs([entry])));
    MapsSay(GatewayRunner(p, spec, entry), spec, Some(entry));
    GatewayKeys(PlainRunner(p, spec), Reread(Texts(OwnerLabels(spec)[HostGateway := "true"])), entry);
    hide FIELDS;
    hide SaysProfile;
    hide SaysMaps;
    hide ReadsAsCreated;
    hide Says;
    hide Reread;
  }

  lemma GatewayKeys(plain: map<Key, Value>, labels: Value, entry: string)
    requires plain.Keys == FIELDS
    ensures var service := WithGateway(plain, labels, Reread(Strs([entry])));
            && service.Keys == FIELDS + {ExtraHosts} && LabelsKey in service && EnvironmentKey in service
            && Says(service, ExtraHosts, "extra_hosts", Strs([entry]))
  {
    assert LabelsKey in FIELDS && EnvironmentKey in FIELDS;
    hide FIELDS;
    hide Reread;
  }

  /** The document sent for an allowlisted spec, wherever it is reported, holds one service, and that one says exactly what
      the spec asks for, each field under its own spelling; the gateway's label and extra host are there exactly under the
      policy. */
  lemma DocumentSaysTheSpec(p: Platform, spec: AppSpec, gateway: bool, form: Form)
    requires Allowlisted(p.contract, spec) && CreatedDocument(p, spec, gateway).Ok?
    ensures var service := OnlyRunner(Carried(CreatedDocument(p, spec, gateway).value, form));
            service.Some? && SaysAll(p, service.value, spec, gateway)
  {
    CreatedDocumentIs(p, spec, gateway);
    EntryIsHost(p, spec.callbackURL, spec.metadataURL);
    hide CreatedDocument;
    hide GatewayEntry;
    hide OneHost;
    var runner := if gateway then GatewayRunner(p, spec, HostEntry(p, spec.callbackURL)) else PlainRunner(p, spec);
    CarriedRunner(runner, form);
    if gateway { GatewaySaysAll(p, spec); } else { PlainSaysAll(p, spec); }
    hide HostEntry;
    hide GatewayRunner;
    hide PlainRunner;
    hide SaysAll;
    hide Allowlisted;
    hide Carried;
    hide OnlyRunner;
  }

  // ----- what a reported App is taken for -----

  /** The services of a JSON document or object; what is not an object has none. */
  function ServicesIn(document: Value): Value {
    match document
    case Object(fields) => if ServicesKey in fields then fields[ServicesKey] else Null
    case _ => Null
  }

  /** There is nothing at a place to look into: no entry, a blank text, or a value that is neither object nor text. */
  predicate PassedOver(slots: map<Key, Slot>, key: Key) {
    key in slots ==> slots[key].BlankText? || (slots[key].Tree? && !slots[key].value.Object?)
  }

  /** Where the services are looked for: a services entry at the top wins, then the custom object, then the custom text; a
      text that does not parse, or parses to something else than an object, is an error, and a blank one is passed over. */
  lemma ServicesComeFrom(slots: map<Key, Slot>, document: Value)
    ensures ServicesKey in slots && slots[ServicesKey] == Tree(document) ==> Services(Fields(slots)) == Ok(document)
    ensures ServicesKey !in slots && CustomCompose in slots && slots[CustomCompose] == Tree(document) && document.Object? ==>
              Services(Fields(slots)) == Ok(ServicesIn(document))
    ensures ServicesKey !in slots && PassedOver(slots, CustomCompose) && CustomComposeText in slots
            && slots[CustomComposeText] == JsonText(document) && (document.Object? || document.Null?) ==>
              Services(Fields(slots)) == Ok(ServicesIn(document))
    ensures ServicesKey !in slots && PassedOver(slots, CustomCompose) && CustomComposeText in slots
            && (slots[CustomComposeText].MalformedText?
                || (slots[CustomComposeText] == JsonText(document) && !document.Object? && !document.Null?)) ==>
              Services(Fields(slots)) == Err(Other)
    ensures ServicesKey !in slots && PassedOver(slots, CustomCompose) && PassedOver(slots, CustomComposeText) ==>
              Services(Fields(slots)) == Err(Other)
    ensures Services(Missing) == Err(Other)
  {
  }

  /** The one service of a reported App, when its document has a runner service with readable labels. */
  predicate IsManaged(app: RawApp) {
    Readable(app) && LabelOf(LabelsOf(app), Managed) == "true"
  }

  /** An App is somebody else's exactly if its runner's labels can be read and do not call it managed; it is an error, told
      apart from drift, exactly if they cannot be read; and it is drift exactly if they call it managed and it does not
      decode. */
  lemma ErrorsTellApart(p: Platform, app: RawApp)
    ensures DecodeApp(p, app) == Err(Unmanaged) <==> Readable(app) && !IsManaged(app)
    ensures DecodeApp(p, app) == Err(Other) <==> !Readable(app)
    ensures DecodeApp(p, app) == Err(ManagedDrift) <==> IsManaged(app) && !DecodeApp(p, app).Ok?
    ensures DecodeApp(p, app).Ok? ==> IsManaged(app)
  {
    ServicesFailPlainly(app.config);
    hide Services;
    hide StringMap;
    hide TrimSpace;
    hide FixedFields;
    hide FixedLabels;
    hide FixedEnvironment;
  }

  lemma ServicesFailPlainly(config: Config)
    ensures Services(config).Err? ==> Services(config) == Err(Other)
  {
  }
}

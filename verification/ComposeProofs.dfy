/** Decoding accepts exactly the realisations of printed documents, and printing then decoding is the identity. */
module ComposeProofs {
  import opened Text
  import opened Provider
  import opened Documents
  import opened ComposeText
  import opened Compose

  lemma TypedReads(strs: seq<string>, n: int, texts: map<Key, string>)
    ensures StringList(Strs(strs)) == Some(strs)
    ensures Int64(n) ==> IntegerValue(Int(n)) == Some(n)
    ensures StringMap(Texts(texts)) == Some(texts)
  {
  }

  /** A fixed field passes its check exactly when it reads as the printed one. */
  lemma FixedFieldExactly(p: Platform, spec: AppSpec, labels: map<Key, string>, environment: map<Key, string>,
                          key: Key, v: Value)
    requires Lawful(p.contract) && Allowlisted(p.contract, spec) && key in FIXED_KEYS
    ensures FixedField(p, key, v) <==> SameReading(KindOf(key), v, PrintedField(p, spec, labels, environment, key))
  {
    hide StringList;
    hide IntegerValue;
    hide StringMap;
    hide NormalLabels;
    hide ComposeSafe;
    match key
    case Entrypoint => TypedReads(p.contract.shell + [ComposeSafe(p.script)], 0, labels);
    case CapDrop => TypedReads(p.contract.capDrop, 0, labels);
    case SecurityOpt => TypedReads(p.contract.securityOpt, 0, labels);
    case Tmpfs => TypedReads(p.contract.tmpfs, 0, labels);
    case Cpus => TypedReads([], p.contract.cpu, labels);
    case MemLimit => TypedReads([], p.contract.memoryBytes, labels);
    case _ =>
  }

  /** A service reads as the one printed for `spec` exactly when the checks pass and its maps hold the spec's. */
  lemma SameServiceExactly(p: Platform, spec: AppSpec, labels: map<Key, string>, environment: map<Key, string>,
                           runner: map<Key, Value>)
    requires Lawful(p.contract) && Allowlisted(p.contract, spec)
    ensures SameService(runner, PrintedService(p, spec, labels, environment))
       <==> && runner.Keys - {ExtraHosts} == REQUIRED_KEYS
            && FixedFields(p, runner)
            && SameReading(Labelled, runner[LabelsKey], Texts(labels))
            && SameReading(Mapped, runner[EnvironmentKey], Texts(environment))
  {
    hide SameReading;
    hide FixedField;
    hide PrintedField;
    var printed := PrintedService(p, spec, labels, environment);
    PrintedMaps(p, spec, labels, environment);
    if runner.Keys - {ExtraHosts} == REQUIRED_KEYS {
      forall k | k in FIXED_KEYS
        ensures FixedField(p, k, runner[k]) <==> SameReading(KindOf(k), runner[k], printed[k])
      {
        FixedFieldExactly(p, spec, labels, environment, k, runner[k]);
      }
    }
  }

  lemma PrintedMaps(p: Platform, spec: AppSpec, labels: map<Key, string>, environment: map<Key, string>)
    ensures PrintedService(p, spec, labels, environment).Keys - {ExtraHosts} == REQUIRED_KEYS
    ensures PrintedField(p, spec, labels, environment, LabelsKey) == Texts(labels)
    ensures PrintedField(p, spec, labels, environment, EnvironmentKey) == Texts(environment)
    ensures KindOf(LabelsKey) == Labelled && KindOf(EnvironmentKey) == Mapped
  {
    PrintedKeys(p, spec, labels, environment);
    hide ComposeSafe;
    hide PrintedService;
    hide REQUIRED_KEYS;
  }

  lemma PrintedKeys(p: Platform, spec: AppSpec, labels: map<Key, string>, environment: map<Key, string>)
    ensures PrintedService(p, spec, labels, environment).Keys - {ExtraHosts} == REQUIRED_KEYS
  {
    hide PrintedField;
    assert ExtraHosts !in REQUIRED_KEYS;
    hide REQUIRED_KEYS;
  }

  function FiveLabels(managed: string, schema: string, controller: string, pool: string, profile: string)
    : map<Key, string>
  {
    map[Managed := managed, Schema := schema, Controller := controller, Pool := pool, Profile := profile]
  }

  /** Labels normalise to five given ones exactly when they hold those five, up to the gateway and outer space. */
  lemma NormalLabelsExactly(labels: map<Key, string>, managed: string, schema: string, controller: string,
                            pool: string, profile: string)
    requires managed != "" && schema != "" && controller != "" && pool != "" && profile != ""
    ensures NormalLabels(labels) == FiveLabels(managed, schema, controller, pool, profile)
       <==> && labels.Keys <= ALLOWED_LABELS
            && LabelOf(labels, Managed) == managed && LabelOf(labels, Schema) == schema
            && TrimSpace(LabelOf(labels, Controller)) == controller && TrimSpace(LabelOf(labels, Pool)) == pool
            && TrimSpace(LabelOf(labels, Profile)) == profile
  {
    hide TrimSpace;
    hide NormalLabels;
    hide LabelOf;
    NormalLabelParts(labels);
    FiveLabelsExactly(NormalLabels(labels), managed, schema, controller, pool, profile);
  }

  lemma NormalLabelKeys(labels: map<Key, string>)
    ensures NormalLabels(labels).Keys == labels.Keys - {HostGateway}
    ensures labels.Keys <= ALLOWED_LABELS <==> NormalLabels(labels).Keys <= {Managed, Schema, Controller, Pool, Profile}
  {
    hide TrimSpace;
    assert NormalLabels(labels).Keys == labels.Keys - {HostGateway};
  }

  lemma NormalLabelParts(labels: map<Key, string>)
    ensures labels.Keys <= ALLOWED_LABELS <==> NormalLabels(labels).Keys <= {Managed, Schema, Controller, Pool, Profile}
    ensures var a := NormalLabels(labels);
            && LabelOf(a, Managed) == LabelOf(labels, Managed) && LabelOf(a, Schema) == LabelOf(labels, Schema)
            && LabelOf(a, Controller) == TrimSpace(LabelOf(labels, Controller))
            && LabelOf(a, Pool) == TrimSpace(LabelOf(labels, Pool))
            && LabelOf(a, Profile) == TrimSpace(LabelOf(labels, Profile))
  {
    assert TrimSpace("") == "";
    hide TrimSpace;
    NormalLabelKeys(labels);
  }

  lemma FiveLabelsExactly(a: map<Key, string>, managed: string, schema: string, controller: string, pool: string,
                          profile: string)
    requires managed != "" && schema != "" && controller != "" && pool != "" && profile != ""
    ensures a == FiveLabels(managed, schema, controller, pool, profile)
       <==> && a.Keys <= {Managed, Schema, Controller, Pool, Profile}
            && LabelOf(a, Managed) == managed && LabelOf(a, Schema) == schema && LabelOf(a, Controller) == controller
            && LabelOf(a, Pool) == pool && LabelOf(a, Profile) == profile
  {
    var own := {Managed, Schema, Controller, Pool, Profile};
    var b := FiveLabels(managed, schema, controller, pool, profile);
    assert b.Keys == own;
    if a.Keys == own {
      assert a == b <==> forall k | k in own :: a[k] == b[k];
    }
  }

  lemma OwnerLabelsNormal(spec: AppSpec)
    requires Trimmed(spec.controllerID) && Trimmed(spec.poolID) && Trimmed(spec.executionProfile)
    ensures NormalLabels(OwnerLabels(spec))
         == FiveLabels("true", "1", spec.controllerID, spec.poolID, spec.executionProfile)
  {
    hide TrimSpace;
  }

  /** Labels carry an owner exactly when the decoder reads that owner from them. */
  lemma LabelsExactly(c: Pinned, labels: map<Key, string>, spec: AppSpec)
    requires Lawful(c) && Allowlisted(c, spec) && Trimmed(spec.controllerID) && Trimmed(spec.poolID)
    requires spec.controllerID != "" && spec.poolID != ""
    ensures NormalLabels(labels) == NormalLabels(OwnerLabels(spec))
       <==> && labels.Keys <= ALLOWED_LABELS && LabelOf(labels, Managed) == "true"
            && OwnedBy(c, labels, spec.controllerID, spec.poolID)
  {
    hide TrimSpace;
    hide NormalLabels;
    hide FiveLabels;
    OwnerLabelsNormal(spec);
    NormalLabelsExactly(labels, "true", "1", spec.controllerID, spec.poolID, spec.executionProfile);
  }

  lemma OwnerTrimmed(c: Pinned, labels: map<Key, string>, spec: AppSpec)
    requires OwnedBy(c, labels, spec.controllerID, spec.poolID)
    ensures Trimmed(spec.controllerID) && Trimmed(spec.poolID) && spec.controllerID != "" && spec.poolID != ""
  {
    TrimIdempotent(LabelOf(labels, Controller));
    TrimIdempotent(LabelOf(labels, Pool));
  }

  lemma EnvironmentExactly(environment: map<Key, string>, c: Pinned, spec: AppSpec)
    requires Allowlisted(c, spec)
    ensures environment == BootstrapEnvironment(spec)
            && !Blank(spec.callbackURL) && !Blank(spec.metadataURL) && !Blank(spec.bootstrapToken)
       <==> && FixedEnvironment(c.tool, environment)
            && environment[CallbackURL] == spec.callbackURL && environment[MetadataURL] == spec.metadataURL
            && environment[InstanceToken] == spec.bootstrapToken
  {
    hide Blank;
  }

  /** The maps of a service, when both can be read. */
  ghost predicate Maps(runner: map<Key, Value>, labels: map<Key, string>, environment: map<Key, string>) {
    && StringMap(FieldOf(Object(runner), LabelsKey)) == Some(labels)
    && StringMap(FieldOf(Object(runner), EnvironmentKey)) == Some(environment)
  }

  /** When the decoder accepts a service that stands alone. */
  lemma DecodeRunnerSucceeds(p: Platform, name: string, runner: map<Key, Value>, labels: map<Key, string>,
                             environment: map<Key, string>, spec: AppSpec)
    requires Maps(runner, labels, environment)
    ensures DecodeRunner(p, name, true, runner) == Ok(spec)
       <==> && LabelOf(labels, Managed) == "true"
            && OwnedBy(p.contract, labels, spec.controllerID, spec.poolID)
            && runner.Keys - {ExtraHosts} == REQUIRED_KEYS
            && FixedFields(p, runner) && FixedLabels(runner, labels) && FixedEnvironment(p.contract.tool, environment)
            && spec == FixedSpec(p.contract, name, spec.controllerID, spec.poolID, environment[CallbackURL],
                                 environment[MetadataURL], "")
  {
    hide StringMap;
    hide TrimSpace;
    hide FixedFields;
    hide FixedLabels;
    hide Blank;
    assert runner.Keys - {ExtraHosts} == REQUIRED_KEYS
      <==> runner.Keys <= REQUIRED_KEYS + {ExtraHosts} && REQUIRED_KEYS <= runner.Keys by
    {
      assert ExtraHosts !in REQUIRED_KEYS;
    }
  }

  lemma FixedSpecExactly(c: Pinned, spec: AppSpec, name: string, environment: map<Key, string>)
    requires Allowlisted(c, spec) && {CallbackURL, MetadataURL} <= environment.Keys
    ensures spec.(bootstrapToken := "") == FixedSpec(c, name, spec.controllerID, spec.poolID, environment[CallbackURL],
                                                     environment[MetadataURL], "")
       <==> && spec.name == name
            && environment[CallbackURL] == spec.callbackURL && environment[MetadataURL] == spec.metadataURL
  {
  }

  /** What it takes for the decoder to return `spec` and for the service to hold its token. */
  ghost predicate DecodesTo(p: Platform, name: string, runner: map<Key, Value>, labels: map<Key, string>,
                            environment: map<Key, string>, spec: AppSpec)
  {
    && spec.name == name && Allowlisted(p.contract, spec)
    && LabelOf(labels, Managed) == "true" && OwnedBy(p.contract, labels, spec.controllerID, spec.poolID)
    && runner.Keys - {ExtraHosts} == REQUIRED_KEYS && FixedFields(p, runner)
    && FixedLabels(runner, labels)
    && FixedEnvironment(p.contract.tool, environment)
    && environment[CallbackURL] == spec.callbackURL && environment[MetadataURL] == spec.metadataURL
    && environment[InstanceToken] == spec.bootstrapToken
  }

  lemma DecodesToExactly(p: Platform, name: string, runner: map<Key, Value>, labels: map<Key, string>,
                         environment: map<Key, string>, spec: AppSpec)
    requires Maps(runner, labels, environment)
    ensures DecodeRunner(p, name, true, runner) == Ok(spec.(bootstrapToken := "")) && Allowlisted(p.contract, spec)
            && LabelOf(environment, InstanceToken) == spec.bootstrapToken
       <==> DecodesTo(p, name, runner, labels, environment, spec)
  {
    hide StringMap;
    hide FixedFields;
    hide FixedLabels;
    hide OwnedBy;
    hide Blank;
    hide DecodeRunner;
    DecodeRunnerSucceeds(p, name, runner, labels, environment, spec.(bootstrapToken := ""));
    if Allowlisted(p.contract, spec) && {CallbackURL, MetadataURL} <= environment.Keys {
      FixedSpecExactly(p.contract, spec, name, environment);
    }
    hide FixedSpec;
    hide Allowlisted;
  }

  lemma DecodesToMeansRealised(p: Platform, name: string, runner: map<Key, Value>, labels: map<Key, string>,
                               environment: map<Key, string>, spec: AppSpec)
    requires Lawful(p.contract) && Maps(runner, labels, environment)
    requires DecodesTo(p, name, runner, labels, environment, spec)
    ensures Realises(p, runner, spec)
  {
    hide StringMap;
    hide SameService;
    hide OwnedBy;
    hide FixedEnvironment;
    hide LabelOf;
    hide TrimSpace;
    hide FixedFields;
    hide NormalLabels;
    hide PrintedService;
    hide OwnerLabels;
    hide BootstrapEnvironment;
    hide Allowlisted;
    OwnerTrimmed(p.contract, labels, spec);
    LabelsExactly(p.contract, labels, spec);
    EnvironmentExactly(environment, p.contract, spec);
    SameServiceExactly(p, spec, OwnerLabels(spec), BootstrapEnvironment(spec), runner);
    TypedReads([], 0, OwnerLabels(spec));
    TypedReads([], 0, BootstrapEnvironment(spec));
  }

  lemma RealisedDecodesTo(p: Platform, runner: map<Key, Value>, labels: map<Key, string>,
                          environment: map<Key, string>, spec: AppSpec)
    requires Lawful(p.contract) && Maps(runner, labels, environment)
    requires Realises(p, runner, spec)
    ensures DecodesTo(p, spec.name, runner, labels, environment, spec)
  {
    hide StringMap;
    hide SameService;
    hide OwnedBy;
    hide FixedEnvironment;
    hide LabelOf;
    hide TrimSpace;
    hide FixedFields;
    hide NormalLabels;
    hide PrintedService;
    hide OwnerLabels;
    hide BootstrapEnvironment;
    hide Allowlisted;
    LabelsExactly(p.contract, labels, spec);
    EnvironmentExactly(environment, p.contract, spec);
    SameServiceExactly(p, spec, OwnerLabels(spec), BootstrapEnvironment(spec), runner);
    TypedReads([], 0, OwnerLabels(spec));
    TypedReads([], 0, BootstrapEnvironment(spec));
  }

  /** For a service that stands alone: it decodes to a spec, and holds that spec's token, exactly when it is the
      printed service of the spec up to form. */
  lemma DecodeRunnerExactly(p: Platform, name: string, runner: map<Key, Value>, labels: map<Key, string>,
                            environment: map<Key, string>, spec: AppSpec)
    requires Lawful(p.contract) && Maps(runner, labels, environment)
    ensures DecodeRunner(p, name, true, runner) == Ok(spec.(bootstrapToken := "")) && Allowlisted(p.contract, spec)
            && LabelOf(environment, InstanceToken) == spec.bootstrapToken
       <==> spec.name == name && Realises(p, runner, spec)
  {
    DecodesToExactly(p, name, runner, labels, environment, spec);
    hide Maps;
    hide Realises;
    hide DecodeRunner;
    hide Allowlisted;
    if DecodesTo(p, name, runner, labels, environment, spec) {
      DecodesToMeansRealised(p, name, runner, labels, environment, spec);
    }
    if Realises(p, runner, spec) {
      RealisedDecodesTo(p, runner, labels, environment, spec);
    }
  }

  /** For any reported App and any spec: the App decodes to the spec, and holds its token, exactly when its only
      service is, up to form, the one printed for the spec. */
  lemma DecodeAppExactly(p: Platform, app: RawApp, spec: AppSpec)
    requires Lawful(p.contract)
    ensures && DecodeApp(p, app) == Ok(App(spec.(bootstrapToken := ""), MapState(p.casing, app.state)))
            && Allowlisted(p.contract, spec)
            && StoredToken(app.config) == spec.bootstrapToken
       <==> && spec.name == app.name
            && OnlyRunner(app.config).Some?
            && Realises(p, OnlyRunner(app.config).value, spec)
  {
    hide StringMap;
    hide DecodeRunner;
    hide Realises;
    match OnlyRunner(app.config)
    case None => AloneOrRejected(p, app);
    case Some(runner) =>
      var labels := StringMap(FieldOf(Object(runner), LabelsKey));
      var environment := StringMap(FieldOf(Object(runner), EnvironmentKey));
      if labels.Some? && environment.Some? {
        DecodeRunnerExactly(p, app.name, runner, labels.value, environment.value, spec);
      } else {
        UnreadableMaps(p, app.name, runner, spec);
      }
  }

  lemma AloneOrRejected(p: Platform, app: RawApp)
    requires OnlyRunner(app.config) == None
    ensures DecodeApp(p, app).Err?
  {
    hide StringMap;
    hide ValidatedEnvironment;
    hide TrimSpace;
  }

  lemma UnreadableMaps(p: Platform, name: string, runner: map<Key, Value>, spec: AppSpec)
    requires StringMap(FieldOf(Object(runner), LabelsKey)).None?
          || StringMap(FieldOf(Object(runner), EnvironmentKey)).None?
    ensures DecodeRunner(p, name, true, runner).Err? && !Realises(p, runner, spec)
  {
    hide TrimSpace;
    hide FixedFields;
    hide StringMap;
    hide Realises;
    RealisedMapsRead(p, runner, spec);
  }

  lemma RealisedMapsRead(p: Platform, runner: map<Key, Value>, spec: AppSpec)
    ensures Realises(p, runner, spec)
        ==> && StringMap(FieldOf(Object(runner), LabelsKey)).Some?
            && StringMap(FieldOf(Object(runner), EnvironmentKey)).Some?
  {
    hide Printable;
    hide GatewayPaired;
    hide StringMap;
    hide PrintedService;
    hide NormalLabels;
    assert LabelsKey in REQUIRED_KEYS && EnvironmentKey in REQUIRED_KEYS;
    assert KindOf(LabelsKey) == Labelled && KindOf(EnvironmentKey) == Mapped;
  }

  /** Whatever decodes is allowlisted, so nothing the decoder returns was shaped by the appliance alone. */
  lemma AcceptedIsRealised(p: Platform, app: RawApp)
    requires Lawful(p.contract) && DecodeApp(p, app).Ok?
    ensures var spec := DecodeApp(p, app).value.spec.(bootstrapToken := StoredToken(app.config));
            OnlyRunner(app.config).Some? && Realises(p, OnlyRunner(app.config).value, spec)
  {
    var spec := DecodeApp(p, app).value.spec.(bootstrapToken := StoredToken(app.config));
    DecodedShape(p, app);
    hide DecodeApp;
    hide Realises;
    DecodeAppExactly(p, app, spec);
  }

  lemma DecodedShape(p: Platform, app: RawApp)
    requires DecodeApp(p, app).Ok?
    ensures var decoded := DecodeApp(p, app).value;
            && decoded.state == MapState(p.casing, app.state) && decoded.spec.bootstrapToken == ""
            && decoded.spec.name == app.name && Allowlisted(p.contract, decoded.spec)
  {
    hide StringMap;
    hide ValidatedEnvironment;
    hide TrimSpace;
  }

  // ----- printing, then reading back -----

  lemma RereadReads(strs: seq<string>, n: int, texts: map<Key, string>)
    ensures StringList(Reread(Strs(strs))) == Some(strs)
    ensures Int64(n) ==> IntegerValue(Reread(Int(n))) == Some(n)
    ensures StringMap(Reread(Texts(texts))) == Some(texts)
  {
    RereadStrings(strs);
    RereadTexts(texts);
    assert (n as real).Floor == n;
  }

  /** Each printed field reads the same after a trip through JSON. */
  lemma PrintedFieldRereads(p: Platform, spec: AppSpec, labels: map<Key, string>, environment: map<Key, string>, key: Key)
    requires Int64(spec.cpu) && Int64(spec.memoryBytes) && key in REQUIRED_KEYS
    ensures var v := PrintedField(p, spec, labels, environment, key);
            SameReading(KindOf(key), Reread(v), v)
  {
    hide StringList;
    hide IntegerValue;
    hide StringMap;
    hide NormalLabels;
    hide ComposeSafe;
    match PrintedField(p, spec, labels, environment, key)
    case Strs(strs) => RereadReads(strs, 0, map[]); TypedReads(strs, 0, map[]);
    case Int(n) => RereadReads([], n, map[]); TypedReads([], n, map[]);
    case Texts(texts) => RereadReads([], 0, texts); TypedReads([], 0, texts);
    case _ =>
  }

  /** The runner service inside the document `CreateApp` sends. */
  function PlainRunner(p: Platform, spec: AppSpec): map<Key, Value> {
    map k | k in REQUIRED_KEYS :: Reread(PrintedField(p, spec, OwnerLabels(spec), BootstrapEnvironment(spec), k))
  }

  function GatewayRunner(p: Platform, spec: AppSpec, entry: string): map<Key, Value> {
    WithGateway(PlainRunner(p, spec), Reread(Texts(OwnerLabels(spec)[HostGateway := "true"])), Reread(Strs([entry])))
  }

  function WithGateway(runner: map<Key, Value>, labels: Value, hosts: Value): map<Key, Value> {
    runner[LabelsKey := labels][ExtraHosts := hosts]
  }

  lemma PlainDocument(p: Platform, spec: AppSpec)
    ensures Reread(Document(RunnerService(p, spec))) == Document(PlainRunner(p, spec))
  {
    hide PrintedField;
    var service := RunnerService(p, spec);
    assert (map k | k in service :: Reread(service[k])) == PlainRunner(p, spec);
    assert Reread(Object(service)) == Object(PlainRunner(p, spec));
    RereadOne(RunnerKey, Object(service));
    RereadOne(ServicesKey, Object(map[RunnerKey := Object(service)]));
  }

  lemma PlainRunnerLabels(p: Platform, spec: AppSpec)
    ensures LabelsKey in PlainRunner(p, spec) && ExtraHosts !in PlainRunner(p, spec)
    ensures PlainRunner(p, spec)[LabelsKey] == Reread(Texts(OwnerLabels(spec)))
  {
    PrintedMaps(p, spec, OwnerLabels(spec), BootstrapEnvironment(spec));
    hide PrintedField;
  }

  lemma GatewayDocument(p: Platform, spec: AppSpec, entry: string)
    requires GatewayEntry(p, spec.callbackURL, spec.metadataURL) == Some(entry)
    ensures ApplyGateway(p, Document(PlainRunner(p, spec)), spec, true) == Ok(Document(GatewayRunner(p, spec, entry)))
  {
    var plain := PlainRunner(p, spec);
    var labels := Reread(Texts(OwnerLabels(spec))).fields[HostGateway := Str("true")];
    PlainRunnerLabels(p, spec);
    PlainRunnerRereads(p, spec);
    GatewayLabelsReread(spec, labels);
    hide PlainRunner;
    hide GatewayEntry;
    hide Reread;
    ApplyGatewayToDocument(p, spec, entry, plain, labels);
    WithGatewayRereads(plain, Object(labels), Strs([entry]));
  }

  lemma PlainRunnerRereads(p: Platform, spec: AppSpec)
    ensures forall k | k in PlainRunner(p, spec) :: Reread(PlainRunner(p, spec)[k]) == PlainRunner(p, spec)[k]
  {
    hide PrintedField;
    forall k | k in PlainRunner(p, spec)
      ensures Reread(PlainRunner(p, spec)[k]) == PlainRunner(p, spec)[k]
    {
      RereadTwice(PrintedField(p, spec, OwnerLabels(spec), BootstrapEnvironment(spec), k));
    }
  }

  lemma GatewayLabelsReread(spec: AppSpec, labels: map<Key, Value>)
    requires labels == Reread(Texts(OwnerLabels(spec))).fields[HostGateway := Str("true")]
    ensures Reread(Object(labels)) == Object(labels) == Reread(Texts(OwnerLabels(spec)[HostGateway := "true"]))
  {
    hide OwnerLabels;
    var added := OwnerLabels(spec)[HostGateway := "true"];
    assert Object(labels) == Reread(Texts(added));
    RereadTwice(Texts(added));
  }

  lemma WithGatewayRereads(runner: map<Key, Value>, labels: Value, hosts: Value)
    requires Reread(labels) == labels && forall k | k in runner :: Reread(runner[k]) == runner[k]
    ensures Reread(Object(WithGateway(runner, labels, hosts))) == Object(WithGateway(runner, labels, Reread(hosts)))
  {
    var all := WithGateway(runner, labels, hosts);
    assert (map k | k in all :: Reread(all[k])) == WithGateway(runner, labels, Reread(hosts));
  }

  lemma ApplyGatewayToDocument(p: Platform, spec: AppSpec, entry: string, plain: map<Key, Value>,
                               labels: map<Key, Value>)
    requires GatewayEntry(p, spec.callbackURL, spec.metadataURL) == Some(entry)
    requires LabelsKey in plain && plain[LabelsKey].Object? && ExtraHosts !in plain
    requires labels == plain[LabelsKey].fields[HostGateway := Str("true")]
    ensures ApplyGateway(p, Document(plain), spec, true)
         == Ok(Object(map[ServicesKey := Object(map[RunnerKey :=
               Reread(Object(WithGateway(plain, Object(labels), Strs([entry]))))])]))
  {
    hide GatewayEntry;
    var runner := Object(WithGateway(plain, Object(labels), Strs([entry])));
    var services := map[RunnerKey := runner];
    assert map[RunnerKey := Object(plain)][RunnerKey := runner] == services;
    var top := map[ServicesKey := Object(services)];
    assert map[ServicesKey := Object(map[RunnerKey := Object(plain)])][ServicesKey := Object(services)] == top;
    RereadOne(RunnerKey, runner);
    RereadOne(ServicesKey, Object(services));
    hide Reread;
  }

  lemma RereadOne(key: Key, v: Value)
    ensures Reread(Object(map[key := v])) == Object(map[key := Reread(v)])
  {
    var m := map[key := v];
    assert (map k | k in m :: Reread(m[k])) == map[key := Reread(v)];
  }

  /** What `CreateApp` sends, in full. */
  lemma CreatedDocumentIs(p: Platform, spec: AppSpec, gateway: bool)
    requires Allowlisted(p.contract, spec)
    ensures CreatedDocument(p, spec, gateway)
         == if !gateway then Ok(Document(PlainRunner(p, spec)))
            else match GatewayEntry(p, spec.callbackURL, spec.metadataURL)
              case None => Err(Unsupported)
              case Some(entry) => Ok(Document(GatewayRunner(p, spec, entry)))
  {
    PlainDocument(p, spec);
    hide PlainRunner;
    hide RunnerService;
    hide GatewayEntry;
    match GatewayEntry(p, spec.callbackURL, spec.metadataURL)
    case None =>
    case Some(entry) => if gateway { GatewayDocument(p, spec, entry); }
  }

  lemma CarriedRunner(runner: map<Key, Value>, form: Form)
    ensures OnlyRunner(Carried(Document(runner), form)) == Some(runner)
    ensures Services(Carried(Document(runner), form)) == Ok(Object(map[RunnerKey := Object(runner)]))
  {
    assert |map[RunnerKey := Object(runner)]| == 1;
  }

  /** What a created service reads as, whichever policy created it. */
  ghost predicate ReadsAsCreated(runner: map<Key, Value>, spec: AppSpec, entry: Option<string>) {
    && Maps(runner, if entry.Some? then OwnerLabels(spec)[HostGateway := "true"] else OwnerLabels(spec),
            BootstrapEnvironment(spec))
    && (ExtraHosts in runner <==> entry.Some?)
    && (entry.Some? ==> StringList(runner[ExtraHosts]) == Some([entry.value]))
  }

  lemma PlainReads(p: Platform, spec: AppSpec)
    ensures ReadsAsCreated(PlainRunner(p, spec), spec, None)
  {
    hide OwnerLabels;
    hide BootstrapEnvironment;
    hide ComposeSafe;
    hide StringMap;
    hide StringList;
    hide Reread;
    RereadReads([], 0, OwnerLabels(spec));
    RereadReads([], 0, BootstrapEnvironment(spec));
    PrintedMaps(p, spec, OwnerLabels(spec), BootstrapEnvironment(spec));
    hide PrintedField;
    assert ExtraHosts !in REQUIRED_KEYS;
  }

  lemma GatewayReads(p: Platform, spec: AppSpec, entry: string)
    ensures ReadsAsCreated(GatewayRunner(p, spec, entry), spec, Some(entry))
  {
    PlainReads(p, spec);
    hide OwnerLabels;
    hide BootstrapEnvironment;
    hide PlainRunner;
    hide StringMap;
    hide StringList;
    hide Reread;
    RereadReads([entry], 0, OwnerLabels(spec)[HostGateway := "true"]);
  }

  lemma PlainSame(p: Platform, spec: AppSpec)
    requires Lawful(p.contract) && Allowlisted(p.contract, spec)
    ensures SameService(PlainRunner(p, spec), RunnerService(p, spec))
  {
    hide SameReading;
    hide PrintedField;
    hide Reread;
    var (labels, environment) := (OwnerLabels(spec), BootstrapEnvironment(spec));
    hide OwnerLabels;
    hide BootstrapEnvironment;
    assert ExtraHosts !in REQUIRED_KEYS;
    forall k | k in REQUIRED_KEYS
      ensures SameReading(KindOf(k), PlainRunner(p, spec)[k], RunnerService(p, spec)[k])
    {
      PrintedFieldRereads(p, spec, labels, environment, k);
    }
  }

  lemma GatewaySame(p: Platform, spec: AppSpec, entry: string)
    requires Lawful(p.contract) && Allowlisted(p.contract, spec)
    ensures SameService(GatewayRunner(p, spec, entry), RunnerService(p, spec))
  {
    PlainSame(p, spec);
    GatewayLabelsSame(p, spec);
    hide PlainRunner;
    hide RunnerService;
    hide OwnerLabels;
    hide Reread;
    WithGatewaySame(PlainRunner(p, spec), RunnerService(p, spec),
                    Reread(Texts(OwnerLabels(spec)[HostGateway := "true"])), Reread(Strs([entry])));
  }

  lemma WithGatewaySame(plain: map<Key, Value>, printed: map<Key, Value>, labels: Value, hosts: Value)
    requires SameService(plain, printed) && SameReading(Labelled, labels, printed[LabelsKey])
    ensures SameService(WithGateway(plain, labels, hosts), printed)
  {
    hide SameReading;
    assert KindOf(LabelsKey) == Labelled && LabelsKey in REQUIRED_KEYS && ExtraHosts !in REQUIRED_KEYS;
    hide KindOf;
    assert WithGateway(plain, labels, hosts).Keys - {ExtraHosts} == plain.Keys - {ExtraHosts};
  }

  lemma GatewayLabelsSame(p: Platform, spec: AppSpec)
    ensures LabelsKey in RunnerService(p, spec)
    ensures SameReading(Labelled, Reread(Texts(OwnerLabels(spec)[HostGateway := "true"])), RunnerService(p, spec)[LabelsKey])
  {
    PrintedMaps(p, spec, OwnerLabels(spec), BootstrapEnvironment(spec));
    TypedReads([], 0, OwnerLabels(spec));
    RereadReads([], 0, OwnerLabels(spec)[HostGateway := "true"]);
    SameLabelsButGateway(spec);
    hide PrintedField;
    hide StringMap;
    hide Reread;
    hide NormalLabels;
    hide OwnerLabels;
    hide BootstrapEnvironment;
  }

  lemma SameLabelsButGateway(spec: AppSpec)
    ensures NormalLabels(OwnerLabels(spec)[HostGateway := "true"]) == NormalLabels(OwnerLabels(spec))
  {
    hide TrimSpace;
  }

  /** A spec with the outer space of its IDs removed. */
  function TrimmedOwner(spec: AppSpec): AppSpec {
    spec.(controllerID := TrimSpace(spec.controllerID), poolID := TrimSpace(spec.poolID))
  }

  /** Nothing the decoder insists on is blank. */
  predicate Complete(spec: AppSpec) {
    && !Blank(spec.controllerID) && !Blank(spec.poolID)
    && !Blank(spec.callbackURL) && !Blank(spec.metadataURL) && !Blank(spec.bootstrapToken)
  }

  lemma TrimmedOwnerPrintable(c: Pinned, spec: AppSpec)
    requires Allowlisted(c, spec)
    ensures Complete(spec) <==> Printable(c, TrimmedOwner(spec))
  {
    TrimIdempotent(spec.controllerID);
    TrimIdempotent(spec.poolID);
    TrimmedKeeps(c, spec);
    hide TrimSpace;
    hide Allowlisted;
  }

  lemma TrimmedOwnerLabels(spec: AppSpec)
    ensures NormalLabels(OwnerLabels(spec)) == NormalLabels(OwnerLabels(TrimmedOwner(spec)))
  {
    TrimIdempotent(spec.controllerID);
    TrimIdempotent(spec.poolID);
    hide TrimSpace;
    NormalOwnerLabels(spec);
    NormalOwnerLabels(TrimmedOwner(spec));
    hide NormalLabels;
  }

  lemma NormalOwnerLabels(spec: AppSpec)
    ensures NormalLabels(OwnerLabels(spec))
         == map[Managed := "true", Schema := "1", Controller := TrimSpace(spec.controllerID),
                Pool := TrimSpace(spec.poolID), Profile := TrimSpace(spec.executionProfile)]
  {
    hide TrimSpace;
  }

  lemma TrimmedOwnerEnvironment(spec: AppSpec)
    ensures BootstrapEnvironment(spec) == BootstrapEnvironment(TrimmedOwner(spec))
  {
    hide TrimSpace;
  }

  /** Outer space in the IDs does not show in a normalised service. */
  lemma TrimmedOwnerSame(p: Platform, spec: AppSpec, runner: map<Key, Value>)
    requires Lawful(p.contract) && Allowlisted(p.contract, spec) && SameService(runner, RunnerService(p, spec))
    ensures SameService(runner, RunnerService(p, TrimmedOwner(spec)))
  {
    hide SameService;
    hide PrintedService;
    hide FixedFields;
    hide StringMap;
    hide NormalLabels;
    hide OwnerLabels;
    hide BootstrapEnvironment;
    var trimmed := TrimmedOwner(spec);
    assert Allowlisted(p.contract, trimmed) by { hide TrimSpace; }
    TrimmedOwnerLabels(spec);
    TrimmedOwnerEnvironment(spec);
    SameServiceExactly(p, spec, OwnerLabels(spec), BootstrapEnvironment(spec), runner);
    SameServiceExactly(p, trimmed, OwnerLabels(trimmed), BootstrapEnvironment(trimmed), runner);
    TypedReads([], 0, OwnerLabels(spec));
    TypedReads([], 0, OwnerLabels(trimmed));
    hide TrimmedOwner;
  }

  /** A managed service that lacks an ID, a URL or a token is drift. */
  lemma IncompleteRejected(p: Platform, spec: AppSpec, runner: map<Key, Value>, entry: Option<string>)
    requires Lawful(p.contract) && Allowlisted(p.contract, spec) && ReadsAsCreated(runner, spec, entry)
    requires !Complete(spec)
    ensures DecodeRunner(p, spec.name, true, runner) == Err(ManagedDrift)
  {
    var labels := if entry.Some? then OwnerLabels(spec)[HostGateway := "true"] else OwnerLabels(spec);
    assert LabelOf(labels, Managed) == "true" && LabelOf(labels, Controller) == spec.controllerID
        && LabelOf(labels, Pool) == spec.poolID;
    hide StringMap;
    hide TrimSpace;
    hide OwnerLabels;
    hide LabelOf;
    if !Blank(spec.controllerID) && !Blank(spec.poolID) {
      IncompleteEnvironment(p, spec, runner, labels);
    }
    hide BootstrapEnvironment;
    hide Allowlisted;
    hide ValidatedEnvironment;
  }

  lemma IncompleteEnvironment(p: Platform, spec: AppSpec, runner: map<Key, Value>, labels: map<Key, string>)
    requires StringMap(FieldOf(Object(runner), EnvironmentKey)) == Some(BootstrapEnvironment(spec))
    requires Blank(spec.callbackURL) || Blank(spec.metadataURL) || Blank(spec.bootstrapToken)
    ensures ValidatedEnvironment(p, runner, labels) == Err(ManagedDrift)
  {
    hide StringMap;
    hide FixedFields;
    hide FixedLabels;
    hide Blank;
  }

  /** Decoding the document created for an allowlisted spec, wherever TrueNAS reports it: a complete spec comes back
      without its token and without outer space in its IDs, an incomplete one is drift; and validation passes under
      exactly the policy the document was created under. */
  lemma CreatedDocumentDecodes(p: Platform, spec: AppSpec, state: string, form: Form, created: bool, expected: bool)
    requires Lawful(p.contract) && Allowlisted(p.contract, spec)
    requires CreatedDocument(p, spec, created).Ok?
    ensures var document := CreatedDocument(p, spec, created).value;
            && var app := RawApp(spec.name, state, Carried(document, form));
               && DecodeApp(p, app) == (if Complete(spec)
                    then Ok(App(TrimmedOwner(spec).(bootstrapToken := ""), MapState(p.casing, state)))
                    else Err(ManagedDrift))
               && (ValidateGateway(p, app, expected).Ok? <==> created == expected)
  {
    CreatedDocumentIs(p, spec, created);
    var entry := if created then GatewayEntry(p, spec.callbackURL, spec.metadataURL) else None;
    var runner := if created then GatewayRunner(p, spec, entry.value) else PlainRunner(p, spec);
    var app := RawApp(spec.name, state, Carried(Document(runner), form));
    if created {
      GatewayReads(p, spec, entry.value);
      GatewaySame(p, spec, entry.value);
    } else {
      PlainReads(p, spec);
      PlainSame(p, spec);
    }
    hide GatewayRunner;
    hide PlainRunner;
    hide RunnerService;
    hide Allowlisted;
    hide CreatedDocument;
    hide SameService;
    hide ReadsAsCreated;
    hide GatewayEntry;
    CarriedRunner(runner, form);
    CreatedValidates(p, spec, app, runner, entry, expected);
    CreatedDecodes(p, spec, app, runner, entry);
  }

  lemma CreatedDecodes(p: Platform, spec: AppSpec, app: RawApp, runner: map<Key, Value>, entry: Option<string>)
    requires Lawful(p.contract) && Allowlisted(p.contract, spec) && app.name == spec.name
    requires OnlyRunner(app.config) == Some(runner)
    requires Services(app.config) == Ok(Object(map[RunnerKey := Object(runner)]))
    requires ReadsAsCreated(runner, spec, entry) && SameService(runner, RunnerService(p, spec))
    ensures DecodeApp(p, app) == if Complete(spec)
              then Ok(App(TrimmedOwner(spec).(bootstrapToken := ""), MapState(p.casing, app.state)))
              else Err(ManagedDrift)
  {
    hide Services;
    hide SameService;
    hide RunnerService;
    hide ReadsAsCreated;
    hide MapState;
    hide Lawful;
    TrimmedOwnerPrintable(p.contract, spec);
    hide Complete;
    hide Printable;
    hide TrimmedOwner;
    if Complete(spec) {
      TrimmedOwnerSame(p, spec, runner);
      TrimmedKeeps(p.contract, spec);
      hide Allowlisted;
      CreatedRealises(p, spec, runner, entry);
      hide Realises;
      hide DecodeApp;
      hide OnlyRunner;
      DecodeAppExactly(p, app, TrimmedOwner(spec));
    } else {
      assert |map[RunnerKey := Object(runner)]| == 1;
      IncompleteRejected(p, spec, runner, entry);
      hide DecodeRunner;
    }
  }

  lemma TrimmedKeeps(c: Pinned, spec: AppSpec)
    requires Allowlisted(c, spec)
    ensures Allowlisted(c, TrimmedOwner(spec)) && TrimmedOwner(spec).name == spec.name
  {
    hide TrimSpace;
  }

  lemma CreatedRealises(p: Platform, spec: AppSpec, runner: map<Key, Value>, entry: Option<string>)
    requires Printable(p.contract, TrimmedOwner(spec)) && ReadsAsCreated(runner, spec, entry)
    requires SameService(runner, RunnerService(p, TrimmedOwner(spec)))
    ensures Realises(p, runner, TrimmedOwner(spec))
  {
    hide StringMap;
    hide SameService;
    hide Printable;
    hide TrimmedOwner;
    hide BootstrapEnvironment;
  }

  lemma CreatedValidates(p: Platform, spec: AppSpec, app: RawApp, runner: map<Key, Value>, entry: Option<string>,
                         expected: bool)
    requires Services(app.config) == Ok(Object(map[RunnerKey := Object(runner)]))
    requires ReadsAsCreated(runner, spec, entry)
    requires entry.Some? ==> entry == GatewayEntry(p, spec.callbackURL, spec.metadataURL)
    ensures ValidateGateway(p, app, expected).Ok? <==> entry.Some? == expected
  {
    hide StringMap;
    hide StringList;
    hide GatewayEntry;
    hide Services;
  }
}

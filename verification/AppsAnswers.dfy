/** What the answers of the Apps manager mean, in the terms of the request and of the App: what a created App calls back to
    and holds, and what `Get`, `Stop` and `Delete` say about an App, field by field. */
module AppsAnswers {
  import opened Text
  import opened Names
  import opened Provider
  import opened Documents
  import opened Compose
  import opened ComposeProofs
  import opened ComposeContents
  import opened Apps
  import opened AppsRefinement
  import opened AppsTrimming

  // ----- `Create` -----

  /** What the backend holds under a name, as it was sent: what it reads as, and the token. */
  ghost predicate Holds(p: Platform, b: Backend, name: string, app: App) {
    match b
    case Mock(apps) => name in apps && apps[name] == app
    case TrueNAS(held, _, _, _, _) =>
      && name in held && StoredToken(held[name].config) == app.spec.bootstrapToken
      && ReadApp(p, b, name) == Ok(app.(spec := app.spec.(bootstrapToken := "")))
  }

  /** The other Apps are as they were. */
  predicate OnlyAdds(b: Backend, b': Backend, name: string) {
    match (b, b')
    case (Mock(apps), Mock(apps')) => apps' - {name} == apps - {name} && name in apps'
    case (TrueNAS(held, gateway, form, newState, _), TrueNAS(held', gateway', form', newState', _)) =>
      && held' - {name} == held - {name} && name in held'
      && gateway' == gateway && form' == form && newState' == newState
    case _ => false
  }

  /** The state TrueNAS reports a new App in; the mock always says running. */
  function NewState(p: Platform, b: Backend): State {
    if b.Mock? then Running else MapState(p.casing, b.newState)
  }

  lemma StoredAsSent(p: Platform, spec: AppSpec, gateway: bool, form: Form)
    requires Allowlisted(p.contract, spec) && CreatedDocument(p, spec, gateway).Ok?
    ensures StoredToken(Carried(CreatedDocument(p, spec, gateway).value, form)) == spec.bootstrapToken
  {
    DocumentSaysTheSpec(p, spec, gateway, form);
    hide SaysProfile;
    hide SaysOwner;
    hide Spelling;
    hide StringMap;
    hide HostEntry;
    hide Reread;
    hide Allowlisted;
    hide CreatedDocument;
    hide OnlyRunner;
    hide Carried;
  }

  lemma MadeOverStore(p: Platform, b: Backend, controllerID: string, request: Bootstrap)
    requires p.Valid() && b.TrueNAS? && b.luck == [] && Accepts(p, request) && !Blank(controllerID)
    requires Trimmed(controllerID) && Trimmed(request.poolID)
    requires var spec := RequestedSpec(p, controllerID, request);
             spec.name !in b.held && CreatedDocument(p, spec, b.gateway).Ok?
    ensures var spec := RequestedSpec(p, controllerID, request);
            var (b', r) := CreateInstance(p, b, controllerID, request);
            && OnlyAdds(b, b', spec.name) && Holds(p, b', spec.name, App(spec, NewState(p, b)))
            && r == Ok(ToInstance(p, App(spec, NewState(p, b))))
  {
    FreshCreateExactly(p, b, controllerID, request);
    var spec := RequestedSpec(p, controllerID, request);
    var held := FreshRead(p, b, spec);
    RequestedComplete(p, controllerID, request);
    StoredAsSent(p, spec, b.gateway, b.form);
    hide Allowlisted;
    hide CreatedDocument;
    hide Carried;
    hide StoredToken;
    hide Complete;
    hide ReadApp;
    CreatesByAdding(p, b, controllerID, request, held);
    hide RequestedSpec;
    hide Accepts;
    hide Blank;
    hide MapState;
    hide CreateInstance;
    hide CreateApp;
    hide GetApp;
    hide ToInstance;
    AddingOnlyAdds(b, spec.name, held);
    hide Adding;
    hide OnlyAdds;
  }

  lemma RequestedComplete(p: Platform, controllerID: string, request: Bootstrap)
    requires Accepts(p, request) && !Blank(controllerID) && Trimmed(controllerID) && Trimmed(request.poolID)
    ensures var spec := RequestedSpec(p, controllerID, request); Complete(spec) && TrimmedOwner(spec) == spec
  {
    hide AppName;
    hide TrimSpace;
    hide Nameable;
  }

  lemma AddingOnlyAdds(b: Backend, name: string, held: Held)
    requires b.TrueNAS? && name !in b.held
    ensures OnlyAdds(b, Adding(b, name, held), name) && name in Adding(b, name, held).held
    ensures Adding(b, name, held).held[name] == held && Adding(b, name, held).TrueNAS?
  {
    assert b.held[name := held] - {name} == b.held - {name};
  }

  lemma CreatesByAdding(p: Platform, b: Backend, controllerID: string, request: Bootstrap, held: Held)
    requires b.TrueNAS? && b.luck == [] && Accepts(p, request)
    requires var spec := RequestedSpec(p, controllerID, request);
             && spec.name !in b.held && CreateApp(p, b, spec) == GetApp(p, Adding(b, spec.name, held), spec.name)
             && ReadApp(p, Adding(b, spec.name, held), spec.name).Ok?
    ensures CreateInstance(p, b, controllerID, request).0
         == Adding(b, RequestedSpec(p, controllerID, request).name, held)
  {
    var spec := RequestedSpec(p, controllerID, request);
    hide RequestedSpec;
    hide Accepts;
    hide CreateApp;
    hide ReadApp;
    hide ToInstance;
    hide Owns;
    assert GetApp(p, b, spec.name) == (b, Err(NotFound));
    var made := Adding(b, spec.name, held);
    assert GetApp(p, made, spec.name).0 == made && GetApp(p, made, spec.name).1.Ok?;
  }

  lemma MadeOverMock(p: Platform, b: Backend, controllerID: string, request: Bootstrap)
    requires b.Mock? && Accepts(p, request) && RequestedSpec(p, controllerID, request).name !in b.apps
    ensures var spec := RequestedSpec(p, controllerID, request);
            var (b', r) := CreateInstance(p, b, controllerID, request);
            && OnlyAdds(b, b', spec.name) && Holds(p, b', spec.name, App(spec, NewState(p, b)))
            && r == Ok(ToInstance(p, App(spec, NewState(p, b))))
  {
    FreshMock(p, b, controllerID, request);
    var spec := RequestedSpec(p, controllerID, request);
    hide Accepts;
    hide ToInstance;
    hide AppName;
    assert b.apps[spec.name := App(spec, Running)] - {spec.name} == b.apps - {spec.name};
  }

  /** What a `Create` of a name that is not held comes to, over a client that serves its calls: under a gateway policy that
      the URLs do not meet the request is refused and nothing is made; otherwise exactly the App asked for is added, with
      the request's token in it, and the instance returned names it, with its state in words. */
  lemma CreateMakesTheRequest(p: Platform, b: Backend, controllerID: string, request: Bootstrap)
    requires p.Valid() && Calm(b) && !Blank(controllerID) && Trimmed(controllerID) && Trimmed(request.poolID)
    requires Takes(p, request) && AppName(p.casing, p.digest, controllerID, request.name) !in Known(b)
    ensures var name := AppName(p.casing, p.digest, controllerID, request.name);
            var (b', r) := CreateInstance(p, b, controllerID, request);
            if b.TrueNAS? && b.gateway && !OneHost(p, request.callbackURL, request.metadataURL)
            then b' == b && r == Err(Unsupported)
            else && OnlyAdds(b, b', name) && Holds(p, b', name, App(Asked(p, controllerID, request), NewState(p, b)))
                 && r == Ok(Shows(p, name, NewState(p, b), request.poolID))
  {
    AcceptsTakes(p, request);
    RequestedIsAsked(p, controllerID, request);
    var spec := RequestedSpec(p, controllerID, request);
    InstanceShows(p, App(spec, NewState(p, b)));
    if b.Mock? {
      MadeOverMock(p, b, controllerID, request);
    } else {
      PolicySendsExactly(p, spec);
      if CreatedDocument(p, spec, b.gateway).Ok? {
        MadeOverStore(p, b, controllerID, request);
      } else {
        RefusedUnsent(p, b, controllerID, request);
      }
    }
    hide CreateInstance;
    hide CreatedDocument;
    hide OneHost;
    hide Holds;
    hide OnlyAdds;
    hide Takes;
    hide Accepts;
    hide AppName;
    hide ToInstance;
    hide Shows;
    hide NewState;
    hide RequestedSpec;
  }

  lemma RefusedUnsent(p: Platform, b: Backend, controllerID: string, request: Bootstrap)
    requires b.TrueNAS? && b.luck == [] && Accepts(p, request)
    requires var spec := RequestedSpec(p, controllerID, request);
             spec.name !in b.held && CreatedDocument(p, spec, b.gateway) == Err(Unsupported)
    ensures CreateInstance(p, b, controllerID, request) == (b, Err(Unsupported))
  {
    hide RequestedSpec;
    hide Accepts;
    hide CreatedDocument;
  }

  // ----- names that are taken or missing -----

  /** Asked to make an App under a name that is held, the mock hands out the App it has and the store refuses; asked to delete
      one that is not held, the mock is content and the store refuses. Nothing changes. */
  lemma TakenAndMissing(p: Platform, b: Backend, spec: AppSpec, name: string)
    requires b.TrueNAS? ==> b.luck == []
    ensures spec.name in Known(b) && (b.TrueNAS? ==> CreatedDocument(p, spec, b.gateway).Ok?) ==>
              CreateApp(p, b, spec) == (b, if b.Mock? then Ok(b.apps[spec.name]) else Err(Other))
    ensures name !in Known(b) && b.Mock? ==> Apps.DeleteApp(b, name) == (b, Ok(Unit.Unit))
    ensures name !in Known(b) && b.TrueNAS? ==> Apps.DeleteApp(b, name) == (b, Err(Other))
  {
    hide CreatedDocument;
    if b.Mock? && name !in b.apps { assert b.apps - {name} == b.apps; }
  }

  // ----- states -----

  /** TrueNAS's word for a state, in any case and with space around it; every unknown word is taken for deploying. */
  function Heard(p: Platform, raw: string): string {
    var word := p.casing.upper(TrimSpace(raw));
    if word == "RUNNING" || word == "STOPPED" || word == "CRASHED" || word == "STOPPING" then word else "DEPLOYING"
  }

  lemma HeardIsWord(p: Platform, raw: string)
    ensures Word(MapState(p.casing, raw)) == Heard(p, raw)
  {
    hide TrimSpace;
  }

  /** The status of an instance handed out over the store is TrueNAS's word for the state of its App, in lower case. */
  lemma WordsOfStates(p: Platform, b: Backend, controllerID: string, id: string)
    requires b.TrueNAS? && b.luck == [] && id in b.held && GetInstance(p, b, controllerID, id).1.Ok?
    ensures GetInstance(p, b, controllerID, id).1.value.status == p.casing.lower(Heard(p, b.held[id].state))
  {
    var app := RawApp(id, b.held[id].state, b.held[id].config);
    HeardIsWord(p, b.held[id].state);
    hide Heard;
    hide Word;
    if DecodeApp(p, app).Ok? {
      DecodedShape(p, app);
      InstanceShows(p, DecodeApp(p, app).value);
    }
    hide DecodeApp;
    hide ValidateGateway;
    hide MapState;
    hide ToInstance;
  }
}

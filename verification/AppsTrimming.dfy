/** Where the store and the mock part: a new App whose owner's IDs carry outer space. */
module AppsTrimming {
  import opened Text
  import opened Names
  import opened Provider
  import opened Documents
  import opened Compose
  import opened ComposeProofs
  import opened Apps
  import opened AppsRefinement

  /** The App the store reads back right after it was made for `spec`. */
  lemma FreshRead(p: Platform, b: Backend, spec: AppSpec) returns (held: Held)
    requires p.Valid() && b.TrueNAS? && b.luck == [] && spec.name !in b.held
    requires Allowlisted(p.contract, spec) && CreatedDocument(p, spec, b.gateway).Ok?
    ensures held == Held(b.newState, Carried(CreatedDocument(p, spec, b.gateway).value, b.form))
    ensures CreateApp(p, b, spec) == GetApp(p, Adding(b, spec.name, held), spec.name)
    ensures ReadApp(p, Adding(b, spec.name, held), spec.name)
         == if Complete(spec)
            then Ok(App(TrimmedOwner(spec).(bootstrapToken := ""), MapState(p.casing, b.newState)))
            else Err(ManagedDrift)
  {
    hide Carried;
    hide DecodeApp;
    hide ValidateGateway;
    hide CreatedDocument;
    hide GetApp;
    hide MapState;
    hide Complete;
    hide TrimmedOwner;
    hide Allowlisted;
    CreatedDocumentDecodes(p, spec, b.newState, b.form, b.gateway, b.gateway);
    held := Held(b.newState, Carried(CreatedDocument(p, spec, b.gateway).value, b.form));
  }

  lemma NotBlank(s: string)
    requires !Blank(s)
    ensures s != ""
  {
  }

  /** Creating a new App over the store succeeds if and only if neither ID has outer space; when it does not, the
      caller is told the App is someone else's, and the App is there all the same. */
  lemma FreshCreateExactly(p: Platform, b: Backend, controllerID: string, request: Bootstrap)
    requires p.Valid() && b.TrueNAS? && b.luck == [] && Accepts(p, request) && !Blank(controllerID)
    requires var spec := RequestedSpec(p, controllerID, request);
             spec.name !in b.held && CreatedDocument(p, spec, b.gateway).Ok?
    ensures var spec := RequestedSpec(p, controllerID, request);
            var (b', r) := CreateInstance(p, b, controllerID, request);
            && Known(b') == Known(b) + {spec.name}
            && r == if Trimmed(controllerID) && Trimmed(request.poolID)
                    then Ok(ToInstance(p, App(spec, MapState(p.casing, b.newState))))
                    else Err(Foreign)
  {
    hide CreatedDocument;
    hide Allowlisted;
    hide Blank;
    hide AppName;
    hide MapState;
    hide CreateApp;
    hide ReadApp;
    hide Nameable;
    hide TrimSpace;
    hide Status;
    var spec := RequestedSpec(p, controllerID, request);
    var held := FreshRead(p, b, spec);
    assert Complete(spec);
    assert GetApp(p, b, spec.name) == (b, Err(NotFound));
    var made := Adding(b, spec.name, held);
    var app := App(TrimmedOwner(spec).(bootstrapToken := ""), MapState(p.casing, b.newState));
    assert GetApp(p, made, spec.name) == (made, Ok(app));
    assert CreateInstance(p, b, controllerID, request)
        == (made, if Owns(controllerID, app, request.poolID) then Ok(ToInstance(p, app)) else Err(Foreign));
    assert Known(made) == Known(b) + {spec.name};
    assert Owns(controllerID, app, request.poolID) <==> Trimmed(controllerID) && Trimmed(request.poolID) by {
      NotBlank(request.poolID);
    }
  }

  lemma FreshMock(p: Platform, b: Backend, controllerID: string, request: Bootstrap)
    requires b.Mock? && Accepts(p, request) && RequestedSpec(p, controllerID, request).name !in b.apps
    ensures CreateInstance(p, b, controllerID, request).1
         == Ok(ToInstance(p, App(RequestedSpec(p, controllerID, request), Running)))
  {
    hide Accepts;
    hide ToInstance;
    hide AppName;
  }

  /** Asked for a new App, the mock and the store agree exactly when both IDs are free of outer space. */
  lemma FreshCreatesAgreeExactly(p: Platform, mock: Backend, store: Backend, controllerID: string, request: Bootstrap)
    requires p.Valid() && mock.Mock? && store.TrueNAS? && store.luck == [] && !store.gateway
    requires MapState(p.casing, store.newState) == Running
    requires Accepts(p, request) && !Blank(controllerID)
    requires RequestedSpec(p, controllerID, request).name !in Known(mock) + Known(store)
    ensures CreateInstance(p, mock, controllerID, request).1 == CreateInstance(p, store, controllerID, request).1
       <==> Trimmed(controllerID) && Trimmed(request.poolID)
  {
    var spec := RequestedSpec(p, controllerID, request);
    assert CreatedDocument(p, spec, false).Ok? by { hide Document; hide Reread; hide RunnerService; }
    hide CreatedDocument;
    hide CreateInstance;
    hide Accepts;
    hide Blank;
    hide AppName;
    hide MapState;
    hide ToInstance;
    FreshMock(p, mock, controllerID, request);
    FreshCreateExactly(p, store, controllerID, request);
  }
}

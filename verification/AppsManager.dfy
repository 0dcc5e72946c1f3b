/** The Apps manager and its two clients as they run: methods that change what the client keeps, each proved to do
    what its function says. */
module AppsManager {
  import opened Names
  import opened Provider
  import opened Compose
  import opened Apps

  /** The names a client goes through when it lists, in whatever order they come. */
  method Enumerate(s: set<string>) returns (names: seq<string>)
    ensures Enumerates(names, s)
  {
    names := [];
    var todo := s;
    while todo != {}
      invariant todo <= s && Enumerates(names, s - todo)
    {
      var n :| n in todo;
      todo := todo - {n};
      names := names + [n];
    }
    assert s - todo == s;
  }

  /** Go's order of strings: byte by byte in UTF-8, which is code point by code point. */
  predicate Precedes(a: string, b: string) {
    a == "" || (b != "" && (a[0] < b[0] || (a[0] == b[0] && Precedes(a[1..], b[1..]))))
  }

  lemma {:induction false} PrecedesTotal(a: string, b: string)
    ensures Precedes(a, b) || Precedes(b, a)
  {
    if a != "" && b != "" && a[0] == b[0] { PrecedesTotal(a[1..], b[1..]); }
  }

  lemma {:induction false} PrecedesTransitive(a: string, b: string, c: string)
    requires Precedes(a, b) && Precedes(b, c)
    ensures Precedes(a, c)
  {
    if a != "" && a[0] == b[0] && b[0] == c[0] { PrecedesTransitive(a[1..], b[1..], c[1..]); }
  }

  ghost predicate Ascending(names: seq<string>) {
    forall i, j | 0 <= i < j < |names| :: Precedes(names[i], names[j])
  }

  /** A name put where it belongs: behind those that precede it. */
  method Place(names: seq<string>, n: string) returns (out: seq<string>, k: nat)
    requires Ascending(names)
    ensures Ascending(out) && k <= |names| && out == names[..k] + [n] + names[k..]
  {
    hide Precedes;
    k := 0;
    while k < |names| && Precedes(names[k], n)
      invariant 0 <= k <= |names|
      invariant forall i | 0 <= i < k :: Precedes(names[i], n)
    {
      k := k + 1;
    }
    forall j | k <= j < |names| ensures Precedes(n, names[j]) {
      PrecedesTotal(names[k], n);
      if k < j { PrecedesTransitive(n, names[k], names[j]); }
    }
    out := names[..k] + [n] + names[k..];
  }

  method SortNames(names: seq<string>, ghost s: set<string>) returns (out: seq<string>)
    requires Enumerates(names, s)
    ensures Enumerates(out, s) && Ascending(out)
  {
    hide Ascending;
    out := [];
    assert Ascending([]) by { EmptyAscends(); }
    for i := 0 to |names|
      invariant Enumerates(out, Members(names[..i])) && Ascending(out)
    {
      var more, k := Place(out, names[i]);
      assert names[i] !in names[..i];
      Placed(out, k, names[i], Members(names[..i]));
      assert names[..i + 1] == names[..i] + [names[i]];
      assert Members(names[..i] + [names[i]]) == Members(names[..i]) + {names[i]};
      out := more;
    }
    assert names[..|names|] == names && Members(names) == s;
  }

  ghost function Members(names: seq<string>): set<string> {
    set n | n in names
  }

  lemma EmptyAscends()
    ensures Ascending([])
  {
  }

  lemma Placed(names: seq<string>, k: nat, n: string, s: set<string>)
    requires Enumerates(names, s) && n !in s && k <= |names|
    ensures Enumerates(names[..k] + [n] + names[k..], s + {n})
  {
    var out := names[..k] + [n] + names[k..];
    assert forall i | 0 <= i < |out| :: out[i] == if i < k then names[i] else if i == k then n else names[i - 1];
    forall m ensures m in out <==> m in s + {n} {
      if m in names {
        var i :| 0 <= i < |names| && names[i] == m;
        assert out[if i < k then i else i + 1] == m;
      }
      if m == n { assert out[k] == n; }
    }
    forall i, j | 0 <= i < j < |out| ensures out[i] != out[j] {
      assert i != k ==> out[i] in names;
      assert j != k ==> out[j] in names;
    }
  }

  /** What the listing loop ends with that has kept some Apps so far and goes on to `rest`. */
  ghost function Joined(apps: seq<App>, rest: (Backend, Result<seq<App>>)): (Backend, Result<seq<App>>) {
    (rest.0, Prefixed(apps, rest.1))
  }

  /** The client: the mock's file, or what TrueNAS holds and what it will do with the coming calls. */
  class Client {
    const p: Platform
    var kept: Backend

    constructor (p: Platform, kept: Backend)
      ensures this.p == p && this.kept == kept
    {
      this.p, this.kept := p, kept;
    }

    /** What TrueNAS does with the call that is made now. */
    method Call() returns (fate: Fate)
      requires kept.TrueNAS?
      modifies this
      ensures fate == NextFate(old(kept)) && kept == Spend(old(kept))
    {
      fate := NextFate(kept);
      kept := Spend(kept);
    }

    method GetApp(name: string) returns (r: Result<App>)
      modifies this
      ensures (kept, r) == Apps.GetApp(p, old(kept), name)
    {
      hide ReadApp;
      if kept.Mock? {
        var apps := kept.apps;
        return if name in apps then Ok(apps[name]) else Err(NotFound);
      }
      assert SpentReads(p, kept, name) by { SpendReads(p, kept, name); }
      var fate := Call();
      if fate != Serve { return Err(Other); }
      if name !in kept.held { return Err(NotFound); }
      var decoded := ReadApp(p, kept, name);
      if decoded == Err(Unmanaged) { return Err(Foreign); }
      return decoded;
    }

    method CreateApp(spec: AppSpec) returns (r: Result<App>)
      modifies this
      ensures (kept, r) == Apps.CreateApp(p, old(kept), spec)
    {
      hide CreatedDocument;
      hide Apps.GetApp;
      hide Carried;
      if kept.Mock? {
        var apps := kept.apps;
        if spec.name in apps { return Ok(apps[spec.name]); }
        var app := App(spec, Running);
        apps := apps[spec.name := app];
        kept := Mock(apps);
        return Ok(app);
      }
      var document := CreatedDocument(p, spec, kept.gateway);
      if document.Err? { return Err(document.error); }
      var fate := Call();
      if fate == Refuse || spec.name in kept.held { return Err(Other); }
      kept := kept.(held := kept.held[spec.name := Held(kept.newState, Carried(document.value, kept.form))]);
      if fate == Lose { return Err(Other); }
      r := GetApp(spec.name);
    }

    method ListApps() returns (r: Result<seq<App>>, ghost names: seq<string>)
      modifies this
      ensures Enumerates(names, Known(old(kept)))
      ensures (kept, r) == Apps.ListApps(p, old(kept), names)
      ensures kept.TrueNAS? ==> Ascending(names)
    {
      hide Ascending;
      var order := Enumerate(Known(kept));
      if kept.TrueNAS? { order := SortNames(order, Known(kept)); }
      names := order;
      if kept.Mock? {
        var out := [];
        for i := 0 to |order|
          invariant out == Lookup(kept.apps, order[..i])
        {
          assert order[i] in order && order[..i + 1] == order[..i] + [order[i]];
          out := out + [kept.apps[order[i]]];
        }
        assert order[..|order|] == order;
        return Ok(out), names;
      }
      var fate := Call();
      if fate != Serve { return Err(Other), names; }
      r := ReadAll(order);
    }

    /** The loop of the store's listing. */
    method ReadAll(order: seq<string>) returns (r: Result<seq<App>>)
      requires kept.TrueNAS? && forall n | n in order :: n in kept.held
      modifies this
      ensures (kept, r) == ReadListed(p, old(kept), order)
    {
      hide PlausibleManagedAppName;
      hide ReadApp;
      var out: seq<App> := [];
      PrefixedNone(ReadListed(p, kept, order).1);
      for i := 0 to |order|
        invariant kept.TrueNAS? && kept.held == old(kept.held)
        invariant forall n | n in order :: n in kept.held
        invariant Joined(out, ReadListed(p, kept, order[i..])) == ReadListed(p, old(kept), order)
      {
        assert order[i..][0] == order[i] && order[i..][1..] == order[i + 1..] && order[i] in order;
        if PlausibleManagedAppName(order[i]) {
          assert SpentReads(p, kept, order[i]) by { SpendReads(p, kept, order[i]); }
          var fate := Call();
          if fate != Serve { return Err(Other); }
          var decoded := ReadApp(p, kept, order[i]);
          if decoded.Ok? {
            PrefixedOnce(out, decoded.value, ReadListed(p, kept, order[i + 1..]).1);
            out := out + [decoded.value];
          } else if decoded.error != Unmanaged {
            return Err(decoded.error);
          }
        }
      }
      assert out + [] == out;
      r := Ok(out);
    }

    method DeleteApp(name: string) returns (r: Result<Unit>)
      modifies this
      ensures (kept, r) == Apps.DeleteApp(old(kept), name)
    {
      if kept.Mock? {
        var apps := kept.apps;
        if name !in apps {
          assert apps - {name} == apps;
          return Ok(Unit.Unit);
        }
        apps := apps - {name};
        kept := Mock(apps);
        return Ok(Unit.Unit);
      }
      var fate := Call();
      if fate == Refuse || name !in kept.held { return Err(Other); }
      kept := kept.(held := kept.held - {name});
      return if fate == Serve then Ok(Unit.Unit) else Err(Other);
    }

    /** Only the mock can be told an App's state. */
    method SetState(name: string, state: State) returns (r: Result<Unit>)
      requires kept.Mock?
      modifies this
      ensures r == if name in old(kept.apps) then Ok(Unit.Unit) else Err(NotFound)
      ensures kept == if r.Ok? then Mock(old(kept.apps)[name := old(kept.apps)[name].(state := state)]) else old(kept)
    {
      var apps := kept.apps;
      if name !in apps { return Err(NotFound); }
      var app := apps[name].(state := state);
      apps := apps[name := app];
      kept := Mock(apps);
      return Ok(Unit.Unit);
    }
  }

  /** Reading one App does not depend on the luck of later calls. */
  ghost predicate SpentReads(p: Platform, b: Backend, name: string)
    requires b.TrueNAS?
  {
    name in b.held ==> ReadApp(p, Spend(b), name) == ReadApp(p, b, name)
  }

  lemma SpendReads(p: Platform, b: Backend, name: string)
    requires b.TrueNAS?
    ensures SpentReads(p, b, name)
  {
    hide DecodeApp;
    hide ValidateGateway;
  }

  class Manager {
    const client: Client
    const controllerID: string

    constructor (client: Client, controllerID: string)
      ensures this.client == client && this.controllerID == controllerID
    {
      this.client, this.controllerID := client, controllerID;
    }

    method Create(request: Bootstrap) returns (r: Result<Instance>)
      modifies client
      ensures (client.kept, r) == CreateInstance(client.p, old(client.kept), controllerID, request)
    {
      hide Apps.GetApp;
      hide Apps.CreateApp;
      hide Accepts;
      hide ToInstance;
      if !Accepts(client.p, request) { return Err(Unsupported); }
      var name := AppName(client.p.casing, client.p.digest, controllerID, request.name);
      hide AppName;
      var existing := client.GetApp(name);
      if existing.Ok? {
        if !Owns(controllerID, existing.value, request.poolID) { return Err(Foreign); }
        return Ok(ToInstance(client.p, existing.value));
      }
      if existing.error != NotFound { return Err(existing.error); }
      var spec := FixedSpec(client.p.contract, name, controllerID, request.poolID, request.callbackURL,
                            request.metadataURL, request.token);
      var created := client.CreateApp(spec);
      if created.Err? { return Err(created.error); }
      if !Owns(controllerID, created.value, request.poolID) { return Err(Foreign); }
      return Ok(ToInstance(client.p, created.value));
    }

    method Get(providerID: string) returns (r: Result<Instance>)
      modifies client
      ensures (client.kept, r) == GetInstance(client.p, old(client.kept), controllerID, providerID)
    {
      hide Apps.GetApp;
      hide ToInstance;
      var app := client.GetApp(providerID);
      if app.Err? { return Err(app.error); }
      if !Owns(controllerID, app.value, "") { return Err(Foreign); }
      return Ok(ToInstance(client.p, app.value));
    }

    method List(poolID: string) returns (r: Result<seq<Instance>>, ghost names: seq<string>)
      modifies client
      ensures Enumerates(names, Known(old(client.kept)))
      ensures (client.kept, r) == ListInstances(client.p, old(client.kept), controllerID, poolID, names)
    {
      hide Apps.ListApps;
      hide ToInstance;
      hide Known;
      var listed, order := client.ListApps();
      names := order;
      if listed.Err? { return Err(listed.error), names; }
      var apps := listed.value;
      var out := [];
      for i := 0 to |apps|
        invariant out == Selected(client.p, apps[..i], controllerID, poolID)
      {
        assert apps[..i + 1][..i] == apps[..i] && apps[..i + 1][i] == apps[i];
        if apps[i].spec.controllerID != controllerID { continue; }
        if poolID != "" && apps[i].spec.poolID != poolID { continue; }
        out := out + [ToInstance(client.p, apps[i])];
      }
      assert apps[..|apps|] == apps;
      r := Ok(out);
    }

    method Delete(providerID: string) returns (r: Result<Unit>)
      modifies client
      ensures (client.kept, r) == DeleteInstance(client.p, old(client.kept), controllerID, providerID)
    {
      hide Apps.GetApp;
      hide Apps.DeleteApp;
      var app := client.GetApp(providerID);
      if app == Err(NotFound) { return Ok(Unit.Unit); }
      if app.Err? { return Err(app.error); }
      if !Owns(controllerID, app.value, "") { return Err(Foreign); }
      if app.value.state.Busy() { return Err(Active); }
      r := client.DeleteApp(providerID);
    }

    method Stop(providerID: string) returns (r: Result<Unit>)
      modifies client
      ensures (client.kept, r) == StopInstance(client.p, old(client.kept), controllerID, providerID)
    {
      hide Apps.GetApp;
      var app := client.GetApp(providerID);
      if app.Err? { return Err(app.error); }
      if !Owns(controllerID, app.value, "") { return Err(Foreign); }
      if app.value.state == Stopped { return Ok(Unit.Unit); }
      return Err(UnsafeOperation);
    }

    method RemoveAll() returns (r: Result<Unit>, ghost names: seq<string>)
      modifies client
      ensures Enumerates(names, Known(old(client.kept)))
      ensures (client.kept, r) == RemoveInstances(client.p, old(client.kept), controllerID, names)
    {
      hide Apps.ListApps;
      hide Apps.DeleteApp;
      hide Known;
      var listed, order := client.ListApps();
      names := order;
      if listed.Err? { return Err(listed.error), names; }
      var apps := listed.value;
      ghost var start := client.kept;
      var active := false;
      for i := 0 to |apps|
        invariant RemoveListed(client.kept, controllerID, apps[i..], active)
               == RemoveListed(start, controllerID, apps, false)
      {
        assert apps[i..][0] == apps[i] && apps[i..][1..] == apps[i + 1..];
        if apps[i].spec.controllerID != controllerID { continue; }
        if apps[i].state.Busy() {
          active := true;
          continue;
        }
        var deleted := client.DeleteApp(apps[i].spec.name);
        if deleted.Err? && deleted.error != NotFound { return Err(deleted.error), names; }
      }
      r := if active then Err(Active) else Ok(Unit.Unit);
    }
  }
}

/** Whatever the Apps manager is asked, and whatever TrueNAS answers, it changes no App, adds only what it was asked
    for, and removes only an App it has read as its own and idle. */
module AppsSafety {
  import opened Text
  import opened Names
  import opened Provider
  import opened Compose
  import opened ComposeProofs
  import opened Apps
  import opened AppsRefinement

  /** What a client keeps under a name. */
  datatype Entry = Absent | Plain(app: App) | Encoded(held: Held)

  function EntryAt(b: Backend, n: string): Entry {
    match b
    case Mock(apps) => if n in apps then Plain(apps[n]) else Absent
    case TrueNAS(held, _, _, _, _) => if n in held then Encoded(held[n]) else Absent
  }

  /** The App a manager reads under a name, if it reads one. */
  function Reading(p: Platform, b: Backend, n: string): Option<App> {
    match b
    case Mock(apps) => if n in apps then Some(apps[n]) else None
    case TrueNAS(held, _, _, _, _) =>
      if n !in held then None
      else match ReadApp(p, b, n)
        case Ok(app) => Some(app)
        case Err(_) => None
  }

  /** The mock's file keeps every App under its own name. */
  ghost predicate Keyed(b: Backend) {
    b.Mock? ==> forall n | n in b.apps :: b.apps[n].spec.name == n
  }

  /** The App under `n` is one this controller may remove: it reads as owned, and its raw state maps to an idle one. */
  predicate Idle(p: Platform, b: Backend, controllerID: string, n: string) {
    && Reading(p, b, n).Some? && Reading(p, b, n).value.spec.controllerID == controllerID
    && match EntryAt(b, n)
       case Absent => false
       case Plain(app) => app.state == Stopped || app.state == Crashed
       case Encoded(held) =>
         p.casing.upper(TrimSpace(held.state)) == "STOPPED" || p.casing.upper(TrimSpace(held.state)) == "CRASHED"
  }

  predicate MayRemove(p: Platform, b: Backend, e: Event, n: string) {
    ((e.Delete? && e.id == n) || e.RemoveAll?) && Idle(p, b, e.controllerID, n)
  }

  predicate MayAdd(p: Platform, e: Event, n: string) {
    e.Create? && Accepts(p, e.request) && n == RequestedSpec(p, e.controllerID, e.request).name
  }

  predicate MayRestate(e: Event, n: string) {
    e.SetState? && e.name == n
  }

  predicate Alike(b: Backend, b': Backend) {
    match (b, b')
    case (Mock(_), Mock(_)) => true
    case (TrueNAS(_, gateway, _, _, _), TrueNAS(_, gateway', _, _, _)) => gateway == gateway'
    case _ => false
  }

  /** The two clients hold the same under every name. */
  ghost predicate Unchanged(b: Backend, b': Backend) {
    Alike(b, b') && forall n :: EntryAt(b', n) == EntryAt(b, n)
  }

  /** Nothing is new or different; what is gone was idle and owned. */
  ghost predicate Thinned(p: Platform, b: Backend, b': Backend, controllerID: string) {
    && Alike(b, b')
    && forall n :: EntryAt(b', n) == EntryAt(b, n) || (EntryAt(b', n) == Absent && Idle(p, b, controllerID, n))
  }

  /** What one event may do to what a client holds. */
  ghost predicate Respects(p: Platform, b: Backend, b': Backend, e: Event) {
    && Alike(b, b') && Keyed(b')
    && forall n :: EntryAt(b', n) == EntryAt(b, n) || Excused(p, b, b', e, n)
  }

  predicate Excused(p: Platform, b: Backend, b': Backend, e: Event, n: string) {
    || (EntryAt(b', n) == Absent && MayRemove(p, b, e, n))
    || (EntryAt(b, n) == Absent && MayAdd(p, e, n))
    || (EntryAt(b, n) != Absent && EntryAt(b', n) != Absent && MayRestate(e, n))
  }

  // ----- what the client calls do -----

  lemma GetTells(p: Platform, b: Backend, n: string)
    requires Keyed(b)
    ensures Unchanged(b, GetApp(p, b, n).0)
    ensures match GetApp(p, b, n).1
            case Ok(app) => Reading(p, b, n) == Some(app) && app.spec.name == n
            case Err(_) => true
  {
    hide DecodeApp;
    hide ValidateGateway;
    if b.TrueNAS? && n in b.held && ReadApp(p, b, n).Ok? {
      DecodedShape(p, RawApp(n, b.held[n].state, b.held[n].config));
    }
  }

  /** An App read as not busy is idle. */
  lemma ReadIdle(p: Platform, b: Backend, n: string, controllerID: string)
    requires Reading(p, b, n).Some? && !Reading(p, b, n).value.state.Busy()
    requires Reading(p, b, n).value.spec.controllerID == controllerID
    ensures Idle(p, b, controllerID, n)
  {
    if b.TrueNAS? {
      ReadState(p, b, n);
      IdleState(p.casing, b.held[n].state);
    }
    hide ReadApp;
    hide TrimSpace;
    hide MapState;
  }

  lemma ReadState(p: Platform, b: Backend, n: string)
    requires b.TrueNAS? && n in b.held && ReadApp(p, b, n).Ok?
    ensures ReadApp(p, b, n).value.state == MapState(p.casing, b.held[n].state)
  {
    DecodedShape(p, RawApp(n, b.held[n].state, b.held[n].config));
    hide DecodeApp;
    hide ValidateGateway;
    hide MapState;
  }

  lemma IdleState(casing: CaseMaps, raw: string)
    ensures !MapState(casing, raw).Busy() <==>
              casing.upper(TrimSpace(raw)) == "STOPPED" || casing.upper(TrimSpace(raw)) == "CRASHED"
  {
    hide TrimSpace;
  }

  lemma {:induction false} ReadListedTells(p: Platform, b: Backend, names: seq<string>)
    requires b.TrueNAS? && forall n | n in names :: n in b.held
    ensures Unchanged(b, ReadListed(p, b, names).0)
    ensures match ReadListed(p, b, names).1
            case Ok(apps) => forall a | a in apps :: Reading(p, b, a.spec.name) == Some(a)
            case Err(_) => true
    decreases |names|
  {
    hide PlausibleManagedAppName;
    hide ReadApp;
    if names != [] {
      var n := names[0];
      assert n in names;
      if PlausibleManagedAppName(n) {
        var b' := Spend(b);
        ReadListedTells(p, b', names[1..]);
        forall m ensures m in b.held ==> ReadApp(p, b', m) == ReadApp(p, b, m) {
          if m in b.held { SameRead(p, b, b', m); }
        }
        if ReadApp(p, b, n).Ok? { ReadKeepsName(p, b, n); }
      } else {
        ReadListedTells(p, b, names[1..]);
      }
    }
  }

  lemma ReadKeepsName(p: Platform, b: Backend, n: string)
    requires b.TrueNAS? && n in b.held && ReadApp(p, b, n).Ok?
    ensures ReadApp(p, b, n).value.spec.name == n
  {
    DecodedShape(p, RawApp(n, b.held[n].state, b.held[n].config));
    hide DecodeApp;
    hide ValidateGateway;
  }

  lemma ListTells(p: Platform, b: Backend, names: seq<string>)
    requires Keyed(b) && forall n | n in names :: n in Known(b)
    ensures Unchanged(b, ListApps(p, b, names).0)
    ensures match ListApps(p, b, names).1
            case Ok(apps) => forall a | a in apps :: Reading(p, b, a.spec.name) == Some(a)
            case Err(_) => true
  {
    match b {
      case Mock(apps) =>
        assert Known(b) == apps.Keys;
        forall a | a in Lookup(apps, names) ensures Reading(p, b, a.spec.name) == Some(a) {
          var i :| 0 <= i < |names| && Lookup(apps, names)[i] == a;
          assert names[i] in names;
        }
      case TrueNAS(held, _, _, _, _) =>
        var b' := Spend(b);
        ReadListedTells(p, b', names);
        forall m ensures m in held ==> ReadApp(p, b', m) == ReadApp(p, b, m) {
          if m in held { SameRead(p, b, b', m); }
        }
        hide ReadApp;
        hide ReadListed;
    }
  }

  lemma DeleteTells(b: Backend, n: string)
    ensures Alike(b, DeleteApp(b, n).0)
    ensures forall m :: EntryAt(DeleteApp(b, n).0, m) == EntryAt(b, m)
                        || (m == n && EntryAt(DeleteApp(b, n).0, m) == Absent)
  {
  }

  lemma CreateTells(p: Platform, b: Backend, spec: AppSpec)
    requires Keyed(b)
    ensures Alike(b, CreateApp(p, b, spec).0) && Keyed(CreateApp(p, b, spec).0)
    ensures forall m :: EntryAt(CreateApp(p, b, spec).0, m) == EntryAt(b, m)
                        || (m == spec.name && EntryAt(b, m) == Absent)
  {
    hide CreatedDocument;
    hide Carried;
    hide GetApp;
    if b.TrueNAS? && CreatedDocument(p, spec, b.gateway).Ok? {
      var document := CreatedDocument(p, spec, b.gateway).value;
      assert Spend(b).TrueNAS?;
      var b' := Spend(b).(held := b.held[spec.name := Held(b.newState, Carried(document, b.form))]);
      GetTells(p, b', spec.name);
    }
  }

  // ----- the operations -----

  lemma {:induction false} RemoveListedThins(p: Platform, was: Backend, b: Backend, controllerID: string, apps: seq<App>,
                                             active: bool)
    requires Thinned(p, was, b, controllerID)
    requires forall a | a in apps :: Reading(p, was, a.spec.name) == Some(a)
    ensures Thinned(p, was, RemoveListed(b, controllerID, apps, active).0, controllerID)
    decreases |apps|
  {
    hide Idle;
    hide Reading;
    hide EntryAt;
    hide DeleteApp;
    if apps != [] {
      var app := apps[0];
      assert app in apps;
      assert forall a | a in apps[1..] :: a in apps;
      if app.spec.controllerID != controllerID {
        RemoveListedThins(p, was, b, controllerID, apps[1..], active);
      } else if app.state.Busy() {
        RemoveListedThins(p, was, b, controllerID, apps[1..], true);
      } else {
        ReadIdle(p, was, app.spec.name, controllerID);
        DeleteTells(b, app.spec.name);
        RemoveListedThins(p, was, DeleteApp(b, app.spec.name).0, controllerID, apps[1..], active);
      }
    }
  }

  lemma ThinnedKeyed(p: Platform, b: Backend, b': Backend, controllerID: string)
    requires Keyed(b) && Thinned(p, b, b', controllerID)
    ensures Keyed(b')
  {
    hide Idle;
    if b'.Mock? {
      forall n | n in b'.apps ensures b'.apps[n].spec.name == n {
        assert EntryAt(b', n) == EntryAt(b, n);
      }
    }
  }

  lemma UnchangedRespects(p: Platform, b: Backend, b': Backend, e: Event)
    requires Keyed(b) && Unchanged(b, b')
    ensures Respects(p, b, b', e)
  {
    hide Excused;
    if b'.Mock? {
      forall n | n in b'.apps ensures b'.apps[n].spec.name == n {
        assert EntryAt(b', n) == EntryAt(b, n);
      }
    }
  }

  lemma CreateRespects(p: Platform, b: Backend, controllerID: string, request: Bootstrap)
    requires Keyed(b)
    ensures Respects(p, b, CreateInstance(p, b, controllerID, request).0, Event.Create(controllerID, request))
  {
    hide Accepts;
    hide RequestedSpec;
    hide EntryAt;
    hide ToInstance;
    var e := Event.Create(controllerID, request);
    UnchangedRespects(p, b, b, e);
    if Accepts(p, request) {
      var spec := RequestedSpec(p, controllerID, request);
      var b1 := GetApp(p, b, spec.name).0;
      GetTells(p, b, spec.name);
      UnchangedRespects(p, b, b1, e);
      CreateTells(p, b1, spec);
      hide GetApp;
      hide CreateApp;
    }
  }

  lemma LookupRespects(p: Platform, b: Backend, e: Event, controllerID: string, id: string, names: seq<string>)
    requires Keyed(b) && forall n | n in names :: n in Known(b)
    requires e == Get(controllerID, id) || e == Delete(controllerID, id) || e == Stop(controllerID, id)
    ensures Respects(p, b, Step(p, b, e, names).0, e)
  {
    hide ToInstance;
    var (b1, r) := GetApp(p, b, id);
    GetTells(p, b, id);
    UnchangedRespects(p, b, b1, e);
    DeleteTells(b1, id);
    if e.Delete? && r.Ok? && r.value.spec.controllerID == controllerID && !r.value.state.Busy() {
      ReadIdle(p, b, id, controllerID);
      hide GetApp;
      hide DeleteApp;
      hide Idle;
      hide Reading;
      var b2 := DeleteApp(b1, id).0;
      assert Thinned(p, b, b2, controllerID);
      ThinnedKeyed(p, b, b2, controllerID);
      hide Keyed;
      hide EntryAt;
    }
    hide GetApp;
    hide DeleteApp;
    hide EntryAt;
  }

  lemma RemoveRespects(p: Platform, b: Backend, controllerID: string, names: seq<string>)
    requires Keyed(b) && forall n | n in names :: n in Known(b)
    ensures Respects(p, b, RemoveInstances(p, b, controllerID, names).0, RemoveAll(controllerID))
  {
    hide Idle;
    hide EntryAt;
    hide Reading;
    hide Keyed;
    hide RemoveListed;
    ListTells(p, b, names);
    hide ListApps;
    var (b1, r) := ListApps(p, b, names);
    UnchangedRespects(p, b, b1, RemoveAll(controllerID));
    if r.Ok? {
      RemoveListedThins(p, b, b1, controllerID, r.value, false);
      ThinnedKeyed(p, b, RemoveListed(b1, controllerID, r.value, false).0, controllerID);
    }
  }

  lemma SettingRespects(p: Platform, b: Backend, name: string, raw: string)
    requires Keyed(b)
    ensures Respects(p, b, Setting(p, b, name, raw).0, SetState(name, raw))
  {
    hide MapState;
    hide MayRemove;
    hide MayAdd;
  }

  /** One event, over any client and any luck: it adds only the App it was asked to create, removes only an idle App
      of the controller it runs for, and leaves everything else as it was. */
  lemma StepRespects(p: Platform, b: Backend, e: Event, names: seq<string>)
    requires Keyed(b) && forall n | n in names :: n in Known(b)
    ensures Respects(p, b, Step(p, b, e, names).0, e)
  {
    match e {
      case Create(controllerID, request) => CreateRespects(p, b, controllerID, request);
      case Get(controllerID, id) => LookupRespects(p, b, e, controllerID, id, names);
      case List(controllerID, poolID) =>
        ListTells(p, b, names);
        UnchangedRespects(p, b, ListApps(p, b, names).0, e);
      case Delete(controllerID, id) => LookupRespects(p, b, e, controllerID, id, names);
      case Start => UnchangedRespects(p, b, b, e);
      case Stop(controllerID, id) => LookupRespects(p, b, e, controllerID, id, names);
      case RemoveAll(controllerID) => RemoveRespects(p, b, controllerID, names);
      case SetState(name, raw) => SettingRespects(p, b, name, raw);
    }
    hide Respects;
  }

  // ----- whole runs -----

  /** What the client has become after the first `k` events of a run. */
  ghost function After(p: Platform, b: Backend, events: seq<Event>, orders: seq<Order>, k: nat): Backend
    requires k <= |events| == |orders| && forall o | o in orders :: Fair(o)
    decreases k
  {
    if k == 0 then b
    else
      assert Enumerates(orders[0](Known(b)), Known(b)) by { assert Fair(orders[0]); hide Known; }
      After(p, Step(p, b, events[0], orders[0](Known(b))).0, events[1..], orders[1..], k - 1)
  }

  lemma FirstStep(p: Platform, b: Backend, events: seq<Event>, orders: seq<Order>)
    requires 0 < |events| == |orders| && (forall o | o in orders :: Fair(o)) && Keyed(b)
    ensures forall n | n in orders[0](Known(b)) :: n in Known(b)
    ensures Respects(p, b, Step(p, b, events[0], orders[0](Known(b))).0, events[0])
  {
    assert Fair(orders[0]);
    assert Enumerates(orders[0](Known(b)), Known(b)) by { hide Known; }
    StepRespects(p, b, events[0], orders[0](Known(b)));
  }

  /** Event `k` of a run removes the App under `n`, which its own controller's manager read as owned and idle. */
  ghost predicate RemovesAt(p: Platform, b: Backend, events: seq<Event>, orders: seq<Order>, n: string, k: nat)
    requires k < |events| == |orders| && forall o | o in orders :: Fair(o)
  {
    && EntryAt(After(p, b, events, orders, k), n) != Absent
    && EntryAt(After(p, b, events, orders, k + 1), n) == Absent
    && MayRemove(p, After(p, b, events, orders, k), events[k], n)
  }

  /** An App lost over a run was removed by one event: a deletion by its own controller, of an idle App. */
  lemma {:induction false} LostOnlyIdle(p: Platform, b: Backend, events: seq<Event>, orders: seq<Order>, n: string)
    requires |events| == |orders| && (forall o | o in orders :: Fair(o)) && Keyed(b)
    requires EntryAt(b, n) != Absent && EntryAt(After(p, b, events, orders, |events|), n) == Absent
    ensures exists k | 0 <= k < |events| :: RemovesAt(p, b, events, orders, n, k)
    decreases |events|
  {
    hide Step;
    hide MayAdd;
    hide MayRestate;
    hide MayRemove;
    hide EntryAt;
    hide Keyed;
    if events != [] {
      FirstStep(p, b, events, orders);
      var b' := Step(p, b, events[0], orders[0](Known(b))).0;
      if EntryAt(b', n) == Absent {
        assert After(p, b, events, orders, 1) == b';
        assert RemovesAt(p, b, events, orders, n, 0);
      } else {
        LostOnlyIdle(p, b', events[1..], orders[1..], n);
        var k :| 0 <= k < |events| - 1 && RemovesAt(p, b', events[1..], orders[1..], n, k);
        assert RemovesAt(p, b, events, orders, n, k + 1);
      }
    }
  }

  /** The App under `n` is out of reach of the event: another owner's, or unreadable, and not moved by TrueNAS. */
  predicate OutOfReach(p: Platform, b: Backend, e: Event, n: string) {
    && !MayRestate(e, n)
    && ((e.Delete? || e.RemoveAll?) && Reading(p, b, n).Some? ==> Reading(p, b, n).value.spec.controllerID != e.controllerID)
  }

  lemma ReadingFollows(p: Platform, b: Backend, b': Backend, n: string)
    requires Alike(b, b') && EntryAt(b', n) == EntryAt(b, n)
    ensures Reading(p, b', n) == Reading(p, b, n)
  {
    if b.TrueNAS? && n in b.held { SameRead(p, b, b', n); }
    hide ReadApp;
  }

  /** Over a whole run, what another owner has, or what cannot be read at all, stays exactly as it was. */
  lemma {:induction false} ForeignUntouched(p: Platform, b: Backend, events: seq<Event>, orders: seq<Order>, n: string)
    requires |events| == |orders| && (forall o | o in orders :: Fair(o)) && Keyed(b)
    requires EntryAt(b, n) != Absent && forall e | e in events :: OutOfReach(p, b, e, n)
    ensures EntryAt(After(p, b, events, orders, |events|), n) == EntryAt(b, n)
    decreases |events|
  {
    hide Step;
    hide MayAdd;
    hide MayRestate;
    hide EntryAt;
    hide Keyed;
    hide Reading;
    if events != [] {
      FirstStep(p, b, events, orders);
      var b' := Step(p, b, events[0], orders[0](Known(b))).0;
      assert OutOfReach(p, b, events[0], n);
      assert EntryAt(b', n) == EntryAt(b, n);
      ReadingFollows(p, b, b', n);
      forall e | e in events[1..] ensures OutOfReach(p, b', e, n) {
        assert OutOfReach(p, b, e, n);
      }
      ForeignUntouched(p, b', events[1..], orders[1..], n);
    }
  }
}

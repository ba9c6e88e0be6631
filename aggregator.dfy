/**
 * Registration planning for the API aggregator: which APIService records
 * are auto-registered for the paths the delegate API server lists, and the
 * boot-sequence health check that waits until each of them has been seen
 * Available.
 */
module Aggregator {
  import opened Wrappers
  import opened GoStrings

  /** `schema.GroupVersion`; the core (legacy) API has the empty group. */
  datatype GroupVersion = GroupVersion(group: string, version: string)

  /** Discovery priority of a group and of a version inside its group. */
  datatype Priority = Priority(group: int, version: int)

  /** The parts of a `v1.APIService` this code fills in. */
  datatype APIService = APIService(
    name: string,
    group: string,
    version: string,
    groupPriorityMinimum: int,
    versionPriority: int)

  const CoreGroupVersion := GroupVersion("", "v1")

  /** `apiVersionPriorities`: the only group-versions that are auto-registered. */
  function APIVersionPriorities(): (table: map<GroupVersion, Priority>)
    ensures |table| == 4
    ensures CoreGroupVersion in table && table[CoreGroupVersion] == Priority(18000, 1)
    ensures forall gv :: gv in table ==> '.' !in gv.version
  {
    var t := map[
      CoreGroupVersion := Priority(18000, 1),
      GroupVersion("apiextensions.k8s.io", "v1") := Priority(16700, 15),
      GroupVersion("admissionregistration.k8s.io", "v1") := Priority(16700, 15),
      GroupVersion("admissionregistration.k8s.io", "v1alpha1") := Priority(16700, 9)
    ];
    assert t.Keys == {CoreGroupVersion, GroupVersion("apiextensions.k8s.io", "v1"),
                      GroupVersion("admissionregistration.k8s.io", "v1"),
                      GroupVersion("admissionregistration.k8s.io", "v1alpha1")};
    t
  }

  /** The object name of the APIService for `gv`: version, a dot, then group. */
  function ServiceName(gv: GroupVersion): string
  {
    gv.version + "." + gv.group
  }

  /** Recovers the group-version from a service name whose version has no dot. */
  function GroupVersionOfName(name: string): GroupVersion
  {
    var v := TakeUntil(name, '.');
    GroupVersion(if |v| < |name| then name[|v| + 1..] else "", v)
  }

  lemma NameRoundTrip(gv: GroupVersion)
    requires '.' !in gv.version
    ensures GroupVersionOfName(ServiceName(gv)) == gv
  {
    TakeUntilPrefix(gv.version, '.', gv.group);
    assert ServiceName(gv) == gv.version + ['.'] + gv.group;
  }

  /** Distinct registered group-versions give distinct service names. */
  lemma TableNamesDistinct(a: GroupVersion, b: GroupVersion)
    requires a in APIVersionPriorities() && b in APIVersionPriorities() && a != b
    ensures ServiceName(a) != ServiceName(b)
  {
    NameRoundTrip(a);
    NameRoundTrip(b);
  }

  /**
   * `makeAPIService`: None (nil) exactly when `gv` is not in the priority
   * table; otherwise the record named after `gv` with `gv`'s priorities.
   */
  function MakeAPIService(gv: GroupVersion): (r: Option<APIService>)
    ensures r.None? <==> gv !in APIVersionPriorities()
    ensures r.Some? ==>
      && r.value.name == gv.version + "." + gv.group
      && GroupVersion(r.value.group, r.value.version) == gv
      && Priority(r.value.groupPriorityMinimum, r.value.versionPriority) == APIVersionPriorities()[gv]
  {
    var table := APIVersionPriorities();
    if gv !in table then None
    else
      var p := table[gv];
      Some(APIService(ServiceName(gv), gv.group, gv.version, p.group, p.version))
  }

  /**
   * What one listed path contributes to `apiServicesToRegister`: "/api/v1"
   * gives the core record; a path under "/apis/" that splits on '/' into
   * exactly four tokens gives the record for (token 2, token 3), if any;
   * every other path gives nothing.
   */
  function ServiceForPath(path: string): (r: Option<APIService>)
    ensures r.Some? ==> path == "/api/v1" || HasPrefix(path, "/apis/")
  {
    if path == "/api/v1" then MakeAPIService(CoreGroupVersion)
    else if !HasPrefix(path, "/apis/") then None
    else
      var tokens := Split(path, '/');
      if |tokens| != 4 then None
      else MakeAPIService(GroupVersion(tokens[2], tokens[3]))
  }

  /** The records one path adds: its record, or none. */
  function RecordsOfPath(path: string): seq<APIService>
  {
    match ServiceForPath(path)
    case None => []
    case Some(s) => [s]
  }

  /** The records `apiServicesToRegister` returns, path by path in order. */
  function ServicesToRegister(paths: seq<string>): seq<APIService>
  {
    if paths == [] then []
    else ServicesToRegister(paths[..|paths| - 1]) + RecordsOfPath(paths[|paths| - 1])
  }

  /** "/api/v1" always yields the core record, never nothing. */
  lemma CorePathRegistered()
    ensures ServiceForPath("/api/v1") == Some(APIService("v1.", "", "v1", 18000, 1))
  {
    assert ServiceName(CoreGroupVersion) == "v1.";
  }

  /** "/apis/G/V" with slash-free G and V yields exactly what `MakeAPIService` gives for (G, V). */
  lemma {:induction false} GroupPathRegistered(g: string, v: string)
    requires '/' !in g && '/' !in v
    ensures ServiceForPath("/apis/" + g + "/" + v) == MakeAPIService(GroupVersion(g, v))
  {
    var path := "/apis/" + g + "/" + v;
    GroupPathTokens(g, v);
    HasPrefixOfConcat("/apis/", g + "/" + v);
    assert path == "/apis/" + (g + "/" + v);
    assert path != "/api/v1" by { assert path[4] == 's' && "/api/v1"[4] == '/'; }
  }

  /** "/apis/G/V" with slash-free G and V splits into "", "apis", G and V. */
  lemma GroupPathTokens(g: string, v: string)
    requires '/' !in g && '/' !in v
    ensures Split("/apis/" + g + "/" + v, '/') == ["", "apis", g, v]
  {
    var tokens := ["", "apis", g, v];
    assert "/apis/" + g + "/" + v == Join(tokens, '/') by {
      assert Join([v], '/') == v;
      assert Join([g, v], '/') == g + "/" + v;
      assert Join(["apis", g, v], '/') == "apis" + "/" + (g + "/" + v);
    }
    assert forall i :: 0 <= i < |tokens| ==> '/' !in tokens[i];
    SplitJoin(tokens, '/');
  }

  /** The tokens of a path under "/apis/" are "", "apis" and those of the rest. */
  lemma SplitUnderApis(rest: string)
    ensures Split("/apis/" + rest, '/') == ["", "apis"] + Split(rest, '/')
  {
    assert "/apis/" + rest == "" + "/" + ("apis" + "/" + rest);
    SplitCons("", '/', "apis" + "/" + rest);
    SplitCons("apis", '/', rest);
  }

  /**
   * Conversely, every record that a path yields comes either from "/api/v1"
   * or from a path of the exact shape "/apis/G/V" whose (G, V) is in the table.
   */
  lemma PathShapeOfRecord(path: string)
    requires ServiceForPath(path).Some?
    ensures path == "/api/v1" ||
      exists g, v :: '/' !in g && '/' !in v && path == "/apis/" + g + "/" + v &&
        GroupVersion(g, v) in APIVersionPriorities()
  {
    if path != "/api/v1" {
      assert HasPrefix(path, "/apis/");
      var rest := path[6..];
      assert path == "/apis/" + rest;
      var gv := ApisRecord(rest);
      var g, v := gv.group, gv.version;
      assert GroupVersion(g, v) == gv;
      assert path == "/apis/" + g + "/" + v;
    }
  }

  /**
   * A path's record is the one `makeAPIService` builds for the record's own
   * group-version, which the priority table lists.
   */
  lemma PathRecordFromTable(path: string)
    requires ServiceForPath(path).Some?
    ensures var s := ServiceForPath(path).value;
      GroupVersion(s.group, s.version) in APIVersionPriorities() &&
      ServiceForPath(path) == MakeAPIService(GroupVersion(s.group, s.version))
  {
  }

  /** The group-version a path "/apis/" + `rest` yields a record for, and how `rest` spells it. */
  lemma ApisRecord(rest: string) returns (gv: GroupVersion)
    requires ServiceForPath("/apis/" + rest).Some?
    ensures '/' !in gv.group && '/' !in gv.version && rest == gv.group + "/" + gv.version
    ensures gv in APIVersionPriorities()
  {
    var path := "/apis/" + rest;
    assert path != "/api/v1" by { assert path[4] == 's'; }
    HasPrefixOfConcat("/apis/", rest);
    SplitUnderApis(rest);
    var tokens := Split(rest, '/');
    assert |tokens| == 2;
    gv := GroupVersion(tokens[0], tokens[1]);
    assert ServiceForPath("/apis/" + rest) == MakeAPIService(gv);
    TwoTokens(rest);
  }

  /** A string that splits into two tokens is those tokens around one separator. */
  lemma TwoTokens(s: string)
    requires |Split(s, '/')| == 2
    ensures s == Split(s, '/')[0] + "/" + Split(s, '/')[1]
  {
    var tokens := Split(s, '/');
    JoinSplit(s, '/');
    assert Join(tokens[1..], '/') == tokens[1];
  }

  /** The registered records never outnumber the listed paths. */
  lemma {:induction false} ServicesBounded(paths: seq<string>)
    ensures |ServicesToRegister(paths)| <= |paths|
  {
    if paths != [] {
      ServicesBounded(paths[..|paths| - 1]);
    }
  }

  /** Registration preserves the order of the listed paths. */
  lemma {:induction false} ServicesOfConcat(a: seq<string>, b: seq<string>)
    ensures ServicesToRegister(a + b) == ServicesToRegister(a) + ServicesToRegister(b)
    decreases |b|
  {
    if b == [] {
      assert a + b == a;
    } else {
      assert (a + b)[..|a + b| - 1] == a + b[..|b| - 1];
      assert (a + b)[|a + b| - 1] == b[|b| - 1];
      ServicesOfConcat(a, b[..|b| - 1]);
    }
  }

  /** Every registered record is what some listed path yields. */
  lemma {:induction false} ServicesFromPaths(paths: seq<string>, k: nat)
    requires k < |ServicesToRegister(paths)|
    ensures exists i :: 0 <= i < |paths| && ServiceForPath(paths[i]) == Some(ServicesToRegister(paths)[k])
  {
    var init := paths[..|paths| - 1];
    if k < |ServicesToRegister(init)| {
      ServicesFromPaths(init, k);
      var i :| 0 <= i < |init| && ServiceForPath(init[i]) == Some(ServicesToRegister(init)[k]);
      assert paths[i] == init[i];
    } else {
      assert ServiceForPath(paths[|paths| - 1]) == Some(ServicesToRegister(paths)[k]);
    }
  }

  /**
   * The `registration` collaborator (`autoregister.AutoAPIServiceRegistration`):
   * only the sequence of records handed to `AddAPIServiceToSyncOnStart` is kept.
   */
  class AutoRegistration {
    var syncOnStart: seq<APIService>

    constructor ()
      ensures syncOnStart == []
    {
      syncOnStart := [];
    }

    method AddAPIServiceToSyncOnStart(service: APIService)
      modifies this
      ensures syncOnStart == old(syncOnStart) + [service]
    {
      syncOnStart := syncOnStart + [service];
    }
  }

  /**
   * One pass of the loop of `apiServicesToRegister`: the record `curr` yields,
   * if any, handed to the registration and returned.
   */
  method RegisterPath(curr: string, registration: AutoRegistration) returns (added: seq<APIService>)
    modifies registration
    ensures added == RecordsOfPath(curr)
    ensures registration.syncOnStart == old(registration.syncOnStart) + added
  {
    added := [];
    if curr == "/api/v1" {
      var apiService := MakeAPIService(GroupVersion("", "v1")).value;
      registration.AddAPIServiceToSyncOnStart(apiService);
      added := [apiService];
      return;
    }
    if !HasPrefix(curr, "/apis/") {
      return;
    }
    var tokens := Split(curr, '/');
    if |tokens| != 4 {
      return;
    }
    var apiService := MakeAPIService(GroupVersion(tokens[2], tokens[3]));
    if apiService.None? {
      return;
    }
    registration.AddAPIServiceToSyncOnStart(apiService.value);
    added := [apiService.value];
  }

  /**
   * `apiServicesToRegister`: walks the listed paths in order, registering and
   * collecting the record of each path that yields one.
   */
  method APIServicesToRegister(listedPaths: seq<string>, registration: AutoRegistration)
    returns (apiServices: seq<APIService>)
    modifies registration
    ensures apiServices == ServicesToRegister(listedPaths)
    ensures registration.syncOnStart == old(registration.syncOnStart) + apiServices
  {
    apiServices := [];
    var i := 0;
    while i < |listedPaths|
      invariant 0 <= i <= |listedPaths|
      invariant apiServices == ServicesToRegister(listedPaths[..i])
      invariant registration.syncOnStart == old(registration.syncOnStart) + apiServices
    {
      var added := RegisterPath(listedPaths[i], registration);
      assert listedPaths[..i + 1][..i] == listedPaths[..i];
      assert ServicesToRegister(listedPaths[..i + 1]) == apiServices + added;
      apiServices := apiServices + added;
      i := i + 1;
    }
    assert listedPaths[..i] == listedPaths;
  }

  /** An add or update event seen by the APIService informer. */
  datatype ServiceEvent = ServiceEvent(name: string, available: bool)

  /** The service object names of `services`. */
  function ServiceNames(services: seq<APIService>): set<string>
  {
    set i | 0 <= i < |services| :: services[i].name
  }

  /** The pending set after `handleAPIServiceChange` has seen `events` in order. */
  function PendingAfter(initial: set<string>, events: seq<ServiceEvent>): (pending: set<string>)
    ensures pending <= initial
  {
    if events == [] then initial
    else
      var before := PendingAfter(initial, events[..|events| - 1]);
      var e := events[|events| - 1];
      if e.name !in before then before
      else if e.available then before - {e.name}
      else before
  }

  /** Events only ever remove names. */
  lemma {:induction false} PendingShrinks(initial: set<string>, events: seq<ServiceEvent>, more: seq<ServiceEvent>)
    ensures PendingAfter(initial, events + more) <= PendingAfter(initial, events)
    ensures PendingAfter(initial, events) <= initial
    decreases |events| + |more|
  {
    if more != [] {
      assert (events + more)[..|events + more| - 1] == events + more[..|more| - 1];
      PendingShrinks(initial, events, more[..|more| - 1]);
    } else {
      assert events + more == events;
      if events != [] {
        PendingShrinks(initial, events[..|events| - 1], []);
        assert events[..|events| - 1] + [] == events[..|events| - 1];
      }
    }
  }

  /** A name is still pending iff it was registered and never seen Available. */
  lemma {:induction false} PendingExactly(initial: set<string>, events: seq<ServiceEvent>, x: string)
    ensures x in PendingAfter(initial, events) <==>
      x in initial && forall i :: 0 <= i < |events| ==> !(events[i].name == x && events[i].available)
  {
    if events != [] {
      var init := events[..|events| - 1];
      PendingExactly(initial, init, x);
      assert forall i :: 0 <= i < |init| ==> init[i] == events[i];
    }
  }

  /** The error `healthz.NamedCheck` reports: the names still missing. */
  datatype MissingAPIServices = MissingAPIServices(names: set<string>)

  /**
   * The health checker built by `makeAPIServiceAvailableHealthCheck`:
   * the pending set, shared between the informer event handler and the check.
   */
  class APIServiceAvailableHealthCheck {
    const name: string
    var pendingServiceNames: set<string>
    ghost const registered: set<string>
    ghost var observed: seq<ServiceEvent>

    ghost predicate Valid()
      reads this
    {
      pendingServiceNames == PendingAfter(registered, observed)
    }

    /** Starts with every given service's name pending. */
    constructor (name: string, apiServices: seq<APIService>)
      ensures Valid() && this.name == name && observed == []
      ensures registered == ServiceNames(apiServices)
      ensures pendingServiceNames == ServiceNames(apiServices)
    {
      this.name := name;
      registered := ServiceNames(apiServices);
      observed := [];
      var pending: set<string> := {};
      var i := 0;
      while i < |apiServices|
        invariant 0 <= i <= |apiServices|
        invariant pending == ServiceNames(apiServices[..i])
      {
        assert ServiceNames(apiServices[..i + 1]) == ServiceNames(apiServices[..i]) + {apiServices[i].name} by {
          assert forall k :: 0 <= k < i ==> apiServices[..i + 1][k] == apiServices[..i][k];
        }
        pending := pending + {apiServices[i].name};
        i := i + 1;
      }
      assert apiServices[..i] == apiServices;
      pendingServiceNames := pending;
    }

    /** `handleAPIServiceChange`: a pending name leaves once seen Available. */
    method HandleAPIServiceChange(service: ServiceEvent)
      requires Valid()
      modifies this
      ensures Valid() && observed == old(observed) + [service]
      ensures pendingServiceNames ==
        if service.name in old(pendingServiceNames) && service.available
        then old(pendingServiceNames) - {service.name}
        else old(pendingServiceNames)
    {
      assert (observed + [service])[..|observed|] == observed;
      observed := observed + [service];
      if service.name !in pendingServiceNames {
        return;
      }
      if service.available {
        pendingServiceNames := pendingServiceNames - {service.name};
      }
    }

    /** The named check: healthy iff nothing is pending. */
    method Check() returns (r: Outcome<MissingAPIServices>)
      ensures r.Pass? <==> pendingServiceNames == {}
      ensures r.Fail? ==> r.error.names == pendingServiceNames
    {
      if |pendingServiceNames| > 0 {
        return Fail(MissingAPIServices(pendingServiceNames));
      }
      return Pass;
    }
  }

  /** The check passes after `events` iff every registered name was seen Available. */
  lemma HealthyIffAllSeen(services: seq<APIService>, events: seq<ServiceEvent>)
    ensures PendingAfter(ServiceNames(services), events) == {} <==>
      forall k :: 0 <= k < |services| ==>
        exists i :: 0 <= i < |events| && events[i].name == services[k].name && events[i].available
  {
    var initial := ServiceNames(services);
    forall x ensures x in PendingAfter(initial, events) <==>
      x in initial && forall i :: 0 <= i < |events| ==> !(events[i].name == x && events[i].available)
    {
      PendingExactly(initial, events, x);
    }
    if PendingAfter(initial, events) == {} {
      forall k | 0 <= k < |services|
        ensures exists i :: 0 <= i < |events| && events[i].name == services[k].name && events[i].available
      {
        assert services[k].name in initial;
        assert services[k].name !in PendingAfter(initial, events);
      }
    }
  }
}

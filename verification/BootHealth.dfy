/** The boot health check: healthy once every auto-registered API service has been seen available. */
module BootHealth {
  import opened Base

  datatype GroupVersion = GroupVersion(group: string, version: string)

  datatype Priority = Priority(group: int, version: int)

  datatype APIService = APIService(name: string, gv: GroupVersion, priority: Priority)

  const CORE := GroupVersion("", "v1")

  const PRIORITIES: map<GroupVersion, Priority> := map[
    CORE := Priority(18000, 1),
    GroupVersion("events.k8s.io", "v1") := Priority(17750, 15),
    GroupVersion("events.k8s.io", "v1beta1") := Priority(17750, 5),
    GroupVersion("authentication.k8s.io", "v1") := Priority(17700, 15),
    GroupVersion("authorization.k8s.io", "v1") := Priority(17600, 15),
    GroupVersion("certificates.k8s.io", "v1") := Priority(17300, 15),
    GroupVersion("rbac.authorization.k8s.io", "v1") := Priority(17000, 15),
    GroupVersion("apiextensions.k8s.io", "v1") := Priority(16700, 15),
    GroupVersion("admissionregistration.k8s.io", "v1") := Priority(16700, 15),
    GroupVersion("coordination.k8s.io", "v1") := Priority(16500, 15),
    GroupVersion("discovery.k8s.io", "v1") := Priority(16200, 15),
    GroupVersion("discovery.k8s.io", "v1beta1") := Priority(16200, 12),
    GroupVersion("flowcontrol.apiserver.k8s.io", "v1beta2") := Priority(16100, 15),
    GroupVersion("flowcontrol.apiserver.k8s.io", "v1beta1") := Priority(16100, 12),
    GroupVersion("flowcontrol.apiserver.k8s.io", "v1alpha1") := Priority(16100, 9),
    GroupVersion("internal.apiserver.k8s.io", "v1alpha1") := Priority(16000, 9)]

  function ServiceName(gv: GroupVersion): string { gv.version + "." + gv.group }

  /** makeAPIService: nothing for a group version without a priority. */
  function MakeAPIService(gv: GroupVersion): Option<APIService> {
    if gv in PRIORITIES then Some(APIService(ServiceName(gv), gv, PRIORITIES[gv])) else None
  }

  /* ---- which services are registered ---- */

  const API_V1 := "/api/v1"
  const APIS := "/apis/"

  /** The listed path announces the group version. */
  ghost predicate Announces(path: string, gv: GroupVersion) {
    || (path == API_V1 && gv == CORE)
    || (path == APIS + gv.group + "/" + gv.version && '/' !in gv.group && '/' !in gv.version)
  }

  /** The group version the loop of apiServicesToRegister reads off a listed path. */
  function Announced(path: string): Option<GroupVersion> {
    if path == API_V1 then Some(CORE)
    else if !(APIS <= path) then None
    else
      var tokens := Split(path, '/');
      if |tokens| != 4 then None else Some(GroupVersion(tokens[2], tokens[3]))
  }

  /** A path with four tokens, cut at its three separators. */
  lemma FourTokens(path: string) returns (r1: string, r2: string)
    requires |Split(path, '/')| == 4
    ensures path == Split(path, '/')[0] + "/" + r1 && r1 == Split(path, '/')[1] + "/" + r2
    ensures r2 == Split(path, '/')[2] + "/" + Split(path, '/')[3]
  {
    hide Split;
    r1 := SplitFirst(path, '/');
    r2 := SplitFirst(r1, '/');
    var r3 := SplitFirst(r2, '/');
    SplitSingle(r3, '/');
    assert Split(r3, '/') == [Split(path, '/')[3]];
  }

  lemma AnnouncedSound(path: string)
    requires Announced(path).Some?
    ensures Announces(path, Announced(path).value)
  {
    if path != API_V1 {
      hide Split;
      var tokens := Split(path, '/');
      SplitTokens(path, '/');
      var r1, r2 := FourTokens(path);
      PrefixApis(path, r1, r2, tokens[0], tokens[1]);
      Joined(tokens[2], tokens[3]);
    }
  }

  lemma Joined(g: string, v: string)
    ensures APIS + (g + "/" + v) == APIS + g + "/" + v
  {
  }

  lemma PrefixApis(path: string, r1: string, r2: string, t0: string, t1: string)
    requires APIS <= path && path == t0 + "/" + r1 && r1 == t1 + "/" + r2 && '/' !in t0 && '/' !in t1
    ensures t0 == "" && t1 == "apis" && path == APIS + r2
  {
    SplitAt(t0, r1, '/');
    SplitAt(t1, r2, '/');
    var rest := path[|APIS|..];
    assert path == "" + "/" + ("apis" + "/" + rest);
    SplitAt("", "apis" + "/" + rest, '/');
    SplitAt("apis", rest, '/');
    assert Split(path, '/')[0] == "" && Split(path, '/')[1] == "apis";
  }

  /** Reading a path and announcing a group version are the same thing. */
  lemma AnnouncedIff(path: string, gv: GroupVersion)
    ensures Announced(path) == Some(gv) <==> Announces(path, gv)
  {
    if Announced(path) == Some(gv) {
      AnnouncedSound(path);
    }
    if Announces(path, gv) && !(path == API_V1 && gv == CORE) {
      var g, v := gv.group, gv.version;
      assert path[4] != API_V1[4];
      assert path == "" + "/" + ("apis" + "/" + (g + "/" + v));
      SplitAt("", "apis" + "/" + (g + "/" + v), '/');
      SplitAt("apis", g + "/" + v, '/');
      SplitAt(g, v, '/');
      SplitSingle(v, '/');
    }
  }

  /** Two listed paths announce the core group. */
  lemma CoreIff(path: string)
    ensures Announced(path) == Some(CORE) <==> path == API_V1 || path == "/apis//v1"
  {
    hide Announced;
    AnnouncedIff(path, CORE);
    assert APIS + "" + "/" + "v1" == "/apis//v1";
  }

  /** The service is the one of a listed group version that has a priority. */
  ghost predicate Registrable(paths: seq<string>, s: APIService) {
    exists i :: 0 <= i < |paths| && Announces(paths[i], s.gv) && MakeAPIService(s.gv) == Some(s)
  }

  /** apiServicesToRegister: exactly the listed group versions that have a priority. */
  method APIServicesToRegister(paths: seq<string>) returns (services: seq<APIService>)
    ensures forall s :: s in services <==> Registrable(paths, s)
    ensures forall s :: s in services ==> ListedService(paths, s)
    ensures forall g, v, i :: 0 <= i < |paths| && Lists(paths[i], g, v) && Prioritized(g, v) ==>
              exists s :: s in services && s.gv == GroupVersion(g, v)
  {
    hide Announces, MakeAPIService, Announced, PRIORITIES, Prioritized, Lists, ListedService;
    services := [];
    for i := 0 to |paths|
      invariant forall s :: s in services <==> Registrable(paths[..i], s)
    {
      RegistrableMore(paths, i);
      var curr := paths[i];
      forall gv ensures Announced(curr) == Some(gv) <==> Announces(curr, gv) {
        AnnouncedIff(curr, gv);
      }
      var gv := Announced(curr);
      if gv == None {
        continue;
      }
      var apiService := MakeAPIService(gv.value);
      MadeFor(gv.value);
      if apiService == None {
        continue;
      }
      services := services + [apiService.value];
    }
    assert paths[..|paths|] == paths;
    RegisteredMeans(paths, services);
  }

  lemma RegisteredMeans(paths: seq<string>, services: seq<APIService>)
    requires forall s :: s in services <==> Registrable(paths, s)
    ensures forall s :: s in services ==> ListedService(paths, s)
    ensures forall g, v, i :: 0 <= i < |paths| && Lists(paths[i], g, v) && Prioritized(g, v) ==>
              exists s :: s in services && s.gv == GroupVersion(g, v)
  {
    hide Registrable, ListedService, Lists, Prioritized;
    forall s | s in services ensures ListedService(paths, s) {
      RegistrableMeans(paths, s);
    }
    forall g, v, i | 0 <= i < |paths| && Lists(paths[i], g, v) && Prioritized(g, v)
      ensures exists s :: s in services && s.gv == GroupVersion(g, v)
    {
      var s := RegistrableFor(paths, g, v, i);
    }
  }

  /** The service goes by its version, a dot and its group, and some path lists them. */
  ghost predicate ListedService(paths: seq<string>, s: APIService) {
    && s.name == s.gv.version + "." + s.gv.group && Prioritized(s.gv.group, s.gv.version)
    && exists i :: 0 <= i < |paths| && Lists(paths[i], s.gv.group, s.gv.version)
  }

  lemma RegistrableMeans(paths: seq<string>, s: APIService)
    requires Registrable(paths, s)
    ensures ListedService(paths, s)
  {
    hide Announces, Lists, Prioritized, PRIORITIES;
    PrioritizedIff(s.gv.group, s.gv.version);
    var i :| 0 <= i < |paths| && Announces(paths[i], s.gv) && MakeAPIService(s.gv) == Some(s);
    ListsIff(paths[i], s.gv.group, s.gv.version);
  }

  lemma RegistrableFor(paths: seq<string>, g: string, v: string, i: nat) returns (s: APIService)
    requires i < |paths| && Lists(paths[i], g, v) && Prioritized(g, v)
    ensures Registrable(paths, s) && s.gv == GroupVersion(g, v)
  {
    hide Announces, Lists, Prioritized, PRIORITIES;
    PrioritizedIff(g, v);
    ListsIff(paths[i], g, v);
    s := MakeAPIService(GroupVersion(g, v)).value;
  }

  lemma MadeFor(gv: GroupVersion)
    ensures MakeAPIService(gv).Some? ==> MakeAPIService(gv).value.gv == gv
  {
  }

  lemma RegistrableMore(paths: seq<string>, i: nat)
    requires i < |paths|
    ensures forall s :: Registrable(paths[..i + 1], s) <==>
              Registrable(paths[..i], s) || (Announces(paths[i], s.gv) && MakeAPIService(s.gv) == Some(s))
  {
  }

  /* ---- the health check ---- */

  datatype Condition = Condition(kind: string, status: string)

  /** An add or update event for an API service. */
  datatype Event = Event(name: string, conditions: seq<Condition>)

  /** IsAPIServiceConditionTrue(service, Available): the first condition of that type decides. */
  predicate IsAvailable(conditions: seq<Condition>) {
    conditions != [] &&
    if conditions[0].kind == "Available" then conditions[0].status == "True" else IsAvailable(conditions[1..])
  }

  ghost predicate SeenAvailable(events: seq<Event>, name: string) {
    exists i :: 0 <= i < |events| && events[i].name == name && IsAvailable(events[i].conditions)
  }

  /** Every registered service has been seen available at least once. */
  ghost predicate AllSeen(registered: set<string>, events: seq<Event>) {
    forall n :: n in registered ==> SeenAvailable(events, n)
  }

  lemma SeenSnoc(events: seq<Event>, e: Event, name: string)
    ensures SeenAvailable(events + [e], name) <==>
              SeenAvailable(events, name) || (e.name == name && IsAvailable(e.conditions))
  {
    var all := events + [e];
    if i :| 0 <= i < |events| && events[i].name == name && IsAvailable(events[i].conditions) {
      assert all[i].name == name;
    }
    if e.name == name && IsAvailable(e.conditions) {
      assert all[|events|].name == name;
    }
  }

  class HealthCheck {
    var pendingServiceNames: set<string>
    ghost const registered: set<string>
    ghost var events: seq<Event>

    ghost predicate Valid()
      reads this
    {
      forall n :: n in pendingServiceNames <==> n in registered && !SeenAvailable(events, n)
    }

    constructor (apiServices: seq<APIService>)
      ensures Valid() && events == [] && registered == set s | s in apiServices :: s.name
    {
      var names := {};
      for i := 0 to |apiServices|
        invariant names == set s | s in apiServices[..i] :: s.name
      {
        assert apiServices[..i + 1] == apiServices[..i] + [apiServices[i]];
        names := names + {apiServices[i].name};
      }
      assert apiServices[..|apiServices|] == apiServices;
      pendingServiceNames := names;
      registered := names;
      events := [];
    }

    method HandleAPIServiceChange(e: Event)
      requires Valid()
      modifies this
      ensures Valid() && events == old(events) + [e]
    {
      hide IsAvailable, SeenAvailable;
      forall n
        ensures SeenAvailable(events + [e], n) <==>
                  SeenAvailable(events, n) || (e.name == n && IsAvailable(e.conditions))
      {
        SeenSnoc(events, e, n);
      }
      events := events + [e];
      if e.name !in pendingServiceNames {
        return;
      }
      if IsAvailable(e.conditions) {
        pendingServiceNames := pendingServiceNames - {e.name};
      }
    }

    /** Healthy, after whatever events, exactly when every registered service has been seen available. */
    method Check() returns (healthy: bool)
      requires Valid()
      ensures healthy <==> AllSeen(registered, events)
    {
      healthy := pendingServiceNames == {};
      if !healthy {
        ghost var n :| n in pendingServiceNames;
      }
    }
  }

  /** Once healthy, healthy forever. */
  lemma StaysHealthy(registered: set<string>, events: seq<Event>, more: seq<Event>)
    requires AllSeen(registered, events)
    ensures AllSeen(registered, events + more)
  {
    forall n | n in registered ensures SeenAvailable(events + more, n) {
      var i :| 0 <= i < |events| && events[i].name == n && IsAvailable(events[i].conditions);
      assert (events + more)[i] == events[i];
    }
  }

  /* ---- names and priorities, spelled out ---- */

  /** The group versions that are registered. */
  predicate Prioritized(g: string, v: string) {
    || (v == "v1" && g in {"", "events.k8s.io", "authentication.k8s.io", "authorization.k8s.io", "certificates.k8s.io",
                           "rbac.authorization.k8s.io", "apiextensions.k8s.io", "admissionregistration.k8s.io",
                           "coordination.k8s.io", "discovery.k8s.io"})
    || (v == "v1beta1" && g in {"events.k8s.io", "discovery.k8s.io", "flowcontrol.apiserver.k8s.io"})
    || (v == "v1beta2" && g == "flowcontrol.apiserver.k8s.io")
    || (v == "v1alpha1" && g in {"flowcontrol.apiserver.k8s.io", "internal.apiserver.k8s.io"})
  }

  lemma PrioritizedIff(g: string, v: string)
    ensures GroupVersion(g, v) in PRIORITIES <==> Prioritized(g, v)
  {
  }

  /** An event for the service whose first condition of type Available has status True. */
  ghost predicate Reported(trace: seq<Event>, name: string) {
    exists i, j :: 0 <= i < |trace| && trace[i].name == name && FirstAvailable(trace[i].conditions, j, "True")
  }

  ghost predicate FirstAvailable(conditions: seq<Condition>, j: int, status: string) {
    && 0 <= j < |conditions| && conditions[j] == Condition("Available", status)
    && forall l :: 0 <= l < j ==> conditions[l].kind != "Available"
  }

  lemma {:induction false} AvailableIff(conditions: seq<Condition>)
    ensures IsAvailable(conditions) <==> exists j :: FirstAvailable(conditions, j, "True")
  {
    if conditions != [] {
      var rest := conditions[1..];
      AvailableIff(rest);
      if conditions[0].kind == "Available" {
        assert FirstAvailable(conditions, 0, conditions[0].status);
      } else {
        if j :| FirstAvailable(rest, j, "True") {
          assert FirstAvailable(conditions, j + 1, "True");
        }
        if j :| FirstAvailable(conditions, j, "True") {
          assert FirstAvailable(rest, j - 1, "True");
        }
      }
    }
  }

  lemma ReportedIff(trace: seq<Event>, name: string)
    ensures SeenAvailable(trace, name) <==> Reported(trace, name)
  {
    hide IsAvailable, FirstAvailable;
    if i :| 0 <= i < |trace| && trace[i].name == name && IsAvailable(trace[i].conditions) {
      AvailableIff(trace[i].conditions);
    }
    if i, j :| 0 <= i < |trace| && trace[i].name == name && FirstAvailable(trace[i].conditions, j, "True") {
      AvailableIff(trace[i].conditions);
    }
  }

  /** The path lists the group version: /api/v1 lists the core group's, any other is under /apis. */
  predicate Lists(path: string, g: string, v: string) {
    (path == "/api/v1" && g == "" && v == "v1") || path == "/apis/" + g + "/" + v
  }

  lemma ListsIff(path: string, g: string, v: string)
    requires Prioritized(g, v)
    ensures Lists(path, g, v) <==> Announces(path, GroupVersion(g, v))
  {
    hide Prioritized;
    NoSlash(g, v);
    assert API_V1 == "/api/v1" && APIS == "/apis/";
  }

  lemma NoSlash(g: string, v: string)
    requires Prioritized(g, v)
    ensures '/' !in g && '/' !in v
  {
    NoSlashFirst(g);
    NoSlashOther(g);
    NoSlashVersion(v);
  }

  const FIRST_GROUPS := {"", "events.k8s.io", "authentication.k8s.io", "authorization.k8s.io", "certificates.k8s.io",
                         "rbac.authorization.k8s.io"}

  const OTHER_GROUPS := {"apiextensions.k8s.io", "admissionregistration.k8s.io", "coordination.k8s.io",
                         "discovery.k8s.io", "flowcontrol.apiserver.k8s.io", "internal.apiserver.k8s.io"}

  lemma NoSlashFirst(g: string)
    ensures g in FIRST_GROUPS ==> '/' !in g
  {
  }

  lemma NoSlashOther(g: string)
    ensures g in OTHER_GROUPS ==> '/' !in g
  {
  }

  lemma NoSlashVersion(v: string)
    ensures v in {"v1", "v1beta1", "v1beta2", "v1alpha1"} ==> '/' !in v
  {
  }

  /** Boot: the check over all event traces, from the listed paths on. */
  method Boot(paths: seq<string>, trace: seq<Event>) returns (healthy: bool)
    ensures healthy <==>
              forall gv, i :: 0 <= i < |paths| && Announces(paths[i], gv) && gv in PRIORITIES ==>
                SeenAvailable(trace, ServiceName(gv))
    ensures healthy <==> AllReported(paths, trace)
  {
    var services := APIServicesToRegister(paths);
    var check := new HealthCheck(services);
    for i := 0 to |trace|
      invariant check.Valid() && check.events == trace[..i]
    {
      assert trace[..i + 1] == trace[..i] + [trace[i]];
      check.HandleAPIServiceChange(trace[i]);
    }
    assert trace[..|trace|] == trace;
    healthy := check.Check();
    BootMeans(paths, services, trace);
    AllReportedIff(paths, trace);
  }

  /** Every listed group version with a priority was reported available under its version, a dot and its group. */
  ghost predicate AllReported(paths: seq<string>, trace: seq<Event>) {
    forall g, v, i :: 0 <= i < |paths| && Lists(paths[i], g, v) && Prioritized(g, v) ==> Reported(trace, v + "." + g)
  }

  lemma AllReportedIff(paths: seq<string>, trace: seq<Event>)
    ensures AllReported(paths, trace) <==>
              forall gv, i :: 0 <= i < |paths| && Announces(paths[i], gv) && gv in PRIORITIES ==>
                SeenAvailable(trace, ServiceName(gv))
  {
    hide Announces, Lists, Prioritized, Reported, SeenAvailable, PRIORITIES;
    forall g, v
      ensures GroupVersion(g, v) in PRIORITIES <==> Prioritized(g, v)
      ensures SeenAvailable(trace, ServiceName(GroupVersion(g, v))) <==> Reported(trace, v + "." + g)
      ensures Prioritized(g, v) ==> forall p :: Lists(p, g, v) <==> Announces(p, GroupVersion(g, v))
    {
      PrioritizedIff(g, v);
      ReportedIff(trace, v + "." + g);
      if Prioritized(g, v) {
        forall p ensures Lists(p, g, v) <==> Announces(p, GroupVersion(g, v)) {
          ListsIff(p, g, v);
        }
      }
    }
    if AllReported(paths, trace) {
      forall gv, i | 0 <= i < |paths| && Announces(paths[i], gv) && gv in PRIORITIES
        ensures SeenAvailable(trace, ServiceName(gv))
      {
        assert gv == GroupVersion(gv.group, gv.version) && Lists(paths[i], gv.group, gv.version);
      }
    }
  }

  lemma BootMeans(paths: seq<string>, services: seq<APIService>, trace: seq<Event>)
    requires forall s :: s in services <==> Registrable(paths, s)
    ensures AllSeen(set s | s in services :: s.name, trace) <==>
            forall gv, i :: 0 <= i < |paths| && Announces(paths[i], gv) && gv in PRIORITIES ==>
              SeenAvailable(trace, ServiceName(gv))
  {
    hide Announces, SeenAvailable, ServiceName;
    var names := set s | s in services :: s.name;
    if AllSeen(names, trace) {
      forall gv, i | 0 <= i < |paths| && Announces(paths[i], gv) && gv in PRIORITIES
        ensures SeenAvailable(trace, ServiceName(gv))
      {
        var s := MakeAPIService(gv).value;
        assert Registrable(paths, s) && s in services;
        assert s.name in names;
      }
    }
    if forall gv, i :: 0 <= i < |paths| && Announces(paths[i], gv) && gv in PRIORITIES ==>
        SeenAvailable(trace, ServiceName(gv)) {
      forall n | n in names ensures SeenAvailable(trace, n) {
        var s :| s in services && s.name == n;
        assert Registrable(paths, s);
        var i :| 0 <= i < |paths| && Announces(paths[i], s.gv) && MakeAPIService(s.gv) == Some(s);
      }
    }
  }

  /* ---- an example ---- */

  const CORE_PATH := "/api/v1"
  const EVENTS_PATH := "/apis/events.k8s.io/v1"
  const DISCOVERY_PATH := "/apis/discovery.k8s.io/v1beta1"
  const CUSTOM_PATH := "/apis/example.com/v1"

  lemma AnnouncesOnce(path: string, a: GroupVersion, b: GroupVersion)
    requires Announces(path, a) && Announces(path, b)
    ensures a == b
  {
    AnnouncedIff(path, a);
    AnnouncedIff(path, b);
  }

  /** What a path lists, when `a` is what it announces. */
  lemma ListsOnly(path: string, a: GroupVersion, g: string, v: string)
    requires Announces(path, a) && Prioritized(g, v) && Lists(path, g, v)
    ensures g == a.group && v == a.version
  {
    hide Announces, Prioritized, Lists;
    ListsIff(path, g, v);
    AnnouncesOnce(path, a, GroupVersion(g, v));
  }

  lemma CorePath()
    ensures Announces(CORE_PATH, GroupVersion("", "v1")) && Lists(CORE_PATH, "", "v1") && "v1" + "." + "" == "v1."
    ensures Prioritized("", "v1")
  {
  }

  lemma EventsPath()
    ensures Announces(EVENTS_PATH, GroupVersion("events.k8s.io", "v1")) && Lists(EVENTS_PATH, "events.k8s.io", "v1")
    ensures "v1" + "." + "events.k8s.io" == "v1.events.k8s.io" && Prioritized("events.k8s.io", "v1")
  {
    hide Prioritized, Announces, Lists;
    EventsPrioritized();
    NoSlash("events.k8s.io", "v1");
    Under(EVENTS_PATH, "events.k8s.io", "v1");
  }

  lemma EventsPrioritized()
    ensures Prioritized("events.k8s.io", "v1")
  {
  }

  lemma DiscoveryPath()
    ensures Announces(DISCOVERY_PATH, GroupVersion("discovery.k8s.io", "v1beta1"))
    ensures Lists(DISCOVERY_PATH, "discovery.k8s.io", "v1beta1")
    ensures "v1beta1" + "." + "discovery.k8s.io" == "v1beta1.discovery.k8s.io"
    ensures Prioritized("discovery.k8s.io", "v1beta1")
  {
    hide Prioritized, Announces, Lists;
    DiscoveryPrioritized();
    NoSlash("discovery.k8s.io", "v1beta1");
    Under(DISCOVERY_PATH, "discovery.k8s.io", "v1beta1");
  }

  lemma DiscoveryPrioritized()
    ensures Prioritized("discovery.k8s.io", "v1beta1")
  {
  }

  lemma CustomPath()
    ensures Announces(CUSTOM_PATH, GroupVersion("example.com", "v1")) && !Prioritized("example.com", "v1")
  {
    Under(CUSTOM_PATH, "example.com", "v1");
  }

  lemma Under(path: string, g: string, v: string)
    requires path == "/apis/" + g + "/" + v && '/' !in g && '/' !in v
    ensures Announces(path, GroupVersion(g, v)) && Lists(path, g, v)
  {
    assert APIS == "/apis/";
  }

  /** Where these four paths are listed, the check is healthy exactly when three services have been seen available; the
      custom resource group is not waited for. */
  lemma ExampleBoot(trace: seq<Event>)
    ensures AllReported([CORE_PATH, EVENTS_PATH, DISCOVERY_PATH, CUSTOM_PATH], trace) <==>
              && Reported(trace, "v1.") && Reported(trace, "v1.events.k8s.io")
              && Reported(trace, "v1beta1.discovery.k8s.io")
  {
    hide Announces, Lists, Prioritized, Reported, CORE_PATH, EVENTS_PATH, DISCOVERY_PATH, CUSTOM_PATH;
    CorePath();
    EventsPath();
    DiscoveryPath();
    CustomPath();
    var paths := [CORE_PATH, EVENTS_PATH, DISCOVERY_PATH, CUSTOM_PATH];
    if AllReported(paths, trace) {
      assert paths[0] == CORE_PATH && paths[1] == EVENTS_PATH && paths[2] == DISCOVERY_PATH;
    } else {
      var g, v, i :| 0 <= i < |paths| && Lists(paths[i], g, v) && Prioritized(g, v) && !Reported(trace, v + "." + g);
      if i == 0 {
        ListsOnly(CORE_PATH, GroupVersion("", "v1"), g, v);
      } else if i == 1 {
        ListsOnly(EVENTS_PATH, GroupVersion("events.k8s.io", "v1"), g, v);
      } else if i == 2 {
        ListsOnly(DISCOVERY_PATH, GroupVersion("discovery.k8s.io", "v1beta1"), g, v);
      } else {
        ListsOnly(CUSTOM_PATH, GroupVersion("example.com", "v1"), g, v);
      }
    }
  }

  /** In discovery the core group comes first; the versions of a group share its priority, stable ones before betas
      before alphas. */
  lemma PriorityOrder(g: string, v: string, u: string)
    requires GroupVersion(g, v) in PRIORITIES && GroupVersion(g, u) in PRIORITIES
    ensures g != "" ==> PRIORITIES[GroupVersion(g, v)].group < PRIORITIES[CORE].group
    ensures PRIORITIES[GroupVersion(g, v)].group == PRIORITIES[GroupVersion(g, u)].group
    ensures PRIORITIES[GroupVersion(g, v)].version > PRIORITIES[GroupVersion(g, u)].version <==>
              (v == "v1" && u != "v1") || (v == "v1beta2" && u == "v1beta1") || (v != "v1alpha1" && u == "v1alpha1")
  {
  }
}

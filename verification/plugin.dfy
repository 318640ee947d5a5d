/** The plugin as the host drives it: requests are served from the state that
    start-up left behind. The system-information collector reaches the service
    version and the build-tree hash through the stored service and tracker
    handles, so serving it needs both handles to be non-null. */
module Plugin {
  import opened Wrappers
  import opened BoundedInts
  import Collectors
  import Router
  import Lifecycle

  /** What the host facilities and the held objects answer while one request is
      served. */
  datatype Readings = Readings(
    now: string,
    serviceVersion: string,
    buildTreeHash: string,
    stats: Collectors.HostStats,
    adapters: seq<Collectors.Adapter>,
    runs: uint32)

  /** The collectors' inputs: the readings, plus the system id cached at start-up. */
  function HostOf(st: Lifecycle.State, readings: Readings): Router.Host {
    Router.Host(readings.now, readings.serviceVersion, readings.buildTreeHash,
                st.systemId, readings.stats, readings.adapters, readings.runs)
  }

  /** Serves one request with the stored prefix length. */
  function Serve(st: Lifecycle.State, request: Router.Request, readings: Readings)
    : (r: Result<Router.Response, Lifecycle.Fault>)
    requires st.skipURL <= |request.path|
    ensures r.Failure? <==>
              && request.verb == Router.Get
              && Router.System in Router.Route(request.path[st.skipURL..])
              && (st.service.Null? || st.subSystem.Null?)
    ensures r.Success? ==> r.value == Router.Process(request, st.skipURL, HostOf(st, readings))
  {
    var response := Router.Process(request, st.skipURL, HostOf(st, readings));
    if response.body.Some? && response.body.value.systemInfo.Some?
       && (st.service.Null? || st.subSystem.Null?)
    then Failure(Lifecycle.NullDereference)
    else Success(response)
  }

  /** A start-up that obtained the provider and the tracker serves every request. */
  lemma FullStartUpServesEverything(service: Lifecycle.Handle, shell: Lifecycle.ShellAnswers,
                                    request: Router.Request, readings: Readings)
    requires service.Ref? && shell.provider.Ref? && shell.subSystems.Ref?
    requires Lifecycle.Initialize(Lifecycle.Fresh, service, shell).state.skipURL <= |request.path|
    ensures Lifecycle.Initialize(Lifecycle.Fresh, service, shell).error == ""
    ensures Serve(Lifecycle.Initialize(Lifecycle.Fresh, service, shell).state, request, readings).Success?
  {
  }

  /** A start-up that could not obtain the provider still reports success when
      the tracker is present, yet it has cleared the service: the next request
      for system information dereferences the null service, while a request
      for the sockets section is served. */
  lemma StartUpWithoutProviderFaultsOnSystemRequest(service: Lifecycle.Handle,
                                                    shell: Lifecycle.ShellAnswers,
                                                    readings: Readings)
    requires service.Ref? && shell.provider.Null? && shell.subSystems.Ref?
    requires shell.webPrefix == ""
    ensures Lifecycle.Initialize(Lifecycle.Fresh, service, shell).error == ""
    ensures var st := Lifecycle.Initialize(Lifecycle.Fresh, service, shell).state;
            && Serve(st, Router.Request(Router.Get, "/System"), readings).Failure?
            && Serve(st, Router.Request(Router.Get, ""), readings).Failure?
            && Serve(st, Router.Request(Router.Get, "/Sockets"), readings).Success?
  {
    var st := Lifecycle.Initialize(Lifecycle.Fresh, service, shell).state;
    assert st.skipURL == 0;
    Router.TagExamples();
    Router.EmptySubPathExample();
    assert "/System"[0..] == "/System";
    assert "/Sockets"[0..] == "/Sockets";
    assert ""[0..] == "";
  }
}

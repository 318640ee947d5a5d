/** The start-up and shut-down of the DeviceInfo plugin. The plugin keeps
    nullable handles to the hosting service, to the subsystem tracker and to an
    out-of-process capability provider, plus the id of the connection that
    hosts the provider. Every reference it takes or gives back, every forced
    termination, the configuration of the provider and the self-test are
    recorded in an event log, so that the contracts can count them. */
module Lifecycle {
  import opened Wrappers
  import opened BoundedInts

  /** An interface pointer: null, or a reference to some object. */
  datatype Handle = Null | Ref(id: nat)

  /** The reference-counted objects the plugin holds. */
  datatype Role = Provider | SubSystem | Connection

  datatype Event =
    | Acquire(role: Role)     // a reference handed to the plugin
    | Release(role: Role)     // a reference given back
    | Terminate               // the provider's hosting connection forcibly ended
    | Configure               // the provider configured with the service
    | SelfTest                // the capability queries of the self-test

  datatype State = State(
    service: Handle,
    subSystem: Handle,
    implementation: Handle,
    connectionId: uint32,
    skipURL: uint8,
    systemId: string,
    log: seq<Event>)

  /** A freshly constructed plugin. */
  const Fresh: State := State(Null, Null, Null, 0, 0, "", [])

  /** What the hosting service answers during start-up: its URL prefix, its
      subsystem tracker, the provider it instantiates (null when that fails
      within the 2000 ms allowed) with the id of the connection hosting it, and
      the system id derived from the raw device id. */
  datatype ShellAnswers = ShellAnswers(
    webPrefix: string,
    subSystems: Handle,
    provider: Handle,
    connectionId: uint32,
    systemId: string)

  /** The plugin's state after start-up and the text returned to the host:
      empty on success. */
  datatype InitResult = InitResult(state: State, error: string)

  /** What goes wrong in the source when a null handle is used: the self-test
      on a null provider, or the version lookup through a null service or
      tracker while system information is served. */
  datatype Fault = NullDereference

  const SystemInfoError: string := "Could not retrieve System Information."

  /** The number of times `e` occurs in `log`. */
  function Count(log: seq<Event>, e: Event): nat
    decreases |log|
  {
    if |log| == 0 then 0 else (if log[0] == e then 1 else 0) + Count(log[1..], e)
  }

  lemma {:induction false} CountAppend(a: seq<Event>, b: seq<Event>, e: Event)
    ensures Count(a + b, e) == Count(a, e) + Count(b, e)
    decreases |a|
  {
    if |a| == 0 {
      assert a + b == b;
    } else {
      assert (a + b)[1..] == a[1..] + b;
      CountAppend(a[1..], b, e);
    }
  }

  lemma CountConcat(a: seq<Event>, b: seq<Event>)
    ensures forall e :: Count(a + b, e) == Count(a, e) + Count(b, e)
  {
    forall e ensures Count(a + b, e) == Count(a, e) + Count(b, e) {
      CountAppend(a, b, e);
    }
  }

  lemma CountSingleton(x: Event)
    ensures forall e :: Count([x], e) == (if x == e then 1 else 0)
  {
    assert [x][1..] == [];
  }

  /** The plugin's start-up checks: nothing held yet, and a real service. */
  predicate CanInitialize(st: State, service: Handle) {
    st.service.Null? && st.subSystem.Null? && st.implementation.Null? && service.Ref?
  }

  /** The plugin's shut-down checks: the same service, and a provider held. The
      host passes a real service, as it does at start-up. */
  predicate CanDeinitialize(st: State, service: Handle) {
    st.service == service && st.implementation.Ref? && service.Ref?
  }

  /** The events of start-up before the self-test. */
  function SetupEvents(shell: ShellAnswers): seq<Event> {
    (if shell.subSystems.Ref? then [Acquire(SubSystem)] else [])
    + (if shell.provider.Ref? then [Acquire(Provider), Configure] else [])
  }

  lemma CountSetupEvents(shell: ShellAnswers)
    ensures Count(SetupEvents(shell), Acquire(SubSystem)) == (if shell.subSystems.Ref? then 1 else 0)
    ensures Count(SetupEvents(shell), Acquire(Provider)) == (if shell.provider.Ref? then 1 else 0)
    ensures Count(SetupEvents(shell), Configure) == (if shell.provider.Ref? then 1 else 0)
    ensures Count(SetupEvents(shell), Release(Provider)) == 0
    ensures Count(SetupEvents(shell), Release(SubSystem)) == 0
    ensures Count(SetupEvents(shell), Acquire(Connection)) == 0
    ensures Count(SetupEvents(shell), Release(Connection)) == 0
    ensures Terminate !in SetupEvents(shell)
    ensures Count(SetupEvents(shell), SelfTest) == 0
  {
    var s := if shell.subSystems.Ref? then [Acquire(SubSystem)] else [];
    var p := if shell.provider.Ref? then [Acquire(Provider), Configure] else [];
    CountConcat(s, p);
    CountConcat([Acquire(Provider)], [Configure]);
    assert [Acquire(Provider), Configure] == [Acquire(Provider)] + [Configure];
    CountSingleton(Acquire(SubSystem));
    CountSingleton(Acquire(Provider));
    CountSingleton(Configure);
  }

  /** Start-up up to, and not including, the self-test. */
  function Setup(st: State, service: Handle, shell: ShellAnswers): InitResult
    requires CanInitialize(st, service)
  {
    var state := State(
      if shell.provider.Null? then Null else service,
      shell.subSystems,
      shell.provider,
      shell.connectionId,
      |shell.webPrefix| % TWO_TO_THE_8,
      shell.systemId,
      st.log + SetupEvents(shell));
    InitResult(state, if shell.subSystems.Ref? then "" else SystemInfoError)
  }

  /** The self-test: it queries the provider, so it needs one. */
  function RunSelfTest(r: InitResult): Result<InitResult, Fault> {
    if r.state.implementation.Null? then Failure(NullDereference)
    else Success(r.(state := r.state.(log := r.state.log + [SelfTest])))
  }

  /** Start-up as the source writes it: the self-test runs whether or not the
      provider was obtained. */
  function InitializeAsWritten(st: State, service: Handle, shell: ShellAnswers)
    : (r: Result<InitResult, Fault>)
    requires CanInitialize(st, service)
    ensures r.Failure? <==> shell.provider.Null?
    ensures r.Success? ==>
              && (r.value.error == "" <==> shell.subSystems.Ref?)
              && r.value.state.service == service
              && r.value.state.implementation == shell.provider
              && r.value.state.subSystem == shell.subSystems
              && st.log <= r.value.state.log
              && var emitted := r.value.state.log[|st.log|..];
                 && Count(emitted, SelfTest) == 1
                 && Count(emitted, Configure) == 1
                 && Count(emitted, Acquire(Provider)) == 1
  {
    var setup := Setup(st, service, shell);
    var r := RunSelfTest(setup);
    if r.Success? then
      var events := SetupEvents(shell) + [SelfTest];
      assert r.value.state.log == st.log + events;
      assert r.value.state.log[|st.log|..] == events;
      CountConcat(SetupEvents(shell), [SelfTest]);
      CountSetupEvents(shell);
      CountSingleton(SelfTest);
      r
    else r
  }

  /** When the provider cannot be obtained, the source's start-up reaches the
      self-test with a null provider. */
  lemma AsWrittenSelfTestOnNullProvider(st: State, service: Handle, shell: ShellAnswers)
    requires CanInitialize(st, service)
    ensures shell.provider.Null? <==> InitializeAsWritten(st, service, shell).Failure?
  {
  }

  /** Start-up, with the self-test run only on a provider that was obtained. */
  function Initialize(st: State, service: Handle, shell: ShellAnswers): (r: InitResult)
    requires CanInitialize(st, service)
    // the return text depends on the subsystem tracker alone
    ensures r.error == "" <==> shell.subSystems.Ref?
    ensures r.error != "" ==> r.error == SystemInfoError
    // the service is kept exactly when the provider was obtained
    ensures r.state.service.Null? <==> shell.provider.Null?
    ensures r.state.service.Ref? ==> r.state.service == service
    ensures r.state.subSystem == shell.subSystems
    ensures r.state.implementation == shell.provider
    ensures r.state.connectionId == shell.connectionId
    ensures r.state.systemId == shell.systemId
    // the prefix length is kept in 8 bits
    ensures r.state.skipURL == |shell.webPrefix| % TWO_TO_THE_8
    ensures |shell.webPrefix| < TWO_TO_THE_8 ==> r.state.skipURL == |shell.webPrefix|
    ensures st.log <= r.state.log
    ensures var emitted := r.state.log[|st.log|..];
            && Count(emitted, Acquire(SubSystem)) == (if shell.subSystems.Ref? then 1 else 0)
            && Count(emitted, Acquire(Provider)) == (if shell.provider.Ref? then 1 else 0)
            && Count(emitted, Configure) == (if shell.provider.Ref? then 1 else 0)
            && Count(emitted, Release(Provider)) == 0
            && Count(emitted, Release(SubSystem)) == 0
            && Count(emitted, Acquire(Connection)) == 0
            && Count(emitted, Release(Connection)) == 0
            && Terminate !in emitted
            && (SelfTest in emitted <==> shell.provider.Ref?)
  {
    var r := Setup(st, service, shell);
    var tests := if shell.provider.Ref? then [SelfTest] else [];
    var result := match RunSelfTest(r)
      case Success(tested) => tested
      case Failure(_) => r;
    assert result.state.log == st.log + (SetupEvents(shell) + tests);
    assert result.state.log[|st.log|..] == SetupEvents(shell) + tests;
    CountConcat(SetupEvents(shell), tests);
    CountSetupEvents(shell);
    CountSingleton(SelfTest);
    result
  }

  /** Wherever the source's start-up does not fault, the corrected one agrees
      with it. */
  lemma InitializeAgreesWithAsWritten(st: State, service: Handle, shell: ShellAnswers)
    requires CanInitialize(st, service)
    ensures InitializeAsWritten(st, service, shell).Success? ==>
            InitializeAsWritten(st, service, shell).value == Initialize(st, service, shell)
  {
  }

  /** The events of shut-down. */
  function ShutdownEvents(st: State, lookup: Handle): seq<Event> {
    [Release(Provider)]
    + (if st.connectionId != 0 && lookup.Ref?
       then [Acquire(Connection), Terminate, Release(Connection)]
       else [])
    + (if st.subSystem.Ref? then [Release(SubSystem)] else [])
  }

  lemma CountShutdownEvents(st: State, lookup: Handle)
    ensures var events := ShutdownEvents(st, lookup);
            && Count(events, Release(Provider)) == 1
            && Count(events, Acquire(Provider)) == 0
            && Count(events, Acquire(SubSystem)) == 0
            && Count(events, Release(SubSystem)) == (if st.subSystem.Ref? then 1 else 0)
            && Count(events, Terminate) == (if st.connectionId != 0 && lookup.Ref? then 1 else 0)
            && Count(events, Acquire(Connection)) == Count(events, Terminate)
            && Count(events, Release(Connection)) == Count(events, Terminate)
  {
    var c := if st.connectionId != 0 && lookup.Ref?
             then [Acquire(Connection), Terminate, Release(Connection)] else [];
    var s := if st.subSystem.Ref? then [Release(SubSystem)] else [];
    CountConcat([Release(Provider)], c);
    CountConcat([Release(Provider)] + c, s);
    CountConcat([Acquire(Connection)], [Terminate] + [Release(Connection)]);
    CountConcat([Terminate], [Release(Connection)]);
    assert [Acquire(Connection), Terminate, Release(Connection)]
        == [Acquire(Connection)] + ([Terminate] + [Release(Connection)]);
    CountSingleton(Release(Provider));
    CountSingleton(Acquire(Connection));
    CountSingleton(Terminate);
    CountSingleton(Release(Connection));
    CountSingleton(Release(SubSystem));
  }

  lemma ShutdownOrder(st: State, lookup: Handle)
    ensures var events := ShutdownEvents(st, lookup);
            && events[0] == Release(Provider)
            && (Terminate in events <==> st.connectionId != 0 && lookup.Ref?)
            && forall i :: 0 <= i < |events| && events[i] == Terminate ==>
                 i + 1 < |events| && events[i + 1] == Release(Connection)
  {
    var events := ShutdownEvents(st, lookup);
    if st.connectionId != 0 && lookup.Ref? {
      assert events[..4] == [Release(Provider), Acquire(Connection), Terminate, Release(Connection)];
      assert events[4..] == if st.subSystem.Ref? then [Release(SubSystem)] else [];
    } else {
      assert events[1..] == if st.subSystem.Ref? then [Release(SubSystem)] else [];
    }
  }

  /** Shut-down. `lookup` is what the service answers when asked for the
      connection with the recorded id; it is asked only for a non-zero id. */
  function Deinitialize(st: State, service: Handle, lookup: Handle): (r: State)
    requires CanDeinitialize(st, service)
    ensures r.service.Null? && r.subSystem.Null?
    // the provider pointer is released but not reset
    ensures r.implementation == st.implementation
    ensures r.connectionId == st.connectionId && r.skipURL == st.skipURL
    ensures r.systemId == st.systemId
    ensures st.log <= r.log
    ensures var emitted := r.log[|st.log|..];
            && Count(emitted, Release(Provider)) == 1
            && Count(emitted, Release(SubSystem)) == (if st.subSystem.Ref? then 1 else 0)
            && Count(emitted, Acquire(Provider)) == 0
            && Count(emitted, Acquire(SubSystem)) == 0
            && (Terminate in emitted <==> st.connectionId != 0 && lookup.Ref?)
            && Count(emitted, Terminate) <= 1
            && Count(emitted, Acquire(Connection)) == Count(emitted, Release(Connection))
            && Count(emitted, Release(Connection)) == Count(emitted, Terminate)
            && (forall i :: 0 <= i < |emitted| && emitted[i] == Terminate ==>
                  i + 1 < |emitted| && emitted[i + 1] == Release(Connection))
            && emitted[0] == Release(Provider)
  {
    var events := ShutdownEvents(st, lookup);
    var r := st.(service := Null, subSystem := Null, log := st.log + events);
    assert r.log[|st.log|..] == events;
    CountShutdownEvents(st, lookup);
    ShutdownOrder(st, lookup);
    r
  }

  /** A start-up that obtained the provider, followed by shut-down with the
      same service, gives back every reference the plugin was handed. */
  lemma InitializeThenDeinitializeBalanced(service: Handle, shell: ShellAnswers, lookup: Handle)
    requires service.Ref? && shell.provider.Ref?
    ensures CanDeinitialize(Initialize(Fresh, service, shell).state, service)
    ensures var log := Deinitialize(Initialize(Fresh, service, shell).state, service, lookup).log;
            forall role: Role :: Count(log, Acquire(role)) == Count(log, Release(role))
  {
    var s1 := Initialize(Fresh, service, shell).state;
    var s2 := Deinitialize(s1, service, lookup);
    var startup := s1.log[|Fresh.log|..];
    var shutdown := s2.log[|s1.log|..];
    assert startup == s1.log;
    assert s2.log == s1.log + shutdown;
    assert s1.subSystem == shell.subSystems;
    forall role: Role
      ensures Count(s2.log, Acquire(role)) == Count(s2.log, Release(role))
    {
      CountAppend(s1.log, shutdown, Acquire(role));
      CountAppend(s1.log, shutdown, Release(role));
      match role
      case Provider =>
        assert Count(startup, Acquire(Provider)) == 1 && Count(startup, Release(Provider)) == 0;
        assert Count(shutdown, Acquire(Provider)) == 0 && Count(shutdown, Release(Provider)) == 1;
      case SubSystem =>
      case Connection =>
    }
  }

  /** A start-up that could not obtain the provider clears the service, so a
      later shut-down with that service violates both shut-down checks. */
  lemma FailedStartUpBlocksShutDown(service: Handle, shell: ShellAnswers)
    requires service.Ref? && shell.provider.Null?
    ensures var s := Initialize(Fresh, service, shell).state;
            s.service != service && s.implementation.Null? && !CanDeinitialize(s, service)
  {
  }

  /** Shut-down leaves the released provider pointer in place, so the same
      plugin object cannot be started again. */
  lemma NoRestartAfterShutDown(service: Handle, shell: ShellAnswers, lookup: Handle, again: Handle)
    requires service.Ref? && shell.provider.Ref?
    ensures CanDeinitialize(Initialize(Fresh, service, shell).state, service)
    ensures !CanInitialize(Deinitialize(Initialize(Fresh, service, shell).state, service, lookup), again)
  {
  }

  /** Shut-down clears the service but keeps the provider pointer. A second
      shut-down with a real service fails the stored-service check; one with a
      null service would pass the source's own two checks, and is excluded only
      because the host passes a real service. */
  lemma NoSecondShutDown(st: State, service: Handle, lookup: Handle, again: Handle)
    requires CanDeinitialize(st, service)
    ensures var after := Deinitialize(st, service, lookup);
            && (again.Ref? ==> after.service != again)
            && after.service == Null && after.implementation.Ref?
            && !CanDeinitialize(after, again)
  {
  }
}

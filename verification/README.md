# DeviceInfo plugin — a Dafny model

The DeviceInfo plugin of a Thunder (WPEFramework) host reports device
telemetry over HTTP as JSON. It has three parts:

- system information: time, version, uptime, RAM, host name, CPU load and serial number;
- network addresses: for each adapter, its name, MAC address and IPv4 list;
- socket statistics: the resource monitor's run count.

This project models the two pieces of logic in `DeviceInfo/DeviceInfo.cpp`:

- **The request handler (`Process`).**
  - A GET request is routed on the path below the plugin's URL prefix.
  - The route fills all three sections, exactly one of them, or none.
  - Any other verb is answered with Bad Request.
  - The collectors (`SysInfo`, `AddressInfo`, `SocketPortInfo`) are pure functions over host readings, which are passed in as values.
- **The plugin lifecycle (`Initialize`, `Deinitialize`).**
  - The plugin's state is a record of nullable handles: service, subsystem tracker, capability provider, and connection id.
  - The source's ASSERTs become preconditions.
  - An event log records every reference acquired or released, every forced termination, each provider configuration and each self-test. Contracts count events in it.

Modules:

| file | module | contents |
|---|---|---|
| wrappers.dfy | `Wrappers` | `Option`, `Result` |
| bounded_ints.dfy | `BoundedInts` | `uint8`, `uint32`, `uint64` as ranges of `int` |
| segments.dfy | `Segments` | splitting a path at a separator, keeping empty segments; the inverse join |
| decimal.dfy | `Decimal` | unsigned decimal text of a number, and parsing it back |
| collectors.dfy | `Collectors` | `SysInfo`, `AddressInfo`, `SocketPortInfo` |
| router.dfy | `Router` | `Process`, the route table, request/response records |
| lifecycle.dfy | `Lifecycle` | `Initialize`, `Deinitialize`, the event log |
| plugin.dfy | `Plugin` | serving requests from the state left by start-up |

Path splitting is an assumption. Line 158 builds a `Core::TextSegmentIterator`
over the path below the prefix, passing `false` and '/'. That iterator, and
what its `false` flag means, are not part of this model. The comment at
`DeviceInfo/DeviceInfo.cpp:160` says that a leading '/' gives an empty first
segment, so the model keeps empty segments. Whether the flag really keeps
them decides how `"/"` and `"//System"` behave. Under this assumption:

- a path ending in '/' below the prefix (`"/"`) has the empty string as its second segment, so it selects no section;
- the prefix alone selects all three sections.

Notes on the code that the model follows:

- The Bad Request message ends with a full stop (line 180).
- A refused request gets no body and no content type; both are set only on the GET branch (lines 176-177).
- `Deinitialize` releases the provider (line 112) but never resets its pointer. Only the service and the subsystem tracker are cleared (lines 123-130).
- The route tag for addresses is spelt "Adresses" (line 167). The correctly spelt "Addresses" selects nothing.
- `Initialize` calls the self-test even when no provider was obtained (line 102). See "## Findings".
- `Plugin` joins the two halves: requests are served from the state start-up left. The system-information collector reads the version through the stored service and tracker (line 191), so it faults when either is null.

## Model

| member | source | states |
|---|---|---|
| Segments.Split | DeviceInfo/DeviceInfo.cpp:158-161 | the path below the prefix splits at '/' into at least one segment; no segment contains '/'; joining the segments with '/' gives back the path |
| Segments.SplitJoin | DeviceInfo/DeviceInfo.cpp:158-161 | splitting undoes joining '/'-free segments, so split and join are mutually inverse |
| Segments.SplitAfter | DeviceInfo/DeviceInfo.cpp:158-161 | a '/'-free leading part followed by '/' becomes the first segment, and the segments of the rest follow unchanged |
| Decimal.Text | DeviceInfo/DeviceInfo.cpp:196 | the decimal text of a number is a non-empty digit string with no leading zero, and starts with '0' only for zero |
| Decimal.ParseText | DeviceInfo/DeviceInfo.cpp:196 | reading back the decimal text of a number gives the number |
| Decimal.TextParse | DeviceInfo/DeviceInfo.cpp:196 | every canonical digit string is the decimal text of the number it denotes |
| Collectors.SysInfo | DeviceInfo/DeviceInfo.cpp:186-198 | version is the service version, then '#', then the build-tree hash; cpuload is canonical decimal text whose value is the load cast to 32 bits; time, uptime, RAM, device name and serial number are the host readings and the cached system id |
| Collectors.VersionFields | DeviceInfo/DeviceInfo.cpp:191 | when the service version has no '#', it is the first '#'-field of version; when the hash has none either, the fields are exactly the version and the hash |
| Collectors.CpuloadTruncation | DeviceInfo/DeviceInfo.cpp:196 | a load below 2^32 is reported exactly; a load of 2^32 + 7 is reported as "7" |
| Collectors.AddressInfo | DeviceInfo/DeviceInfo.cpp:200-222 | one entry per adapter, in enumeration order; each entry has the adapter's name, MAC text and IPv4 list in order, possibly empty |
| Collectors.AddressInfoConcat | DeviceInfo/DeviceInfo.cpp:205-210 | the entries for two runs of adapters are the entries of the first run followed by those of the second: each entry depends on its own adapter only, in enumeration order |
| Collectors.SocketPortInfo | DeviceInfo/DeviceInfo.cpp:224-227 | the sockets section carries the resource monitor's run count unchanged |
| Router.Process | DeviceInfo/DeviceInfo.cpp:143-184 | non-GET gives 400 Bad Request with the fixed message, no content type and no body; GET gives 200 "OK" with JSON content type and a body whatever the sub-path; the populated sections are exactly the routed ones, each equal to its collector's output |
| Router.OnlyPrefixLengthMatters | DeviceInfo/DeviceInfo.cpp:145-158 | two requests whose prefixes have the same length and whose rests are equal get the same response: the prefix's characters are never examined |
| Router.NoSubPathSelectsAll | DeviceInfo/DeviceInfo.cpp:158-166 | a rest with no '/' has no second segment and selects all three sections |
| Router.SecondSegmentDecides | DeviceInfo/DeviceInfo.cpp:160-173 | with a second segment, the route is the tag table's answer for that segment, whatever the first segment is |
| Router.LaterSegmentsIgnored | DeviceInfo/DeviceInfo.cpp:163-173 | segments after the second never change the route |
| Router.TagTable | DeviceInfo/DeviceInfo.cpp:167-173 | "Adresses", "System" and "Sockets" each select only their own section, and any other segment selects none |
| Router.EmptySubPathExample | DeviceInfo/DeviceInfo.cpp:163-166 | an empty rest selects all three sections |
| Router.TagExamples | DeviceInfo/DeviceInfo.cpp:167-173 | "/System", "/Sockets" and "/Adresses" each select only their section |
| Router.UnknownSegmentExamples | DeviceInfo/DeviceInfo.cpp:167-177 | "/Addresses" (correct spelling) and "/" select no section |
| Router.SocketsRequestExample | DeviceInfo/DeviceInfo.cpp:143-184 | GET "/Sockets" with an empty prefix answers 200 OK, JSON, with only the sockets section, holding the monitor's run count |
| Lifecycle.Initialize | DeviceInfo/DeviceInfo.cpp:75-105 | requires no handles held and a non-null service; returns the empty string exactly when the subsystem tracker is non-null, whether or not the provider was obtained; keeps the service exactly when the provider was obtained; configures the provider once; runs the self-test only on an obtained provider; keeps the prefix length modulo 256 |
| Lifecycle.InitializeAsWritten | DeviceInfo/DeviceInfo.cpp:75-105 | start-up as written faults exactly when the provider is null; otherwise it returns the empty string exactly when the tracker is non-null, keeps the service, and configures and self-tests the provider once each |
| Lifecycle.AsWrittenSelfTestOnNullProvider | DeviceInfo/DeviceInfo.cpp:91-102 | start-up as written reaches the self-test with a null provider exactly when the provider lookup fails |
| Lifecycle.InitializeAgreesWithAsWritten | DeviceInfo/DeviceInfo.cpp:91-104 | whenever start-up as written does not fault, the corrected start-up gives the same state and text |
| Lifecycle.Deinitialize | DeviceInfo/DeviceInfo.cpp:107-131 | requires the stored service to equal the argument, a provider held, and a real service as at start-up (line 82); keeps connection id, prefix length and system id; releases the provider exactly once, first; terminates and then releases the connection only when the id is non-zero and the lookup is non-null; releases the tracker only if held; leaves service and tracker null and the provider pointer unchanged |
| Lifecycle.ShutdownOrder | DeviceInfo/DeviceInfo.cpp:112-121 | shut-down starts by releasing the provider, and every termination is immediately followed by the connection's release |
| Lifecycle.InitializeThenDeinitializeBalanced | DeviceInfo/DeviceInfo.cpp:87-130 | after a start-up that obtained the provider, shut-down with the same service is allowed and gives back every reference taken, for provider, tracker and connection alike |
| Lifecycle.FailedStartUpBlocksShutDown | DeviceInfo/DeviceInfo.cpp:91-110 | after a start-up whose provider lookup failed, the service is cleared and no provider is held, so a later shut-down with that service violates both shut-down checks |
| Lifecycle.NoSecondShutDown | DeviceInfo/DeviceInfo.cpp:109-130 | shut-down clears the service and keeps the provider pointer: a second shut-down with a real service fails the line-109 check, while one with a null service passes both source checks (lines 109-110) and is excluded only by the assumption that the host passes a real service |
| Plugin.Serve | DeviceInfo/DeviceInfo.cpp:143-191 | serving a request faults exactly when it is a GET routed to system information while the stored service or tracker is null; otherwise the answer is the handler's, with the stored prefix length and system id |
| Plugin.FullStartUpServesEverything | DeviceInfo/DeviceInfo.cpp:87-191 | after a start-up that obtained provider and tracker, start-up reports success and every request is served |
| Plugin.StartUpWithoutProviderFaultsOnSystemRequest | DeviceInfo/DeviceInfo.cpp:91-191 | after a start-up whose provider lookup failed but whose tracker is present, start-up still reports success; GET "/System" and the bare prefix then fault on the null service, while GET "/Sockets" is served |
| Lifecycle.NoRestartAfterShutDown | DeviceInfo/DeviceInfo.cpp:79-131 | after start-up and shut-down the provider pointer is still set, so the same object fails the start-up checks |

## Left out

- `TestImplementation` (lines 29-73) only traces what the provider answers. The model records it as one `SelfTest` event, and as a null dereference when the provider is null.
- JSON serialisation, the body proxy pool and the response factory (lines 27, 147, 156, 177). The body is a record of three optional sections.
- The host facilities `Core::SystemInfo`, `Core::AdapterIterator`, `Core::IPV4AddressIterator` and `Core::ResourceMonitor` are foreign calls. Their readings are inputs.
  - MAC and IP text are taken as the host renders them.
  - The CPU load is assumed to be 64 bits wide. The header declaring it is not part of this model.
- The RFC 1123 time text (line 190) comes from a library that is not part of this model. It is an opaque string input.
- `Config::FromString` (lines 84-85) and the derivation of the system id (line 89) are library code. The system id is an input.
- The ASSERT at line 100 (subsystem tracker non-null) is a debug-build check. It is not a precondition, because line 104 handles the null case and the model keeps that behaviour.
- Remote-process termination, the framework's reference counting, the 2000 ms timeout, and concurrency between requests are host and transport concerns. The provider lookup's outcome and the connection lookup's outcome are inputs.
- `Information` and `Inbound` (lines 133-141) do nothing.
- The CPU-load text is taken to be plain unsigned decimal: digits only, no sign, no leading zeros. `Core::NumberType<uint32_t>::Text()` (line 196) is not part of this model.
- Lifecycle.Initialize: the correction guards only the self-test. When the provider is null and the tracker present, it still returns the empty string (line 104) with the service cleared. A later request for system information then dereferences the null service at line 191; `Plugin.StartUpWithoutProviderFaultsOnSystemRequest` shows this, and the model does not claim that the corrected start-up leaves a plugin that can serve every request.
- Lifecycle.Deinitialize: requires a real service, as the host passes at start-up (line 82). The source's own checks (lines 109-110) do not catch a repeated `Deinitialize(nullptr)` after a full cycle, because the stored service is then null and the provider pointer is still set. In that call line 112 releases the already released provider a second time, and for a non-zero connection id line 115 dereferences the null stored service. The model does not describe that call.
- Path lengths beyond 32 bits (the cast at line 158) are not modelled.

## Findings

| source | as written | input that shows it | evidently intended | confidence | as-written member | corrected member |
|---|---|---|---|---|---|---|
| DeviceInfo/DeviceInfo.cpp:102 | `Initialize` calls `TestImplementation()` unconditionally, and that function calls methods on `_implementation` (line 36) | the service cannot instantiate the capability provider, so `Root` returns null (lines 91-95) | run the self-test only when the provider was obtained; the start-up text still follows line 104, so a GET for system information then faults at line 191 on the null service (`Plugin.StartUpWithoutProviderFaultsOnSystemRequest`) | high (not executed) | Lifecycle.InitializeAsWritten | Lifecycle.Initialize |

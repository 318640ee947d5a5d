/** The request handler of the DeviceInfo plugin: GET requests are routed on the
    path below the plugin's URL prefix to zero, one or all three collectors;
    every other verb is refused. */
module Router {
  import opened Wrappers
  import opened BoundedInts
  import Segments
  import Collectors

  datatype Verb = Get | Head | Post | Put | Delete | Options | Trace | Connect | Patch | Unknown

  datatype Request = Request(verb: Verb, path: string)

  datatype Status = Ok | BadRequest {
    /** The HTTP status code. */
    function Code(): nat {
      match this
      case Ok => 200
      case BadRequest => 400
    }
  }

  datatype ContentType = Json

  /** The three sections of the response body. */
  datatype Section = Addresses | System | Sockets

  /** The response body: each section is present only when its collector ran. */
  datatype Document = Document(
    systemInfo: Option<Collectors.SystemInfoData>,
    addresses: Option<seq<Collectors.AddressEntry>>,
    sockets: Option<Collectors.SocketInfoData>)

  datatype Response = Response(
    status: Status,
    message: string,
    contentType: Option<ContentType>,
    body: Option<Document>)

  /** What the collectors read: the host facilities and the values the plugin
      holds from initialisation (service version, build-tree hash, system id). */
  datatype Host = Host(
    now: string,
    serviceVersion: string,
    buildTreeHash: string,
    systemId: string,
    stats: Collectors.HostStats,
    adapters: seq<Collectors.Adapter>,
    runs: uint32)

  const PathSeparator: char := '/'

  /** The route tags, compared case-sensitively; the addresses tag is spelt
      "Adresses" by the plugin. */
  const AddressesTag: string := "Adresses"
  const SystemTag: string := "System"
  const SocketsTag: string := "Sockets"

  const OkMessage: string := "OK"
  const UnsupportedMessage: string := "Unsupported request for the [DeviceInfo] service."

  const AllSections: set<Section> := {Addresses, System, Sockets}

  /** The sections a sub-path segment selects. */
  function SectionsFor(segment: string): set<Section> {
    if segment == AddressesTag then {Addresses}
    else if segment == SystemTag then {System}
    else if segment == SocketsTag then {Sockets}
    else {}
  }

  /** The sections selected by the path below the prefix: its first segment is
      always skipped, no second segment selects everything, and otherwise the
      second segment alone decides. */
  function Route(rest: string): set<Section> {
    var segments := Segments.Split(rest, PathSeparator);
    if |segments| < 2 then AllSections else SectionsFor(segments[1])
  }

  /** The sections present in a document. */
  function Populated(doc: Document): set<Section> {
    (if doc.addresses.Some? then {Addresses} else {})
    + (if doc.systemInfo.Some? then {System} else {})
    + (if doc.sockets.Some? then {Sockets} else {})
  }

  /** Runs the collectors of `sections`, each into its own section. */
  function Collect(sections: set<Section>, host: Host): Document {
    Document(
      if System in sections
      then Some(Collectors.SysInfo(host.now, host.serviceVersion, host.buildTreeHash,
                                   host.systemId, host.stats))
      else None,
      if Addresses in sections then Some(Collectors.AddressInfo(host.adapters)) else None,
      if Sockets in sections then Some(Collectors.SocketPortInfo(host.runs)) else None)
  }

  /** Handles one request. `skipURL` is the length of the plugin's URL prefix. */
  function Process(request: Request, skipURL: nat, host: Host): (r: Response)
    requires skipURL <= |request.path|
    ensures r.status == BadRequest <==> request.verb != Get
    ensures r.status.Code() == (if request.verb == Get then 200 else 400)
    ensures request.verb != Get ==>
              r.message == UnsupportedMessage && r.contentType.None? && r.body.None?
    ensures request.verb == Get ==>
              r.message == OkMessage && r.contentType == Some(Json) && r.body.Some?
    ensures request.verb == Get ==>
              Populated(r.body.value) == Route(request.path[skipURL..])
    ensures request.verb == Get && r.body.value.sockets.Some? ==>
              r.body.value.sockets.value.runs == host.runs
    ensures request.verb == Get && r.body.value.addresses.Some? ==>
              r.body.value.addresses.value == Collectors.AddressInfo(host.adapters)
    ensures request.verb == Get && r.body.value.systemInfo.Some? ==>
              r.body.value.systemInfo.value
              == Collectors.SysInfo(host.now, host.serviceVersion, host.buildTreeHash,
                                    host.systemId, host.stats)
  {
    if request.verb == Get then
      var sections := Route(request.path[skipURL..]);
      Response(Ok, OkMessage, Some(Json), Some(Collect(sections, host)))
    else
      Response(BadRequest, UnsupportedMessage, None, None)
  }

  /** The prefix is dropped by its length alone: its characters never matter. */
  lemma OnlyPrefixLengthMatters(verb: Verb, p: string, q: string, rest: string, host: Host)
    requires |p| == |q|
    ensures Process(Request(verb, p + rest), |p|, host)
            == Process(Request(verb, q + rest), |q|, host)
  {
    assert (p + rest)[|p|..] == rest;
    assert (q + rest)[|q|..] == rest;
  }

  /** A path with no separator below the prefix selects all three sections. */
  lemma NoSubPathSelectsAll(rest: string)
    requires PathSeparator !in rest
    ensures Route(rest) == AllSections
  {
    Segments.SplitSingle(rest, PathSeparator);
  }

  /** With a second segment, that segment alone decides, whatever the first
      segment is. */
  lemma SecondSegmentDecides(first: string, segment: string)
    requires PathSeparator !in first && PathSeparator !in segment
    ensures Route(first + [PathSeparator] + segment) == SectionsFor(segment)
  {
    var path := first + [PathSeparator] + segment;
    Segments.SplitAfter(first, PathSeparator, segment);
    Segments.SplitSingle(segment, PathSeparator);
    assert Segments.Split(path, PathSeparator) == [first, segment];
  }

  /** Segments after the second never affect the route. */
  lemma LaterSegmentsIgnored(first: string, segment: string, tail: string)
    requires PathSeparator !in first && PathSeparator !in segment
    ensures Route(first + [PathSeparator] + segment + [PathSeparator] + tail)
            == Route(first + [PathSeparator] + segment)
  {
    var rest := segment + [PathSeparator] + tail;
    var path := first + [PathSeparator] + segment + [PathSeparator] + tail;
    assert path == first + [PathSeparator] + rest;
    Segments.SplitAfter(segment, PathSeparator, tail);
    Segments.SplitAfter(first, PathSeparator, rest);
    var parts := Segments.Split(path, PathSeparator);
    assert parts == [first] + ([segment] + Segments.Split(tail, PathSeparator));
    assert parts[1] == segment;
    SecondSegmentDecides(first, segment);
  }

  /** The tag table: each tag selects its one section and anything else selects
      none. */
  lemma TagTable(segment: string)
    ensures SectionsFor(segment) == {Addresses} <==> segment == AddressesTag
    ensures SectionsFor(segment) == {System} <==> segment == SystemTag
    ensures SectionsFor(segment) == {Sockets} <==> segment == SocketsTag
    ensures SectionsFor(segment) == {} <==>
            segment != AddressesTag && segment != SystemTag && segment != SocketsTag
  {
  }

  /** The bare prefix, or the prefix with nothing after it, selects everything. */
  lemma EmptySubPathExample()
    ensures Route("") == AllSections
  {
    NoSubPathSelectsAll("");
  }

  /** Each tag after the prefix selects its own section. */
  lemma TagExamples()
    ensures Route("/System") == {System}
    ensures Route("/Sockets") == {Sockets}
    ensures Route("/Adresses") == {Addresses}
  {
    var sep := [PathSeparator];
    SecondSegmentDecides("", SystemTag);
    assert "" + sep + SystemTag == "/System";
    SecondSegmentDecides("", SocketsTag);
    assert "" + sep + SocketsTag == "/Sockets";
    SecondSegmentDecides("", AddressesTag);
    assert "" + sep + AddressesTag == "/Adresses";
  }

  /** The correctly spelt "Addresses" and a trailing separator select nothing,
      yet the response is still OK. */
  lemma UnknownSegmentExamples()
    ensures Route("/Addresses") == {}
    ensures Route("/") == {}
  {
    var sep := [PathSeparator];
    SecondSegmentDecides("", "Addresses");
    assert "" + sep + "Addresses" == "/Addresses";
    SecondSegmentDecides("", "");
    assert "" + sep + "" == "/";
  }

  /** GET "/Sockets" with an empty prefix: only the run count is reported. */
  lemma SocketsRequestExample(host: Host)
    ensures Process(Request(Get, "/Sockets"), 0, host)
            == Response(Ok, OkMessage, Some(Json),
                        Some(Document(None, None, Some(Collectors.SocketInfoData(host.runs)))))
  {
    TagExamples();
    assert "/Sockets"[0..] == "/Sockets";
  }
}

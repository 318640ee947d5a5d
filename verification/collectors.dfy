/** The three collectors that fill the sections of a DeviceInfo response. The
    host facilities they read (system statistics, adapter enumeration, resource
    monitor) are given as plain values. */
module Collectors {
  import opened BoundedInts
  import Decimal
  import Segments

  /** One network adapter as the host enumerates it: its name, its MAC address
      already rendered with ':' between the bytes, and the host-address text of
      each IPv4 address bound to it, in enumeration order. */
  datatype Adapter = Adapter(name: string, mac: string, ipv4: seq<string>)

  /** One element of the `addresses` array. */
  datatype AddressEntry = AddressEntry(name: string, mac: string, ip: seq<string>)

  /** The readings of the host system-information facility. */
  datatype HostStats = HostStats(
    upTime: uint64,
    freeRam: uint64,
    totalRam: uint64,
    hostName: string,
    cpuLoad: uint64)

  /** The `systeminfo` section. */
  datatype SystemInfoData = SystemInfoData(
    time: string,
    version: string,
    uptime: uint64,
    freeram: uint64,
    totalram: uint64,
    devicename: string,
    cpuload: string,
    serialnumber: string)

  /** The `sockets` section. */
  datatype SocketInfoData = SocketInfoData(runs: uint32)

  /** Separates the service version from the build-tree hash in `version`. */
  const VersionSeparator: char := '#'

  /** The truncating conversion of a 64-bit value to 32 bits. */
  function ToUint32(x: uint64): uint32 {
    x % TWO_TO_THE_32
  }

  /** Fills the `systeminfo` section. `now` is the current time already
      formatted as an RFC 1123 date, `serviceVersion` and `buildTreeHash` come
      from the hosting service and the subsystem tracker, and `systemId` is the
      serial number cached at initialisation. */
  function SysInfo(now: string, serviceVersion: string, buildTreeHash: string,
                   systemId: string, stats: HostStats): (info: SystemInfoData)
    ensures info.time == now
    ensures |info.version| == |serviceVersion| + 1 + |buildTreeHash|
    ensures info.version[..|serviceVersion|] == serviceVersion
    ensures info.version[|serviceVersion|] == VersionSeparator
    ensures info.version[|serviceVersion| + 1..] == buildTreeHash
    ensures info.uptime == stats.upTime
    ensures info.freeram == stats.freeRam && info.totalram == stats.totalRam
    ensures info.devicename == stats.hostName
    ensures Decimal.IsCanonical(info.cpuload)
    ensures Decimal.Parse(info.cpuload) == stats.cpuLoad % TWO_TO_THE_32
    ensures info.serialnumber == systemId
  {
    var cpuload := Decimal.Text(ToUint32(stats.cpuLoad));
    Decimal.ParseText(ToUint32(stats.cpuLoad));
    SystemInfoData(
      now,
      serviceVersion + [VersionSeparator] + buildTreeHash,
      stats.upTime,
      stats.freeRam,
      stats.totalRam,
      stats.hostName,
      cpuload,
      systemId)
  }

  /** When neither part contains '#', the two parts of `version` are exactly its
      '#'-separated fields. */
  lemma VersionFields(now: string, serviceVersion: string, buildTreeHash: string,
                      systemId: string, stats: HostStats)
    requires VersionSeparator !in serviceVersion
    ensures var v := SysInfo(now, serviceVersion, buildTreeHash, systemId, stats).version;
            Segments.Split(v, VersionSeparator)[0] == serviceVersion
    ensures VersionSeparator !in buildTreeHash ==>
            var v := SysInfo(now, serviceVersion, buildTreeHash, systemId, stats).version;
            Segments.Split(v, VersionSeparator) == [serviceVersion, buildTreeHash]
  {
    Segments.SplitAfter(serviceVersion, VersionSeparator, buildTreeHash);
    if VersionSeparator !in buildTreeHash {
      Segments.SplitSingle(buildTreeHash, VersionSeparator);
    }
  }

  /** A load that fits in 32 bits is reported exactly; a wider one is reported
      modulo 2^32. */
  lemma CpuloadTruncation(stats: HostStats)
    ensures stats.cpuLoad < TWO_TO_THE_32 ==>
            Decimal.Parse(SysInfo("", "", "", "", stats).cpuload) == stats.cpuLoad
    ensures stats.cpuLoad == TWO_TO_THE_32 + 7 ==>
            SysInfo("", "", "", "", stats).cpuload == "7"
  {
    if stats.cpuLoad == TWO_TO_THE_32 + 7 {
      assert Decimal.Text(7) == "7";
    }
  }

  /** The element appended for one adapter. */
  function NewElement(adapter: Adapter): AddressEntry {
    AddressEntry(adapter.name, adapter.mac, adapter.ipv4)
  }

  /** Fills the `addresses` array, appending one element per adapter in the order
      the host enumerates them. */
  function AddressInfo(adapters: seq<Adapter>): (entries: seq<AddressEntry>)
    ensures |entries| == |adapters|
    ensures forall i :: 0 <= i < |adapters| ==>
              && entries[i].name == adapters[i].name
              && entries[i].mac == adapters[i].mac
              && entries[i].ip == adapters[i].ipv4
    decreases |adapters|
  {
    if |adapters| == 0 then []
    else AddressInfo(adapters[..|adapters| - 1]) + [NewElement(adapters[|adapters| - 1])]
  }

  /** Enumerating the adapters of `a` and then those of `b` gives the entries
      of `a` followed by the entries of `b`: each adapter's entry depends on that
      adapter alone, and the order of enumeration is kept. */
  lemma {:induction false} AddressInfoConcat(a: seq<Adapter>, b: seq<Adapter>)
    ensures AddressInfo(a + b) == AddressInfo(a) + AddressInfo(b)
    decreases |b|
  {
    if |b| == 0 {
      assert a + b == a;
    } else {
      var front := b[..|b| - 1];
      assert (a + b)[..|a + b| - 1] == a + front;
      assert (a + b)[|a + b| - 1] == b[|b| - 1];
      AddressInfoConcat(a, front);
    }
  }

  /** Fills the `sockets` section from the resource monitor's run count. */
  function SocketPortInfo(runs: uint32): (info: SocketInfoData)
    ensures info.runs == runs
  {
    SocketInfoData(runs)
  }
}

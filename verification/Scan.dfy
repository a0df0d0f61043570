/**
 The endpoint scan: which objects count, what one bus contributes, and how the replies of several
 buses are laid over each other.
 */
module Scan {
  import opened Wrappers
  import opened DeviceIds
  import opened Names
  import opened Vendor
  import opened Dbus
  import Paths

  datatype Entry = Entry(bus: nat, service: string)

  type EndpointMap = map<DeviceID, Entry>

  /** What decides which objects count: the host byte order and the configuration. */
  datatype Filter = Filter(host: Endian, config: Config)

  /** The body of the scan's try block: Ok(None) is "continue", Err an exception that is logged. */
  function TryObject(f: Filter, obj: ManagedObject): Result<Option<byte>> {
    if SupportedMessageTypes !in obj.interfaces then Err(OutOfRange)
    else match SupportFlag(f.config, obj.interfaces[SupportedMessageTypes])
      case Err(e) => Err(e)
      case Ok(false) => Ok(None)
      case Ok(true) =>
        match VendorAdmits(f.host, f.config, obj.vendor)
        case Err(e) => Err(e)
        case Ok(false) => Ok(None)
        case Ok(true) =>
          match Paths.ScanPathEid(obj.path)
          case Err(e) => Err(e)
          case Ok(eid) => Ok(Some(eid))
  }

  /** The EID under which the scan records an object, if it does. */
  function ObjectEid(f: Filter, obj: ManagedObject): Option<byte> {
    if EndpointInterface !in obj.interfaces then None
    else match TryObject(f, obj)
      case Ok(eid) => eid
      case Err(_) => None
  }

  /** What makes an object count, as one condition. */
  ghost predicate Admissible(f: Filter, obj: ManagedObject, eid: byte) {
    && EndpointInterface in obj.interfaces
    && SupportedMessageTypes in obj.interfaces
    && Supports(f.config.msgType) in obj.interfaces[SupportedMessageTypes]
    && obj.interfaces[SupportedMessageTypes][Supports(f.config.msgType)] == Bool(true)
    && VendorFits(f.host, f.config, obj.vendor)
    && Paths.ScanPathEid(obj.path) == Ok(eid)
  }

  lemma ObjectEidMeaning(f: Filter, obj: ManagedObject, eid: byte)
    ensures ObjectEid(f, obj) == Some(eid) <==> Admissible(f, obj, eid)
  {
    AdmitsMeaning(f.host, f.config, obj.vendor);
    hide VendorAdmits, VendorFits;
  }

  /** For types other than VDPCI: the endpoint interface, the type's flag and a path that parses are all it takes. */
  lemma PlainObjectEid(f: Filter, obj: ManagedObject, eid: byte)
    requires f.config.msgType != Vdpci
    ensures ObjectEid(f, obj) == Some(eid) <==>
      && EndpointInterface in obj.interfaces && SupportedMessageTypes in obj.interfaces
      && Supports(f.config.msgType) in obj.interfaces[SupportedMessageTypes]
      && obj.interfaces[SupportedMessageTypes][Supports(f.config.msgType)] == Bool(true)
      && Paths.ScanPathEid(obj.path) == Ok(eid)
  {
    ObjectEidMeaning(f, obj, eid);
    hide ObjectEid;
  }

  /** The devices one bus reply names, under the network id in force when it is processed. */
  function Devices(f: Filter, nwid: byte, objects: seq<ManagedObject>): set<DeviceID> {
    set i | 0 <= i < |objects| && ObjectEid(f, objects[i]).Some?
      :: MakeDeviceID(ObjectEid(f, objects[i]).value, nwid)
  }

  /** eids[DeviceID] = bus for each device of one reply. */
  function Contribution(devices: set<DeviceID>, bus: Entry): EndpointMap {
    map d | d in devices :: bus
  }

  // ---- Network ids ----

  type Cache = map<string, byte>

  /** What getNetworkID returns: the cached value, and 0 on a miss whatever is read then. */
  function NetworkIdOf(cache: Cache, service: string): byte {
    if service in cache then cache[service] else 0
  }

  /** The cache after a call: a miss stores the value read, unless reading throws. */
  function CacheAfter(cache: Cache, service: string, readings: map<string, byte>): Cache {
    if service in cache || service !in readings then cache else cache[service := readings[service]]
  }

  // ---- Layers ----

  /** What one bus adds to the map being built. */
  datatype Layer = Layer(devices: set<DeviceID>, bus: Entry)

  function Overlay(layers: seq<Layer>): EndpointMap {
    if layers == [] then map[]
    else
      var last := layers[|layers| - 1];
      Overlay(layers[..|layers| - 1]) + Contribution(last.devices, last.bus)
  }

  /** Layer i is the last one that names d. */
  predicate LastNaming(layers: seq<Layer>, d: DeviceID, i: nat) {
    && i < |layers| && d in layers[i].devices
    && forall j :: i < j < |layers| ==> d !in layers[j].devices
  }

  lemma {:induction false} OverlayMeaning(layers: seq<Layer>, d: DeviceID)
    ensures d in Overlay(layers) <==> exists i :: 0 <= i < |layers| && d in layers[i].devices
    ensures forall i: nat | LastNaming(layers, d, i) :: d in Overlay(layers) && Overlay(layers)[d] == layers[i].bus
    ensures d in Overlay(layers) ==> exists i: nat :: LastNaming(layers, d, i)
  {
    if layers != [] {
      var n := |layers| - 1;
      var front := layers[..n];
      OverlayMeaning(front, d);
      if d in layers[n].devices {
        assert LastNaming(layers, d, n);
      } else {
        forall i: nat
          ensures LastNaming(layers, d, i) <==> LastNaming(front, d, i)
        {
        }
      }
    }
  }

  lemma OverrideAssociates(x: EndpointMap, y: EndpointMap, z: EndpointMap)
    ensures (x + y) + z == x + (y + z)
  {
  }

  lemma {:induction false} OverlayConcat(a: seq<Layer>, b: seq<Layer>)
    ensures Overlay(a + b) == Overlay(a) + Overlay(b)
  {
    hide Contribution;
    if b == [] {
      assert a + b == a;
    } else {
      OverlayConcat(a, b[..|b| - 1]);
      var last := b[|b| - 1];
      OverrideAssociates(Overlay(a), Overlay(b[..|b| - 1]), Contribution(last.devices, last.bus));
      assert (a + b)[..|a + b| - 1] == a + b[..|b| - 1];
    }
  }

  // ---- Whole scans with fixed replies ----

  /** One bus of a scan with its reply; None is a D-Bus error. */
  datatype BusReply = BusReply(bus: Entry, objects: Option<seq<ManagedObject>>)

  /** The cache once these buses were visited; a bus that errors is not asked for its network id. */
  function ScanCache(cache: Cache, replies: seq<BusReply>, readings: map<string, byte>): Cache {
    if replies == [] then cache
    else
      var before := ScanCache(cache, replies[..|replies| - 1], readings);
      var last := replies[|replies| - 1];
      if last.objects.None? then before else CacheAfter(before, last.bus.service, readings)
  }

  /** What a bus contributes under a given cache. */
  function LayerOf(f: Filter, cache: Cache, reply: BusReply): Layer {
    Layer(if reply.objects.None? then {}
          else Devices(f, NetworkIdOf(cache, reply.bus.service), reply.objects.value),
          reply.bus)
  }

  function Layers(f: Filter, cache: Cache, replies: seq<BusReply>, readings: map<string, byte>): seq<Layer> {
    seq(|replies|, i requires 0 <= i < |replies| =>
      LayerOf(f, ScanCache(cache, replies[..i], readings), replies[i]))
  }

  /** The map the scan builds, bus after bus. */
  function ScanAll(f: Filter, cache: Cache, replies: seq<BusReply>, readings: map<string, byte>): EndpointMap {
    Overlay(Layers(f, cache, replies, readings))
  }

  /** Reply i answers, and one of its objects counts as device d under the network id then in force. */
  ghost predicate NamesDevice(f: Filter, cache: Cache, replies: seq<BusReply>, readings: map<string, byte>, d: DeviceID,
                        i: nat)
  {
    && i < |replies|
    && replies[i].objects.Some?
    && exists obj, eid :: obj in replies[i].objects.value && Admissible(f, obj, eid)
         && d == MakeDeviceID(eid, NetworkIdOf(ScanCache(cache, replies[..i], readings), replies[i].bus.service))
  }

  lemma DeviceHasObject(f: Filter, nwid: byte, objects: seq<ManagedObject>, d: DeviceID)
    ensures d in Devices(f, nwid, objects)
      <==> exists obj, eid :: obj in objects && Admissible(f, obj, eid) && d == MakeDeviceID(eid, nwid)
  {
    if d in Devices(f, nwid, objects) {
      var i :| 0 <= i < |objects| && ObjectEid(f, objects[i]).Some?
               && d == MakeDeviceID(ObjectEid(f, objects[i]).value, nwid);
      ObjectEidMeaning(f, objects[i], ObjectEid(f, objects[i]).value);
      assert objects[i] in objects;
    }
    if obj, eid :| obj in objects && Admissible(f, obj, eid) && d == MakeDeviceID(eid, nwid) {
      ObjectEidMeaning(f, obj, eid);
      var i :| 0 <= i < |objects| && objects[i] == obj;
    }
  }

  ghost predicate LastNames(f: Filter, cache: Cache, replies: seq<BusReply>, readings: map<string, byte>, d: DeviceID,
                            i: nat)
  {
    && NamesDevice(f, cache, replies, readings, d, i)
    && forall j: nat :: i < j ==> !NamesDevice(f, cache, replies, readings, d, j)
  }

  lemma LayerNamesDevice(f: Filter, cache: Cache, replies: seq<BusReply>, readings: map<string, byte>, d: DeviceID,
                         i: nat)
    ensures NamesDevice(f, cache, replies, readings, d, i)
      <==> i < |replies| && d in Layers(f, cache, replies, readings)[i].devices
  {
    if i < |replies| && replies[i].objects.Some? {
      DeviceHasObject(f, NetworkIdOf(ScanCache(cache, replies[..i], readings), replies[i].bus.service),
                      replies[i].objects.value, d);
    }
  }

  lemma LastNamingLayers(f: Filter, cache: Cache, replies: seq<BusReply>, readings: map<string, byte>, d: DeviceID,
                         i: nat)
    ensures LastNames(f, cache, replies, readings, d, i)
      <==> LastNaming(Layers(f, cache, replies, readings), d, i)
  {
    forall j: nat {
      LayerNamesDevice(f, cache, replies, readings, d, j);
    }
  }

  /**
   The scan's result: a device is in the map exactly when some bus that answered has an admissible
   object for it, and its entry is the last such bus. Objects that throw and buses that answer with
   an error count for nothing else.
   */
  lemma ScanSpecification(f: Filter, cache: Cache, replies: seq<BusReply>, readings: map<string, byte>, d: DeviceID)
    ensures d in ScanAll(f, cache, replies, readings)
      <==> exists i: nat :: NamesDevice(f, cache, replies, readings, d, i)
    ensures d in ScanAll(f, cache, replies, readings) ==>
      exists i: nat :: LastNames(f, cache, replies, readings, d, i)
                       && ScanAll(f, cache, replies, readings)[d] == replies[i].bus
  {
    var layers := Layers(f, cache, replies, readings);
    OverlayMeaning(layers, d);
    if d in Overlay(layers) {
      var i: nat :| LastNaming(layers, d, i);
      LastNamingLayers(f, cache, replies, readings, d, i);
    }
    if i: nat :| NamesDevice(f, cache, replies, readings, d, i) {
      LayerNamesDevice(f, cache, replies, readings, d, i);
    }
  }

  // ---- Algebra for distinct service names ----

  ghost predicate DistinctServices(replies: seq<BusReply>) {
    forall i, j :: 0 <= i < j < |replies| ==> replies[i].bus.service != replies[j].bus.service
  }

  /** A scan leaves alone the network id of every service it does not visit. */
  lemma {:induction false} ScanCacheUnvisited(cache: Cache, replies: seq<BusReply>, readings: map<string, byte>,
                                              s: string)
    requires forall i :: 0 <= i < |replies| ==> replies[i].bus.service != s
    ensures NetworkIdOf(ScanCache(cache, replies, readings), s) == NetworkIdOf(cache, s)
  {
    if replies != [] {
      ScanCacheUnvisited(cache, replies[..|replies| - 1], readings, s);
    }
  }

  /** With distinct services each bus contributes what it would contribute on its own. */
  lemma LayersAreIndependent(f: Filter, cache: Cache, replies: seq<BusReply>, readings: map<string, byte>)
    requires DistinctServices(replies)
    ensures Layers(f, cache, replies, readings) == seq(|replies|, i requires 0 <= i < |replies| =>
              LayerOf(f, cache, replies[i]))
  {
    forall i | 0 <= i < |replies|
      ensures LayerOf(f, ScanCache(cache, replies[..i], readings), replies[i]) == LayerOf(f, cache, replies[i])
    {
      ScanCacheUnvisited(cache, replies[..i], readings, replies[i].bus.service);
    }
  }

  lemma DistinctParts(a: seq<BusReply>, b: seq<BusReply>)
    requires DistinctServices(a + b)
    ensures DistinctServices(a) && DistinctServices(b)
  {
    assert forall i :: 0 <= i < |a| ==> a[i] == (a + b)[i];
    assert forall i :: 0 <= i < |b| ==> b[i] == (a + b)[|a| + i];
  }

  lemma LayersConcat(f: Filter, cache: Cache, a: seq<BusReply>, b: seq<BusReply>, readings: map<string, byte>)
    requires DistinctServices(a + b)
    ensures Layers(f, cache, a + b, readings) == Layers(f, cache, a, readings) + Layers(f, cache, b, readings)
  {
    DistinctParts(a, b);
    LayersAreIndependent(f, cache, a, readings);
    LayersAreIndependent(f, cache, b, readings);
    LayersAreIndependent(f, cache, a + b, readings);
    hide LayerOf, Layers, DistinctServices;
  }

  /** Scanning A and then B gives the map of A overridden by the map of B. */
  lemma ScanConcat(f: Filter, cache: Cache, a: seq<BusReply>, b: seq<BusReply>, readings: map<string, byte>)
    requires DistinctServices(a + b)
    ensures ScanAll(f, cache, a + b, readings) == ScanAll(f, cache, a, readings) + ScanAll(f, cache, b, readings)
  {
    LayersConcat(f, cache, a, b, readings);
    OverlayConcat(Layers(f, cache, a, readings), Layers(f, cache, b, readings));
    hide Layers, Overlay, DistinctServices;
  }

  lemma ScanKeys(f: Filter, cache: Cache, replies: seq<BusReply>, readings: map<string, byte>, d: DeviceID)
    requires DistinctServices(replies)
    ensures d in ScanAll(f, cache, replies, readings)
      <==> exists r :: r in replies && d in LayerOf(f, cache, r).devices
  {
    LayersAreIndependent(f, cache, replies, readings);
    var layers := Layers(f, cache, replies, readings);
    OverlayMeaning(layers, d);
    if r :| r in replies && d in LayerOf(f, cache, r).devices {
      var i :| 0 <= i < |replies| && replies[i] == r;
      assert layers[i] == LayerOf(f, cache, r);
    }
  }

  /** Visiting the buses in another order finds the same devices. */
  lemma BusOrderKeepsKeys(f: Filter, cache: Cache, a: seq<BusReply>, b: seq<BusReply>, readings: map<string, byte>)
    requires DistinctServices(a) && DistinctServices(b)
    requires forall r :: r in a <==> r in b
    ensures ScanAll(f, cache, a, readings).Keys == ScanAll(f, cache, b, readings).Keys
  {
    forall d
      ensures d in ScanAll(f, cache, a, readings) <==> d in ScanAll(f, cache, b, readings)
    {
      ScanKeys(f, cache, a, readings, d);
      ScanKeys(f, cache, b, readings, d);
    }
  }

  lemma SameObjectsSameDevices(f: Filter, nwid: byte, x: seq<ManagedObject>, y: seq<ManagedObject>)
    requires forall o :: o in x <==> o in y
    ensures Devices(f, nwid, x) == Devices(f, nwid, y)
  {
    forall d
      ensures d in Devices(f, nwid, x) <==> d in Devices(f, nwid, y)
    {
      DeviceHasObject(f, nwid, x, d);
      DeviceHasObject(f, nwid, y, d);
    }
  }

  /** The same reply with its objects listed otherwise. */
  ghost predicate SameReply(x: BusReply, y: BusReply) {
    && x.bus == y.bus
    && (x.objects.Some? <==> y.objects.Some?)
    && (x.objects.Some? ==> forall o :: o in x.objects.value <==> o in y.objects.value)
  }

  lemma {:induction false} SameCache(cache: Cache, a: seq<BusReply>, b: seq<BusReply>, readings: map<string, byte>)
    requires |a| == |b| && forall i :: 0 <= i < |a| ==> SameReply(a[i], b[i])
    ensures ScanCache(cache, a, readings) == ScanCache(cache, b, readings)
  {
    if a != [] {
      var n := |a| - 1;
      assert SameReply(a[n], b[n]);
      SameCache(cache, a[..n], b[..n], readings);
    }
  }

  /** Reordering or repeating the objects within each bus leaves the whole map unchanged. */
  lemma ObjectOrderIrrelevant(f: Filter, cache: Cache, a: seq<BusReply>, b: seq<BusReply>, readings: map<string, byte>)
    requires |a| == |b| && forall i :: 0 <= i < |a| ==> SameReply(a[i], b[i])
    ensures ScanAll(f, cache, a, readings) == ScanAll(f, cache, b, readings)
  {
    forall i | 0 <= i < |a|
      ensures Layers(f, cache, a, readings)[i] == Layers(f, cache, b, readings)[i]
    {
      SameCache(cache, a[..i], b[..i], readings);
      assert SameReply(a[i], b[i]);
      if a[i].objects.Some? {
        SameObjectsSameDevices(f, NetworkIdOf(ScanCache(cache, a[..i], readings), a[i].bus.service),
                               a[i].objects.value, b[i].objects.value);
      }
    }
    assert Layers(f, cache, a, readings) == Layers(f, cache, b, readings);
  }
}

/**
 The effect of each kind of signal and of repeated registration, read off the state machine in the
 terms of the handler that causes it.
 */
module Handlers {
  import opened Wrappers
  import opened DeviceIds
  import opened Names
  import opened Versions
  import opened Dbus
  import opened Scan
  import opened Tracker
  import opened Steps
  import Paths

  // ---- Services visited one by one ----

  /** Sending to one set of services after another is sending to both. */
  lemma SendVersionsTwice(su: Setup, c: Core, a: set<string>, b: set<string>)
    ensures SendVersions(su, c, {}) == c
    ensures SendVersions(su, SendVersions(su, c, a), b) == SendVersions(su, c, a + b)
  {
    hide Encode, TypeCode;
    if c.responderVersions != [] && CanRegister(su.filter.config) {
      var msg := ResponderMessage(su.filter.config, c.responderVersions);
      assert SendVersions(su, c, {}).sent == c.sent;
      assert c.sent + (map s | s in a :: msg) + (map s | s in b :: msg) == c.sent + (map s | s in a + b :: msg);
    }
  }

  lemma ReadsOfUnion(c: Core, a: set<string>, b: set<string>, r: Replies)
    requires a !! b
    ensures OwnReadsOf(c, a, r) + OwnReadsOf(c, b, r) == OwnReadsOf(c, a + b, r)
    ensures OwnReadsOf(c, {}, r) == multiset{}
  {
    hide Lookup;
    var readA := set s | s in a :: OwnRead(s, c.installations, Lookup(r.ownEids, s));
    var readB := set s | s in b :: OwnRead(s, c.installations, Lookup(r.ownEids, s));
    assert (set s | s in a + b :: OwnRead(s, c.installations, Lookup(r.ownEids, s))) == readA + readB;
    assert multiset(readA + readB) == multiset(readA) + multiset(readB);
  }

  lemma ReadsOfOne(c: Core, service: string, r: Replies)
    ensures OwnReadsOf(c, {service}, r) == multiset{OwnRead(service, c.installations, Lookup(r.ownEids, service))}
  {
    hide Lookup;
    assert (set s | s in {service} :: OwnRead(s, c.installations, Lookup(r.ownEids, s)))
      == {OwnRead(service, c.installations, Lookup(r.ownEids, service))};
  }

  lemma ReadOwnEidsTwice(c: Core, a: set<string>, b: set<string>, r: Replies)
    requires a !! b
    ensures ReadOwnEids(c, {}, r) == c
    ensures ReadOwnEids(ReadOwnEids(c, a, r), b, r) == ReadOwnEids(c, a + b, r)
  {
    ReadsOfUnion(c, a, b, r);
    var n := ReadOwnEids(c, a, r);
    SameReads(c, n, b, r);
    hide OwnReadsOf;
    assert c.ownReads + multiset{} == c.ownReads;
    assert c.ownReads + OwnReadsOf(c, a, r) + OwnReadsOf(c, b, r)
      == c.ownReads + (OwnReadsOf(c, a, r) + OwnReadsOf(c, b, r));
  }

  lemma SameReads(c: Core, n: Core, services: set<string>, r: Replies)
    requires n.installations == c.installations
    ensures OwnReadsOf(n, services, r) == OwnReadsOf(c, services, r)
  {
  }

  // ---- Added interfaces ----

  lemma BaseIsNoEndpoint(path: string)
    ensures Paths.IsBase(path) ==> !Paths.IsEndpoint(path)
  {
  }

  /** A signal that neither adds nor removes a device leaves the map and the spawned tasks alone. */
  lemma QuietEvent(su: Setup, m: Machine, a: Action)
    requires a.Event? && SignalDevice(su, m.core, a.signal).None?
    ensures Step(su, m, a) == Machine(EventCore(su, m.core, a.signal, a.replies), m.endpointMap, m.pending,
                                      m.log + Outputs(su, m.core, a))
    ensures !a.signal.body.MessageReceivedSignal? && !a.signal.body.PropertiesChanged? ==>
      m.log + Outputs(su, m.core, a) == m.log
  {
    hide SignalDevice, EventCore, Overwrites, Inserts;
    NoScan(su, m.core, a);
    OtherStep(su, m, a);
  }

  function Added(sender: string, path: string, values: Interfaces, r: Replies): Action {
    Event(Signal(sender, InterfacesAdded(path, values)), r)
  }

  lemma BaseAddition(su: Setup, m: Machine, sender: string, path: string, values: Interfaces, r: Replies)
    requires m.core.initialised && Paths.IsBase(path)
    ensures Step(su, m, Added(sender, path, values, r)) ==
      m.(core := if BindingInterface(su.filter.config.binding) in values
                 then NewService(su, m.core, sender, r) else m.core)
    ensures !EscapingException(su, m.core, Added(sender, path, values, r).signal)
  {
    hide NewService, Announces;
    BaseIsNoEndpoint(path);
    QuietEvent(su, m, Added(sender, path, values, r));
    hide Step;
  }

  /** Nothing is spawned for interfaces that announce nothing, or whose announcement does not parse. */
  lemma FruitlessAddition(su: Setup, m: Machine, sender: string, path: string, values: Interfaces, r: Replies)
    requires m.core.initialised && !Paths.IsBase(path)
    requires sender !in m.core.matchedBuses || Announces(su.filter.config, path, values) != Ok(true)
             || Paths.EventPathEid(path).Err?
    ensures Step(su, m, Added(sender, path, values, r)) ==
      if sender in m.core.matchedBuses && Announces(su.filter.config, path, values) == Ok(true)
         && Paths.HasDeviceSlash(path)
      then m.(core := Remember(m.core, sender, r)) else m
    ensures EscapingException(su, m.core, Added(sender, path, values, r).signal)
      <==> sender in m.core.matchedBuses && Announces(su.filter.config, path, values) != Ok(false)
  {
    hide Announces, Paths.EventPathEid, Paths.HasDeviceSlash, Paths.IsBase, Remember;
    match Announces(su.filter.config, path, values) {
      case Err(_) =>
      case Ok(flag) => assert flag || Ok(flag) == Ok(false);
    }
    QuietEvent(su, m, Added(sender, path, values, r));
    hide Step;
  }

  lemma FruitfulAddition(su: Setup, m: Machine, sender: string, path: string, values: Interfaces, r: Replies)
    requires m.core.initialised && !Paths.IsBase(path) && sender in m.core.matchedBuses
    requires Announces(su.filter.config, path, values) == Ok(true) && Paths.EventPathEid(path).Ok?
    ensures Paths.HasDeviceSlash(path)
    ensures
      var device := MakeDeviceID(Paths.EventPathEid(path).value, NetworkIdOf(m.core.networkIDCache, sender));
      Step(su, m, Added(sender, path, values, r)) ==
      Machine(Remember(m.core, sender, r), m.endpointMap,
              m.pending + Bag(if su.networkChange.Some? then Some(AddDevice(device, sender)) else None), m.log)
    ensures !EscapingException(su, m.core, Added(sender, path, values, r).signal)
  {
    assert Paths.HasDeviceSlash(path);
    hide Announces, Paths.EventPathEid, Paths.IsBase, Remember;
    AnnouncementStep(su, m, Added(sender, path, values, r));
    hide Step;
  }

  // ---- Removed interfaces ----

  function Removed(sender: string, path: string, interfaces: seq<InterfaceName>, r: Replies): Action {
    Event(Signal(sender, InterfacesRemoved(path, interfaces)), r)
  }

  /** A removal that withdraws no device: of the base interface, of another one, or on a path that does not parse. */
  lemma FruitlessRemoval(su: Setup, m: Machine, sender: string, path: string, interfaces: seq<InterfaceName>,
                         r: Replies)
    requires m.core.initialised && sender in m.core.matchedBuses
    requires !Withdraws(path, interfaces) || Paths.EventPathEid(path).Err?
    ensures Step(su, m, Removed(sender, path, interfaces, r)) ==
      if Withdraws(path, interfaces) then
        if Paths.HasDeviceSlash(path) then m.(core := Remember(m.core, sender, r)) else m
      else if Paths.IsBase(path) && BaseInterface in interfaces
      then m.(core := m.core.(matchedBuses := m.core.matchedBuses - {sender})) else m
  {
    hide Withdraws, Paths.EventPathEid, Paths.HasDeviceSlash, Paths.IsBase, Remember;
    QuietEvent(su, m, Removed(sender, path, interfaces, r));
    hide Step;
  }

  lemma FruitfulRemoval(su: Setup, m: Machine, sender: string, path: string, interfaces: seq<InterfaceName>, r: Replies)
    requires m.core.initialised && sender in m.core.matchedBuses
    requires Withdraws(path, interfaces) && Paths.EventPathEid(path).Ok?
    ensures Paths.HasDeviceSlash(path)
    ensures
      var device := MakeDeviceID(Paths.EventPathEid(path).value, NetworkIdOf(m.core.networkIDCache, sender));
      Step(su, m, Removed(sender, path, interfaces, r)) ==
      Machine(Remember(m.core, sender, r), m.endpointMap - {device},
              m.pending + Bag(if device in m.endpointMap && su.networkChange.Some?
                              then Some(NotifyRemoved(device)) else None),
              m.log)
  {
    assert Paths.HasDeviceSlash(path);
    hide Withdraws, Paths.EventPathEid, Paths.IsBase, Remember;
    WithdrawalStep(su, m, Removed(sender, path, interfaces, r));
    hide Step;
  }

  // ---- Messages and properties ----

  lemma MessageEvent(su: Setup, m: Machine, signal: Signal, r: Replies)
    requires m.core.initialised && signal.sender in m.core.matchedBuses && signal.body.MessageReceivedSignal?
    ensures Step(su, m, Event(signal, r)) ==
      if Delivers(su, m.core, signal)
      then Machine(if m.core.extReceive.Some? then Remember(m.core, signal.sender, r) else m.core,
                   m.endpointMap, m.pending, m.log + Deliveries(su, m.core, signal.sender, signal.body))
      else m
  {
    hide Delivers, Deliveries, Remember;
    QuietEvent(su, m, Event(signal, r));
    hide Step;
  }

  /** The callbacks are called one after the other. */
  lemma DeliveriesInTurn(su: Setup, c: Core, sender: string, msg: Body, log: seq<Output>)
    requires msg.MessageReceivedSignal?
    ensures
      var first := if su.receive.None? then log
                   else log + [Received(su.receive.value, msg.srcEid, msg.tagOwner, msg.msgTag, msg.payload)];
      log + Deliveries(su, c, sender, msg) ==
      if c.extReceive.None? then first
      else first + [ExtReceived(c.extReceive.value, MakeDeviceID(msg.srcEid, NetworkIdOf(c.networkIDCache, sender)),
                                msg.tagOwner, msg.msgTag, msg.payload)]
  {
  }

  lemma PropertyEvent(su: Setup, m: Machine, signal: Signal, r: Replies)
    requires m.core.initialised && signal.sender in m.core.matchedBuses && signal.body.PropertiesChanged?
    ensures Step(su, m, Event(signal, r)) ==
      if ReportsEid(m.core, signal)
      then m.(log := m.log + [OwnEidChanged(m.core.eidChange.value, signal.sender,
                                            signal.body.changed[EidProperty].value)])
      else m
  {
    QuietEvent(su, m, Event(signal, r));
    hide Step;
  }

  /** Signals that reach no handler. */
  lemma DroppedEvent(su: Setup, m: Machine, signal: Signal, r: Replies)
    requires !m.core.initialised || signal.body.OtherMember?
             || (signal.sender !in m.core.matchedBuses && !signal.body.InterfacesAdded?)
    ensures Step(su, m, Event(signal, r)) == m
    ensures !EscapingException(su, m.core, signal)
  {
    hide Paths.IsBase, Announces, Withdraws;
    QuietEvent(su, m, Event(signal, r));
    hide Step;
  }

  // ---- Calls and replies ----

  /** Calls by the user, and the start of a coroutine. */
  lemma CallStep(su: Setup, m: Machine, a: Action)
    requires !a.Event? && !a.RunTask? && Resumed(m.core, a).None?
    ensures Step(su, m, a) == m.(core := CoreStep(su, m.core, a))
  {
    hide CoreStep;
    assert m.log + [] == m.log;
  }

  lemma IgnoredReply(su: Setup, m: Machine, a: Action)
    requires a.ServicesReply? || a.OwnerReply? || a.ObjectsReply?
    requires Resumed(m.core, a).None?
    ensures Step(su, m, a) == m
  {
    CallStep(su, m, a);
  }

  lemma ReplyStep(su: Setup, m: Machine, a: Action, job: Job)
    requires Resumed(m.core, a) == Some(job)
    ensures Step(su, m, a) == Machine(
      ResumeCore(su, m.core, a, job),
      if Overwrites(su, m.core, a).Some? then Overwrites(su, m.core, a).value
      else if Inserts(su, m.core, a).Some? then Inserts(su, m.core, a).value + m.endpointMap
      else m.endpointMap,
      m.pending,
      m.log)
  {
    hide ResumeCore, Overwrites, Inserts;
    OtherStep(su, m, a);
    assert m.log + [] == m.log;
  }

  lemma UserCallStep(su: Setup, m: Machine, versions: seq<VersionFields>, callback: Option<Callback>, r: Replies)
    ensures Step(su, m, CallRegisterResponder(versions)) == m.(core := RegisterVersions(su, m.core, versions))
    ensures Step(su, m, CallGetOwnEIDs(callback, r)) == m.(core := InstallOwnEid(m.core, callback, r))
  {
    hide RegisterVersions, InstallOwnEid;
    CallStep(su, m, CallRegisterResponder(versions));
    CallStep(su, m, CallGetOwnEIDs(callback, r));
    hide Step;
  }

  lemma ServicesStep(su: Setup, m: Machine, id: nat, services: Option<seq<string>>, r: Replies)
    requires id in m.core.jobs && m.core.jobs[id].AwaitServices?
    ensures Step(su, m, ServicesReply(id, services, r)) ==
      if services.None? then m.(core := Complete(su, m.core, id, r))
      else m.(core := Resolve(su, m.core, id, services.value, [], {}, r),
              endpointMap := if FirstUsable(services.value, r.busIds) == |services.value| then map[] else m.endpointMap)
  {
    ReplyStep(su, m, ServicesReply(id, services, r), m.core.jobs[id]);
    hide Step, Complete, Resolve, FirstUsable;
  }

  lemma OwnerStep(su: Setup, m: Machine, id: nat, owner: Option<string>, r: Replies)
    requires id in m.core.jobs && m.core.jobs[id].AwaitOwner?
    ensures
      var job := m.core.jobs[id];
      var name := OwnerName(job.service, owner);
      var c := m.core.(matchedBuses := m.core.matchedBuses + {name});
      Step(su, m, OwnerReply(id, owner, r)) ==
      m.(core := Resolve(su, c, id, job.rest, job.buses, job.resolved + {name}, r),
         endpointMap := if FirstUsable(job.rest, r.busIds) == |job.rest| && job.buses == [] then map[]
                        else m.endpointMap)
  {
    ReplyStep(su, m, OwnerReply(id, owner, r), m.core.jobs[id]);
    hide Step, Resolve, FirstUsable, OwnerName;
  }

  /** Where the objects of one bus go: into the map, or on to the next bus of the detection. */
  function Keeping(su: Setup, m: Machine, id: nat, job: Job, found: EndpointMap, r: Replies): Machine
    requires job.AwaitNewBus? || (job.AwaitObjects? && job.buses != [])
  {
    if job.AwaitNewBus?
    then m.(core := m.core.(jobs := m.core.jobs - {id}), endpointMap := found + m.endpointMap)
    else if |job.buses| == 1 then m.(core := Complete(su, m.core, id, r), endpointMap := found)
    else m.(core := Suspend(m.core, id, AwaitObjects(job.buses[1..], found, job.resolved)))
  }

  lemma ObjectsStep(su: Setup, m: Machine, id: nat, objects: Option<seq<ManagedObject>>, r: Replies, job: Job)
    requires Resumed(m.core, ObjectsReply(id, objects, r)) == Some(job)
    ensures
      var bus := RepliedBus(job);
      var c := if objects.None? then m.core else Remember(m.core, bus.service, r);
      var added := ReplyEids(su, m.core, bus, objects);
      Step(su, m, ObjectsReply(id, objects, r)) ==
      Keeping(su, m.(core := c), id, job, if job.AwaitNewBus? then added else job.eids + added, r)
  {
    ReplyStep(su, m, ObjectsReply(id, objects, r), job);
    hide Step, Complete, ReplyEids, Remember;
  }

  // ---- Scans, one element at a time ----

  lemma OneMoreObject(f: Filter, nwid: byte, objects: seq<ManagedObject>, obj: ManagedObject, eids: EndpointMap,
                      bus: Entry)
    ensures
      var before := eids + Contribution(Devices(f, nwid, objects), bus);
      eids + Contribution(Devices(f, nwid, objects + [obj]), bus) ==
      match ObjectEid(f, obj)
      case None => before
      case Some(eid) => before[MakeDeviceID(eid, nwid) := bus]
    ensures Contribution(Devices(f, nwid, []), bus) == map[]
  {
    hide ObjectEid;
    var found := if ObjectEid(f, obj).Some? then {MakeDeviceID(ObjectEid(f, obj).value, nwid)} else {};
    forall d
      ensures d in Devices(f, nwid, objects + [obj]) <==> d in Devices(f, nwid, objects) + found
    {
      if d in Devices(f, nwid, objects) {
        var i :| 0 <= i < |objects| && ObjectEid(f, objects[i]).Some?
                 && d == MakeDeviceID(ObjectEid(f, objects[i]).value, nwid);
        assert (objects + [obj])[i] == objects[i];
      }
      if d in found {
        assert (objects + [obj])[|objects|] == obj;
      }
    }
  }

  lemma NothingFound(eids: EndpointMap, bus: Entry)
    ensures eids + Contribution({}, bus) == eids
    ensures map[] + eids == eids
  {
  }

  lemma NothingScanned(f: Filter, cache: Cache, readings: map<string, byte>)
    ensures ScanAll(f, cache, [], readings) == map[] && ScanCache(cache, [], readings) == cache
  {
  }

  lemma OneMoreLayer(f: Filter, cache: Cache, replies: seq<BusReply>, reply: BusReply, readings: map<string, byte>)
    ensures Layers(f, cache, replies + [reply], readings)
         == Layers(f, cache, replies, readings) + [LayerOf(f, ScanCache(cache, replies, readings), reply)]
  {
    hide LayerOf, ScanCache;
    forall i | 0 <= i <= |replies|
      ensures (replies + [reply])[..i] == replies[..i]
    {
    }
  }

  lemma OneMoreBus(f: Filter, cache: Cache, replies: seq<BusReply>, reply: BusReply, readings: map<string, byte>)
    ensures
      var before := ScanCache(cache, replies, readings);
      var layer := LayerOf(f, before, reply);
      && ScanAll(f, cache, replies + [reply], readings)
         == ScanAll(f, cache, replies, readings) + Contribution(layer.devices, layer.bus)
      && ScanCache(cache, replies + [reply], readings)
         == if reply.objects.None? then before else CacheAfter(before, reply.bus.service, readings)
  {
    hide LayerOf, Contribution, Layers, CacheAfter;
    assert (replies + [reply])[..|replies|] == replies;
    OneMoreLayer(f, cache, replies, reply, readings);
    var layers := Layers(f, cache, replies, readings);
    var layer := LayerOf(f, ScanCache(cache, replies, readings), reply);
    assert (layers + [layer])[..|layers|] == layers;
  }
}

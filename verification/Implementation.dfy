/**
 The tracker as the library has it: an object whose handlers update their fields in place. Every
 method is proved to have the effect the state machine gives for it, so what is proved about runs of
 the machine holds of the object. A coroutine that waits for D-Bus keeps its place in "jobs"; the
 method named after a reply is what the coroutine does from there until it waits again.
 */
module Implementation {
  import opened Wrappers
  import opened DeviceIds
  import opened Names
  import opened Vendor
  import opened Versions
  import opened Dbus
  import opened Scan
  import opened Tracker
  import opened Handlers
  import Steps
  import Paths

  /** The code reads the vendor header of every VDPCI payload it has settings for. */
  predicate HeaderReadable(config: Config, body: Body) {
    body.MessageReceivedSignal? && body.messageType == TypeCode(config.msgType) ==> FilterDefined(config, body.payload)
  }

  /** The actions whose outcome the language defines. */
  predicate Defined(su: Setup, a: Action) {
    match a
    case Event(signal, _) => HeaderReadable(su.filter.config, signal.body)
    case CallRegisterResponder(versions) => versions == [] || CanRegister(su.filter.config)
    case _ => true
  }

  /** Every call throws or is refused. */
  const NO_REPLIES := Replies(map[], map[], map[], {})

  class MCTPImpl {
    const su: Setup
    var endpointMap: EndpointMap
    var matchedBuses: set<string>
    var responderVersions: seq<VersionFields>
    var networkIDCache: Cache
    var isInitialisationsDone: bool
    var extReceiveCallback: Option<Callback>
    var eidChangeCallback: Option<Callback>

    // What Boost.Asio holds: spawned work and suspended coroutines.
    var pending: multiset<Task>
    var jobs: map<nat, Job>
    var nextJob: nat

    // What has been sent and reported so far.
    ghost var sent: map<string, ResponderCall>
    ghost var ownReads: multiset<OwnRead>
    ghost var installations: nat
    ghost var log: seq<Output>

    ghost function State(): Core
      reads this
    {
      Core(matchedBuses, responderVersions, networkIDCache, isInitialisationsDone, extReceiveCallback,
           eidChangeCallback, jobs, nextJob, sent, ownReads, installations)
    }

    ghost function Model(): Machine
      reads this
    {
      Machine(State(), endpointMap, pending, log)
    }

    /** Versions are stored only where they can be sent. */
    ghost predicate Valid()
      reads this
    {
      responderVersions == [] || CanRegister(su.filter.config)
    }

    constructor (filter: Filter, networkChange: Option<Callback>, receive: Option<Callback>)
      ensures su == Setup(filter, networkChange, receive)
      ensures Valid() && Model() == INITIAL
    {
      su := Setup(filter, networkChange, receive);
      endpointMap := map[];
      matchedBuses := {};
      responderVersions := [];
      networkIDCache := map[];
      isInitialisationsDone := false;
      extReceiveCallback, eidChangeCallback := None, None;
      pending := multiset{};
      jobs := map[];
      nextJob := 0;
      sent, ownReads, installations, log := map[], multiset{}, 0, [];
    }

    // ---- Network ids and device ids ----

    /** A miss fills the cache, and still answers 0. */
    method GetNetworkID(service: string, r: Replies) returns (nwid: byte)
      modifies this`networkIDCache
      ensures nwid == NetworkIdOf(old(networkIDCache), service)
      ensures networkIDCache == CacheAfter(old(networkIDCache), service, r.networkIds)
    {
      if service in networkIDCache {
        return networkIDCache[service];
      }
      if service in r.networkIds {
        networkIDCache := networkIDCache[service := r.networkIds[service]];
      }
      return 0;
    }

    /** The network id is looked up before the number is parsed, so a bad number still fills the cache. */
    method GetDeviceIDFromPath(path: string, service: string, r: Replies) returns (device: Result<DeviceID>)
      modifies this`networkIDCache
      ensures device.Ok? <==> Paths.EventPathEid(path).Ok?
      ensures device.Ok? ==>
        device.value == MakeDeviceID(Paths.EventPathEid(path).value, NetworkIdOf(old(networkIDCache), service))
      ensures networkIDCache == if Paths.HasDeviceSlash(path)
                                then CacheAfter(old(networkIDCache), service, r.networkIds) else old(networkIDCache)
    {
      hide Paths.Stoi, NetworkIdOf, CacheAfter;
      var slashLoc := Paths.LastSlash(path);
      if slashLoc < 2 {
        return Err(RuntimeError);
      }
      var networkID := GetNetworkID(service, r);
      match Paths.Stoi(path[slashLoc + 1..], 10) {
        case Ok(n) => return Ok(MakeDeviceID(n % 0x100, networkID));
        case Err(_) => return Err(RuntimeError);
      }
    }

    // ---- Registration and own EIDs ----

    method RegisterResponderTo(service: string, r: Replies) returns (success: bool)
      requires Valid()
      modifies this`sent
      ensures State() == SendVersions(su, old(State()), {service})
      ensures success <==> responderVersions != [] && service in r.accepted
    {
      if responderVersions == [] {
        return false;
      }
      sent := sent[service := ResponderMessage(su.filter.config, responderVersions)];
      return service in r.accepted;
    }

    /** Every matched service is sent the versions; the status is that of the service visited last. */
    method RegisterResponder(versions: seq<VersionFields>, r: Replies) returns (success: bool)
      requires Valid() && (versions == [] || CanRegister(su.filter.config))
      modifies this`responderVersions, this`sent
      ensures Valid()
      ensures State() == RegisterVersions(su, old(State()), versions)
      ensures versions == [] ==> !success
      ensures versions != [] && matchedBuses == {} ==> success
      ensures versions != [] && matchedBuses != {} ==> exists s :: s in matchedBuses && (success <==> s in r.accepted)
    {
      if versions == [] {
        return false;
      }
      responderVersions := versions;
      success := true;
      ghost var start := State();
      ghost var visited: set<string> := {};
      SendVersionsTwice(su, start, {}, {});
      hide SendVersions;
      var rest := matchedBuses;
      while rest != {}
        invariant rest + visited == matchedBuses && rest !! visited
        invariant State() == SendVersions(su, start, visited)
        invariant visited == {} ==> success
        invariant visited != {} ==> exists s :: s in visited && (success <==> s in r.accepted)
        decreases rest
      {
        var service :| service in rest;
        success := RegisterResponderTo(service, r);
        SendVersionsTwice(su, start, visited, {service});
        rest, visited := rest - {service}, visited + {service};
        assert service in visited;
      }
    }

    method TriggerGetOwnEID(service: string, r: Replies)
      modifies this`ownReads
      ensures State() == ReadOwnEids(old(State()), {service}, r)
    {
      if eidChangeCallback.None? {
        return;
      }
      ReadsOfOne(State(), service, r);
      hide OwnReadsOf;
      ownReads := ownReads + multiset{OwnRead(service, installations, Lookup(r.ownEids, service))};
    }

    method GetOwnEIDs(callback: Option<Callback>, r: Replies)
      modifies this`eidChangeCallback, this`installations, this`ownReads
      ensures State() == InstallOwnEid(old(State()), callback, r)
    {
      if callback.None? {
        return;
      }
      eidChangeCallback := callback;
      installations := installations + 1;
      ghost var start := State();
      ghost var visited: set<string> := {};
      ReadOwnEidsTwice(start, {}, {}, r);
      hide ReadOwnEids, OwnReadsOf, Lookup;
      var matchedBusesCopy := matchedBuses;
      while matchedBusesCopy != {}
        invariant visited <= matchedBuses && matchedBusesCopy == matchedBuses - visited
        invariant State() == ReadOwnEids(start, visited, r)
        decreases matchedBusesCopy
      {
        var service :| service in matchedBusesCopy;
        ReadOwnEidsTwice(start, visited, {service}, r);
        TriggerGetOwnEID(service, r);
        matchedBusesCopy, visited := matchedBusesCopy - {service}, visited + {service};
      }
      assert visited == matchedBuses;
    }

    // ---- Event handlers ----

    method OnNewService(service: string, r: Replies)
      requires Valid()
      modifies this`matchedBuses, this`sent, this`ownReads
      ensures State() == NewService(su, old(State()), service, r)
    {
      matchedBuses := matchedBuses + {service};
      var _ := RegisterResponderTo(service, r);
      TriggerGetOwnEID(service, r);
    }

    /** The endpoint is inserted by the spawned task, not here. */
    method OnNewEID(service: string, device: DeviceID)
      modifies this`pending
      ensures pending == old(pending) + Bag(if su.networkChange.Some? then Some(AddDevice(device, service)) else None)
    {
      if su.networkChange.None? {
        return;
      }
      pending := pending + multiset{AddDevice(device, service)};
    }

    method EraseDevice(device: DeviceID) returns (erased: nat)
      modifies this`endpointMap
      ensures endpointMap == old(endpointMap) - {device}
      ensures erased == if device in old(endpointMap) then 1 else 0
    {
      erased := if device in endpointMap then 1 else 0;
      endpointMap := endpointMap - {device};
    }

    method OnEIDRemoved(device: DeviceID)
      modifies this`endpointMap, this`pending
      ensures endpointMap == old(endpointMap) - {device}
      ensures pending == old(pending) + Bag(if device in old(endpointMap) && su.networkChange.Some?
                                            then Some(NotifyRemoved(device)) else None)
    {
      var erased := EraseDevice(device);
      if erased == 0 {
        return;
      }
      if su.networkChange.None? {
        return;
      }
      pending := pending + multiset{NotifyRemoved(device)};
    }

    method OnNewInterface(sender: string, path: string, values: Interfaces, r: Replies) returns (threw: bool)
      requires Valid() && isInitialisationsDone
      modifies this
      ensures Valid()
      ensures Model() == Step(su, old(Model()), Added(sender, path, values, r))
      ensures threw <==> EscapingException(su, old(State()), Added(sender, path, values, r).signal)
    {
      hide Step, EscapingException, NewService, Paths.IsBase, Paths.EventPathEid;
      hide NetworkIdOf, CacheAfter, MakeDeviceID, Bag;
      ghost var m := Model();
      threw := false;
      if Paths.IsBase(path) {
        // Interface added on the base object: a new service.
        BaseAddition(su, m, sender, path, values, r);
        if BindingInterface(su.filter.config.binding) in values {
          OnNewService(sender, r);
        }
        return;
      }
      if sender !in matchedBuses {
        FruitlessAddition(su, m, sender, path, values, r);
        return;
      }
      if Paths.IsEndpoint(path) && SupportedMessageTypes in values {
        match SupportFlag(su.filter.config, values[SupportedMessageTypes]) {
          case Err(_) =>
            FruitlessAddition(su, m, sender, path, values, r);
            threw := true;
          case Ok(false) =>
            FruitlessAddition(su, m, sender, path, values, r);
          case Ok(true) =>
            var device := GetDeviceIDFromPath(path, sender, r);
            if device.Err? {
              FruitlessAddition(su, m, sender, path, values, r);
              threw := true;
            } else {
              FruitfulAddition(su, m, sender, path, values, r);
              OnNewEID(sender, device.value);
            }
        }
      } else {
        FruitlessAddition(su, m, sender, path, values, r);
      }
    }

    /** The endpoint leaves the map at once; what cannot be parsed is logged and forgotten. */
    method OnInterfaceRemoved(sender: string, path: string, interfaces: seq<InterfaceName>, r: Replies)
      requires isInitialisationsDone && sender in matchedBuses
      modifies this
      ensures Model() == Step(su, old(Model()), Removed(sender, path, interfaces, r))
      ensures responderVersions == old(responderVersions)
    {
      BaseIsNoEndpoint(path);
      hide Step, Paths.EventPathEid, Paths.IsBase, Paths.IsEndpoint, Paths.HasDeviceSlash;
      hide NetworkIdOf, CacheAfter, MakeDeviceID, Bag;
      ghost var m := Model();
      if Paths.IsEndpoint(path) {
        if SupportedMessageTypes in interfaces {
          var device := GetDeviceIDFromPath(path, sender, r);
          if device.Ok? {
            FruitfulRemoval(su, m, sender, path, interfaces, r);
            OnEIDRemoved(device.value);
          } else {
            FruitlessRemoval(su, m, sender, path, interfaces, r);
          }
        } else {
          FruitlessRemoval(su, m, sender, path, interfaces, r);
        }
      } else {
        FruitlessRemoval(su, m, sender, path, interfaces, r);
        if Paths.IsBase(path) {
          if BaseInterface in interfaces {
            matchedBuses := matchedBuses - {sender};
          }
        }
      }
    }

    /** The message type, then for VDPCI the raw vendor fields of the header. */
    method PassesFilter(msg: Body) returns (pass: bool)
      requires msg.MessageReceivedSignal? && HeaderReadable(su.filter.config, msg)
      ensures pass <==> FilterDefined(su.filter.config, msg.payload)
                        && Accepts(su.filter.host, su.filter.config, msg.messageType, msg.payload)
    {
      hide Load16, TypeCode, VendorMatch;
      var host, config := su.filter.host, su.filter.config;
      if msg.messageType != TypeCode(config.msgType) {
        return false;
      }
      if config.msgType == Vdpci {
        if config.vendorId.None? || config.vendorMessageType.None? {
          return false;
        }
        var vendor := config.vendorMessageType.value;
        if !VendorMatch(Load16(host, msg.payload[1], msg.payload[2]), Load16(host, msg.payload[3], msg.payload[4]),
                        config.vendorId.value, vendor.value, vendor.mask) {
          return false;
        }
      }
      return true;
    }

    method OnMessageReceived(signal: Signal, r: Replies)
      requires isInitialisationsDone && signal.sender in matchedBuses && signal.body.MessageReceivedSignal?
      requires HeaderReadable(su.filter.config, signal.body)
      modifies this`networkIDCache, this`log
      ensures Model() == Step(su, old(Model()), Event(signal, r))
    {
      MessageEvent(su, Model(), signal, r);
      DeliveriesInTurn(su, State(), signal.sender, signal.body, log);
      hide Step, Accepts, FilterDefined, Deliveries, NetworkIdOf, CacheAfter, MakeDeviceID;
      if su.receive.None? && extReceiveCallback.None? {
        return;
      }
      var msg := signal.body;
      var pass := PassesFilter(msg);
      if !pass {
        return;
      }
      if su.receive.Some? {
        log := log + [Received(su.receive.value, msg.srcEid, msg.tagOwner, msg.msgTag, msg.payload)];
      }
      if extReceiveCallback.Some? {
        var nwid := GetNetworkID(signal.sender, r);
        log := log + [ExtReceived(extReceiveCallback.value, MakeDeviceID(msg.srcEid, nwid), msg.tagOwner, msg.msgTag,
                                  msg.payload)];
      }
    }

    /** std::get<uint8_t> throws when the property is no byte. */
    method OnPropertiesChanged(signal: Signal, r: Replies) returns (threw: bool)
      requires isInitialisationsDone && signal.sender in matchedBuses && signal.body.PropertiesChanged?
      modifies this`log
      ensures Model() == Step(su, old(Model()), Event(signal, r))
      ensures threw <==> EscapingException(su, old(State()), signal)
    {
      PropertyEvent(su, Model(), signal, r);
      hide Step;
      if eidChangeCallback.Some? && signal.body.intf == BaseInterface && EidProperty in signal.body.changed {
        match signal.body.changed[EidProperty] {
          case Byte(eid) => log := log + [OwnEidChanged(eidChangeCallback.value, signal.sender, eid)];
          case _ => return true;
        }
      }
      return false;
    }

    method OnMCTPEvent(signal: Signal, r: Replies) returns (threw: bool)
      requires Valid() && HeaderReadable(su.filter.config, signal.body)
      modifies this
      ensures Valid()
      ensures Model() == Step(su, old(Model()), Event(signal, r))
      ensures threw <==> EscapingException(su, old(State()), signal)
    {
      ghost var m := Model();
      threw := false;
      if !isInitialisationsDone || signal.body.OtherMember? {
        DroppedEvent(su, m, signal, r);
      }
      hide Step;
      if !isInitialisationsDone {
        return;
      }
      if signal.body.InterfacesAdded? {
        threw := OnNewInterface(signal.sender, signal.body.path, signal.body.values, r);
        return;
      }
      if signal.sender !in matchedBuses {
        DroppedEvent(su, m, signal, r);
        return;
      }
      match signal.body {
        case InterfacesRemoved(path, interfaces) => OnInterfaceRemoved(signal.sender, path, interfaces, r);
        case MessageReceivedSignal(_, _, _, _, _) => OnMessageReceived(signal, r);
        case PropertiesChanged(_, _) => threw := OnPropertiesChanged(signal, r);
        case OtherMember =>
      }
    }

    // ---- Detection ----

    /** The coroutine runs until it has asked for the services. */
    method DetectMctpEndpoints()
      modifies this`jobs, this`nextJob
      ensures Model() == Step(su, old(Model()), BeginDetection)
    {
      CallStep(su, Model(), BeginDetection);
      hide Step;
      jobs := jobs[nextJob := AwaitServices];
      nextJob := nextJob + 1;
    }

    /** A service whose bus id cannot be read is not scanned. */
    method AddToEidMap(service: string, r: Replies)
      modifies this`jobs, this`nextJob
      ensures Model() == Step(su, old(Model()), BeginAddToEidMap(service, r))
    {
      CallStep(su, Model(), BeginAddToEidMap(service, r));
      hide Step;
      if service !in r.busIds {
        return;
      }
      jobs := jobs[nextJob := AwaitNewBus(Entry(r.busIds[service], service))];
      nextJob := nextJob + 1;
    }

    /** What is left to do once the map is built: an earlier registration and callback are served again. */
    method FinishDetection(id: nat, r: Replies)
      requires Valid()
      modifies this`isInitialisationsDone, this`jobs, this`responderVersions, this`sent, this`eidChangeCallback,
               this`installations, this`ownReads
      ensures Valid()
      ensures State() == Complete(su, old(State()), id, r)
    {
      hide SendVersions, ReadOwnEids;
      jobs := jobs - {id};
      isInitialisationsDone := true;
      if |responderVersions| > 0 {
        var _ := RegisterResponder(responderVersions, r);
      }
      if eidChangeCallback.Some? {
        GetOwnEIDs(eidChangeCallback, r);
      }
    }

    /** The loop over the services found, up to the next one whose owner must be asked for. */
    method SearchBuses(id: nat, services: seq<string>, buses: seq<Entry>, resolved: set<string>, r: Replies)
      requires Valid()
      modifies this`isInitialisationsDone, this`jobs, this`responderVersions, this`sent, this`eidChangeCallback,
               this`installations, this`ownReads, this`endpointMap
      ensures Valid()
      ensures State() == Resolve(su, old(State()), id, services, buses, resolved, r)
      ensures endpointMap == if FirstUsable(services, r.busIds) == |services| && buses == [] then map[]
                             else old(endpointMap)
    {
      hide Complete;
      var k := 0;
      while k < |services|
        invariant k <= FirstUsable(services, r.busIds)
        invariant Model() == old(Model())
      {
        if services[k] in r.busIds {
          jobs := jobs[id := AwaitOwner(services[k], services[k + 1..],
                                        buses + [Entry(r.busIds[services[k]], services[k])], resolved)];
          return;
        }
        k := k + 1;
      }
      if buses == [] {
        endpointMap := map[];
        FinishDetection(id, r);
      } else {
        isInitialisationsDone := true;
        jobs := jobs[id := AwaitObjects(buses, map[], resolved)];
      }
    }

    /** The objects of one bus; one that throws is logged and skipped. */
    method ScanObjects(eids: EndpointMap, bus: Entry, nwid: byte, objects: seq<ManagedObject>)
      returns (found: EndpointMap)
      ensures found == eids + Contribution(Devices(su.filter, nwid, objects), bus)
    {
      hide TryObject;
      found := eids;
      var i := 0;
      while i < |objects|
        invariant i <= |objects|
        invariant found == eids + Contribution(Devices(su.filter, nwid, objects[..i]), bus)
      {
        OneMoreObject(su.filter, nwid, objects[..i], objects[i], eids, bus);
        assert objects[..i + 1] == objects[..i] + [objects[i]];
        hide Devices, Contribution;
        var obj := objects[i];
        i := i + 1;
        if EndpointInterface !in obj.interfaces {
          continue;
        }
        match TryObject(su.filter, obj) {
          case Ok(Some(eid)) => found := found[MakeDeviceID(eid, nwid) := bus];
          case _ =>
        }
      }
      assert objects[..|objects|] == objects;
    }

    /** The body of the scan's outer loop: a bus that answers with an error is skipped. */
    method ScanBus(eids: EndpointMap, reply: BusReply, r: Replies) returns (found: EndpointMap)
      modifies this`networkIDCache
      ensures
        var layer := LayerOf(su.filter, old(networkIDCache), reply);
        found == eids + Contribution(layer.devices, layer.bus)
      ensures networkIDCache == if reply.objects.None? then old(networkIDCache)
                                else CacheAfter(old(networkIDCache), reply.bus.service, r.networkIds)
    {
      NothingFound(eids, reply.bus);
      hide Devices, Contribution, NetworkIdOf, CacheAfter;
      if reply.objects.None? {
        return eids;
      }
      var nwid := GetNetworkID(reply.bus.service, r);
      found := ScanObjects(eids, reply.bus, nwid, reply.objects.value);
    }

    /** A scan whose replies are given: bus after bus, object after object. */
    method BuildMatchingEndpointMap(replies: seq<BusReply>, r: Replies) returns (eids: EndpointMap)
      modifies this`networkIDCache
      ensures eids == ScanAll(su.filter, old(networkIDCache), replies, r.networkIds)
      ensures networkIDCache == ScanCache(old(networkIDCache), replies, r.networkIds)
    {
      hide ScanAll, ScanCache, LayerOf, Contribution, CacheAfter;
      NothingScanned(su.filter, networkIDCache, r.networkIds);
      assert replies[..0] == [];
      eids := map[];
      var i := 0;
      while i < |replies|
        invariant i <= |replies|
        invariant eids == ScanAll(su.filter, old(networkIDCache), replies[..i], r.networkIds)
        invariant networkIDCache == ScanCache(old(networkIDCache), replies[..i], r.networkIds)
      {
        var reply := replies[i];
        OneMoreBus(su.filter, old(networkIDCache), replies[..i], reply, r.networkIds);
        assert replies[..i + 1] == replies[..i] + [reply];
        eids := ScanBus(eids, reply, r);
        i := i + 1;
      }
      assert replies[..|replies|] == replies;
    }

    method OnServicesReply(id: nat, services: Option<seq<string>>, r: Replies)
      requires Valid()
      modifies this
      ensures Valid()
      ensures Model() == Step(su, old(Model()), ServicesReply(id, services, r))
    {
      if id !in jobs || !jobs[id].AwaitServices? {
        IgnoredReply(su, Model(), ServicesReply(id, services, r));
        return;
      }
      hide Step, Resolve, Complete, FirstUsable, Resumed;
      ServicesStep(su, Model(), id, services, r);
      if services.None? {
        FinishDetection(id, r);
      } else {
        SearchBuses(id, services.value, [], {}, r);
      }
    }

    /** addUniqueNameToMatchedServices, and the rest of the loop over the services. */
    method OnOwnerReply(id: nat, owner: Option<string>, r: Replies)
      requires Valid()
      modifies this
      ensures Valid()
      ensures Model() == Step(su, old(Model()), OwnerReply(id, owner, r))
    {
      if id !in jobs || !jobs[id].AwaitOwner? {
        IgnoredReply(su, Model(), OwnerReply(id, owner, r));
        return;
      }
      hide Step, Resolve, FirstUsable, Resumed, CanRegister;
      OwnerStep(su, Model(), id, owner, r);
      var job := jobs[id];
      var uniqueName := if owner.Some? then owner.value else job.service;
      ghost var c := State();
      matchedBuses := matchedBuses + {uniqueName};
      assert State() == c.(matchedBuses := c.matchedBuses + {OwnerName(job.service, owner)});
      hide OwnerName;
      SearchBuses(id, job.rest, job.buses, job.resolved + {uniqueName}, r);
    }

    /** Where the objects of one bus go: into the map, or on to the next bus. */
    method KeepScan(id: nat, job: Job, found: EndpointMap, r: Replies)
      requires Valid() && (job.AwaitNewBus? || (job.AwaitObjects? && job.buses != []))
      modifies this
      ensures Valid()
      ensures Model() == old(Keeping(su, Model(), id, job, found, r))
    {
      hide Complete;
      if job.AwaitNewBus? {
        // insert: entries already there stay.
        endpointMap := found + endpointMap;
        jobs := jobs - {id};
      } else if |job.buses| == 1 {
        endpointMap := found;
        FinishDetection(id, r);
      } else {
        jobs := jobs[id := AwaitObjects(job.buses[1..], found, job.resolved)];
      }
    }

    /** One round of the scan's outer loop. */
    method OnObjectsReply(id: nat, objects: Option<seq<ManagedObject>>, r: Replies)
      requires Valid()
      modifies this
      ensures Valid()
      ensures Model() == Step(su, old(Model()), ObjectsReply(id, objects, r))
    {
      if id !in jobs || !(jobs[id].AwaitNewBus? || (jobs[id].AwaitObjects? && jobs[id].buses != [])) {
        IgnoredReply(su, Model(), ObjectsReply(id, objects, r));
        return;
      }
      var job := jobs[id];
      var bus := RepliedBus(job);
      ghost var m := Model();
      hide Step, Keeping, LayerOf, Contribution, CacheAfter;
      ObjectsStep(su, m, id, objects, r, job);
      hide Resumed, RepliedBus;
      var eids := if job.AwaitNewBus? then map[] else job.eids;
      ghost var added := ReplyEids(su, m.core, bus, objects);
      NothingFound(added, bus);
      eids := ScanBus(eids, BusReply(bus, objects), r);
      assert Model() == m.(core := if objects.None? then m.core else Remember(m.core, bus.service, r));
      assert eids == if job.AwaitNewBus? then added else job.eids + added;
      KeepScan(id, job, eids, r);
    }

    // ---- Spawned work and user calls ----

    method RunSpawned(task: Task)
      modifies this`endpointMap, this`pending, this`log
      ensures Model() == Step(su, old(Model()), RunTask(task))
    {
      hide Step;
      if task !in pending {
        Steps.IdleTask(su, Model(), task);
        return;
      }
      Steps.TaskStep(su, Model(), task);
      pending := pending - multiset{task};
      match task {
        case AddDevice(device, service) =>
          if device !in endpointMap {
            endpointMap := endpointMap[device := Entry(0, service)];
          }
          log := log + [DeviceAdded(device.MctpEID(), device)];
        case NotifyRemoved(device) =>
          log := log + [DeviceRemoved(device.MctpEID(), device)];
      }
    }

    /** Refused when a plain receive callback was given at construction. */
    method SetExtendedReceiveCallback(callback: Option<Callback>)
      modifies this`extReceiveCallback
      ensures Model() == Step(su, old(Model()), CallSetExtendedReceive(callback))
    {
      CallStep(su, Model(), CallSetExtendedReceive(callback));
      hide Step;
      if su.receive.Some? {
        return;
      }
      extReceiveCallback := callback;
    }

    // ---- Any run ----

    method Dispatch(a: Action)
      requires Valid() && Defined(su, a)
      modifies this
      ensures Valid()
      ensures Model() == Step(su, old(Model()), a)
    {
      hide Step, RegisterVersions, InstallOwnEid;
      match a {
        case Event(signal, r) => var _ := OnMCTPEvent(signal, r);
        case RunTask(task) => RunSpawned(task);
        case BeginDetection => DetectMctpEndpoints();
        case ServicesReply(id, services, r) => OnServicesReply(id, services, r);
        case OwnerReply(id, owner, r) => OnOwnerReply(id, owner, r);
        case ObjectsReply(id, objects, r) => OnObjectsReply(id, objects, r);
        case BeginAddToEidMap(service, r) => AddToEidMap(service, r);
        case CallRegisterResponder(versions) =>
          UserCallStep(su, Model(), versions, None, NO_REPLIES);
          var _ := RegisterResponder(versions, NO_REPLIES);
        case CallGetOwnEIDs(callback, r) =>
          UserCallStep(su, Model(), [], callback, r);
          GetOwnEIDs(callback, r);
        case CallSetExtendedReceive(callback) => SetExtendedReceiveCallback(callback);
      }
    }

    /** Whatever is proved of every run of the machine holds of the object after any sequence of calls. */
    method Execute(actions: seq<Action>)
      requires Valid() && forall i :: 0 <= i < |actions| ==> Defined(su, actions[i])
      modifies this
      ensures Valid()
      ensures Model() == Run(su, old(Model()), actions)
    {
      hide Step, Defined;
      var i := 0;
      while i < |actions|
        invariant i <= |actions|
        invariant Valid()
        invariant Model() == Run(su, old(Model()), actions[..i])
      {
        RunAppend(su, old(Model()), actions[..i], actions[i]);
        assert actions[..i + 1] == actions[..i] + [actions[i]];
        Dispatch(actions[i]);
        i := i + 1;
      }
      assert actions[..|actions|] == actions;
    }
  }
}

/**
 The endpoint tracker as a state machine. A machine has the fields of MCTPImpl, the work Boost.Asio
 keeps for it (spawned tasks, suspended coroutines) and the calls it has made. Step gives the effect
 of one action, separately for the control state, the endpoint map, the spawned tasks and the log.
 An action that does not apply (a reply nobody waits for, a task that is not pending) changes
 nothing; an exception leaves the state it was thrown in. The methods of class MCTPImpl have these
 effects.
 */
module Tracker {
  import opened Wrappers
  import opened DeviceIds
  import opened Names
  import opened Vendor
  import opened Versions
  import opened Dbus
  import opened Scan
  import Paths

  /** User callbacks are told apart by number. */
  type Callback = nat

  /** What a tracker is constructed with. */
  datatype Setup = Setup(filter: Filter, networkChange: Option<Callback>, receive: Option<Callback>)

  /** Work started with boost::asio::spawn that has not run yet. */
  datatype Task = AddDevice(device: DeviceID, service: string) | NotifyRemoved(device: DeviceID)

  /**
   A coroutine suspended at a D-Bus call. "resolved" collects the owners a detection has put into
   matchedBuses so far; it is bookkeeping for the coverage theorems.
   */
  datatype Job =
    | AwaitServices
    | AwaitOwner(service: string, rest: seq<string>, buses: seq<Entry>, resolved: set<string>)
    | AwaitObjects(buses: seq<Entry>, eids: EndpointMap, resolved: set<string>)
    | AwaitNewBus(bus: Entry)

  /** What the user's callbacks have been called with. */
  datatype Output =
    | DeviceAdded(eid: byte, device: DeviceID)
    | DeviceRemoved(eid: byte, device: DeviceID)
    | Received(callback: Callback, srcEid: byte, tagOwner: bool, msgTag: bv8, payload: seq<bv8>)
    | ExtReceived(callback: Callback, source: DeviceID, tagOwner: bool, msgTag: bv8, payload: seq<bv8>)
    | OwnEidChanged(callback: Callback, service: string, eid: byte)

  /** The registration message sent to a service. */
  datatype ResponderCall =
    | RegisterResponder(messageType: bv8, version: seq<bv8>)
    | RegisterVdpciResponder(vendorId: bv16, cmdSetType: bv16, version: seq<bv8>)

  /**
   A read of a service's own EID: under which installation of the callback, and what was read. The
   callback is called with what was read, and not called when reading throws.
   */
  datatype OwnRead = OwnRead(service: string, installation: nat, reported: Option<byte>)

  /** Everything but the endpoint map, the spawned tasks and the log. */
  datatype Core = Core(
    matchedBuses: set<string>,
    responderVersions: seq<VersionFields>,
    networkIDCache: Cache,
    initialised: bool,
    extReceive: Option<Callback>,
    eidChange: Option<Callback>,
    jobs: map<nat, Job>,
    nextJob: nat,
    sent: map<string, ResponderCall>,     // last registration attempt per service
    ownReads: multiset<OwnRead>,          // all own-EID reads, in whatever order
    installations: nat)                   // how often an own-EID callback was installed

  datatype Machine = Machine(core: Core, endpointMap: EndpointMap, pending: multiset<Task>, log: seq<Output>)

  const INITIAL_CORE := Core({}, [], map[], false, None, None, map[], 0, map[], multiset{}, 0)
  const INITIAL := Machine(INITIAL_CORE, map[], multiset{}, [])

  datatype Action =
    | Event(signal: Signal, replies: Replies)
    | RunTask(task: Task)
    | BeginDetection
    | ServicesReply(job: nat, services: Option<seq<string>>, replies: Replies)
    | OwnerReply(job: nat, owner: Option<string>, replies: Replies)
    | ObjectsReply(job: nat, objects: Option<seq<ManagedObject>>, replies: Replies)
    | BeginAddToEidMap(service: string, replies: Replies)
    | CallRegisterResponder(versions: seq<VersionFields>)
    | CallGetOwnEIDs(callback: Option<Callback>, replies: Replies)
    | CallSetExtendedReceive(callback: Option<Callback>)

  function Lookup<K, V>(m: map<K, V>, k: K): Option<V> {
    if k in m then Some(m[k]) else None
  }

  // ---- Registration and own EIDs ----

  /** Registering dereferences both vendor settings of a VDPCI configuration. */
  predicate CanRegister(config: Config) {
    config.msgType == Vdpci ==> config.VendorComplete()
  }

  function ResponderMessage(config: Config, versions: seq<VersionFields>): ResponderCall
    requires CanRegister(config)
  {
    if config.msgType == Vdpci then
      RegisterVdpciResponder(config.vendorId.value, config.vendorMessageType.value.CmdSetType(), Encode(versions))
    else RegisterResponder(TypeCode(config.msgType), Encode(versions))
  }

  /** The stored versions are sent to each of the given services. */
  function SendVersions(su: Setup, c: Core, services: set<string>): (n: Core)
    ensures n == c.(sent := n.sent)
  {
    if c.responderVersions == [] || !CanRegister(su.filter.config) then c
    else c.(sent := c.sent + map s | s in services :: ResponderMessage(su.filter.config, c.responderVersions))
  }

  /** New versions are stored and sent to every matched service; an empty list is refused. */
  function RegisterVersions(su: Setup, c: Core, versions: seq<VersionFields>): (n: Core)
    ensures n == c.(responderVersions := n.responderVersions, sent := n.sent)
  {
    if versions == [] then c
    else SendVersions(su, c.(responderVersions := versions), c.matchedBuses)
  }

  /** The own EID of each given service is read once and reported, when a callback is installed. */
  function ReadOwnEids(c: Core, services: set<string>, r: Replies): (n: Core)
    ensures n == c.(ownReads := n.ownReads)
  {
    if c.eidChange.None? then c
    else c.(ownReads := c.ownReads + OwnReadsOf(c, services, r))
  }

  function OwnReadsOf(c: Core, services: set<string>, r: Replies): multiset<OwnRead> {
    multiset(set s | s in services :: OwnRead(s, c.installations, Lookup(r.ownEids, s)))
  }

  /** A callback is installed and told the own EID of every matched service. */
  function InstallOwnEid(c: Core, callback: Option<Callback>, r: Replies): (n: Core)
    ensures n == c.(eidChange := n.eidChange, ownReads := n.ownReads, installations := n.installations)
  {
    if callback.None? then c
    else ReadOwnEids(c.(eidChange := callback, installations := c.installations + 1), c.matchedBuses, r)
  }

  // ---- Events ----

  function NewService(su: Setup, c: Core, service: string, r: Replies): (n: Core)
    ensures n == c.(matchedBuses := n.matchedBuses, sent := n.sent, ownReads := n.ownReads)
  {
    var c1 := c.(matchedBuses := c.matchedBuses + {service});
    ReadOwnEids(SendVersions(su, c1, {service}), {service}, r)
  }

  /** getNetworkID's effect; its result is NetworkIdOf on the cache before the call. */
  function Remember(c: Core, service: string, r: Replies): Core {
    c.(networkIDCache := CacheAfter(c.networkIDCache, service, r.networkIds))
  }

  /** Whether the interfaces added on a path announce an endpoint; Err when looking at them throws. */
  function Announces(config: Config, path: string, values: Interfaces): Result<bool> {
    if !Paths.IsEndpoint(path) || SupportedMessageTypes !in values then Ok(false)
    else SupportFlag(config, values[SupportedMessageTypes])
  }

  /** Whether the interfaces removed from a path withdraw an endpoint. */
  predicate Withdraws(path: string, interfaces: seq<InterfaceName>) {
    Paths.IsEndpoint(path) && SupportedMessageTypes in interfaces
  }

  /** The path of an endpoint signal that a handler goes on to parse. */
  function EndpointPath(su: Setup, c: Core, signal: Signal): Option<string> {
    if !c.initialised || signal.sender !in c.matchedBuses then None
    else match signal.body
      case InterfacesAdded(path, values) =>
        if !Paths.IsBase(path) && Announces(su.filter.config, path, values) == Ok(true) then Some(path) else None
      case InterfacesRemoved(path, interfaces) =>
        if Withdraws(path, interfaces) then Some(path) else None
      case _ => None
  }

  /** The device an endpoint signal is about; None if its path does not parse. */
  function SignalDevice(su: Setup, c: Core, signal: Signal): Option<DeviceID> {
    var path := EndpointPath(su, c, signal);
    if path.Some? && Paths.EventPathEid(path.value).Ok?
    then Some(MakeDeviceID(Paths.EventPathEid(path.value).value, NetworkIdOf(c.networkIDCache, signal.sender)))
    else None
  }

  /** The device a handled signal announces. */
  function AddedDevice(su: Setup, c: Core, a: Action): Option<DeviceID> {
    if a.Event? && a.signal.body.InterfacesAdded? then SignalDevice(su, c, a.signal) else None
  }

  /** The device a handled signal withdraws. */
  function RemovedDevice(su: Setup, c: Core, a: Action): Option<DeviceID> {
    if a.Event? && a.signal.body.InterfacesRemoved? then SignalDevice(su, c, a.signal) else None
  }

  /** A message that a callback is set for and the filter lets through. */
  predicate Delivers(su: Setup, c: Core, signal: Signal) {
    && c.initialised && signal.sender in c.matchedBuses && signal.body.MessageReceivedSignal?
    && (su.receive.Some? || c.extReceive.Some?)
    && FilterDefined(su.filter.config, signal.body.payload)
    && Accepts(su.filter.host, su.filter.config, signal.body.messageType, signal.body.payload)
  }

  function EventCore(su: Setup, c: Core, signal: Signal, r: Replies): Core {
    var path := EndpointPath(su, c, signal);
    if path.Some? then
      // The network id is looked up once the path is seen to have a usable slash.
      if Paths.HasDeviceSlash(path.value) then Remember(c, signal.sender, r) else c
    else if !c.initialised then c
    else match signal.body
      case InterfacesAdded(path, values) =>
        if Paths.IsBase(path) && BindingInterface(su.filter.config.binding) in values
        then NewService(su, c, signal.sender, r) else c
      case InterfacesRemoved(path, interfaces) =>
        if Paths.IsBase(path) && BaseInterface in interfaces
        then c.(matchedBuses := c.matchedBuses - {signal.sender}) else c
      case MessageReceivedSignal(_, _, _, _, _) =>
        if Delivers(su, c, signal) && c.extReceive.Some? then Remember(c, signal.sender, r) else c
      case _ => c
  }

  // ---- Detection and addToEidMap ----

  /** The first service whose bus id can be read; those before it are dropped. */
  function FirstUsable(services: seq<string>, busIds: map<string, nat>): (k: nat)
    ensures k <= |services|
    ensures forall i :: 0 <= i < k ==> services[i] !in busIds
    ensures k < |services| ==> services[k] in busIds
  {
    if services == [] || services[0] in busIds then 0 else 1 + FirstUsable(services[1..], busIds)
  }

  function Suspend(c: Core, id: nat, job: Job): Core {
    c.(jobs := c.jobs[id := job])
  }

  function Start(c: Core, job: Job): Core {
    Suspend(c, c.nextJob, job).(nextJob := c.nextJob + 1)
  }

  /** The end of a detection: responders and the own-EID callback are served again. */
  function Complete(su: Setup, c: Core, id: nat, r: Replies): (n: Core)
    ensures n == c.(initialised := n.initialised, jobs := n.jobs, sent := n.sent, ownReads := n.ownReads,
                    installations := n.installations)
  {
    var c1 := c.(jobs := c.jobs - {id}, initialised := true);
    InstallOwnEid(RegisterVersions(su, c1, c1.responderVersions), c1.eidChange, r)
  }

  /** The search for buses goes on with the remaining services until it must wait. */
  function Resolve(su: Setup, c: Core, id: nat, services: seq<string>, buses: seq<Entry>, resolved: set<string>,
                   r: Replies): (n: Core)
    ensures n == c.(initialised := n.initialised, jobs := n.jobs, sent := n.sent, ownReads := n.ownReads,
                    installations := n.installations)
  {
    var k := FirstUsable(services, r.busIds);
    if k < |services| then
      Suspend(c, id, AwaitOwner(services[k], services[k + 1..], buses + [Entry(r.busIds[services[k]], services[k])],
                                resolved))
    else if buses == [] then Complete(su, c, id, r)
    else Suspend(c.(initialised := true), id, AwaitObjects(buses, map[], resolved))
  }

  /** The job an action resumes, if the action is the reply it waits for. */
  function Resumed(c: Core, a: Action): Option<Job> {
    match a
    case ServicesReply(id, _, _) => if id in c.jobs && c.jobs[id].AwaitServices? then Some(c.jobs[id]) else None
    case OwnerReply(id, _, _) => if id in c.jobs && c.jobs[id].AwaitOwner? then Some(c.jobs[id]) else None
    case ObjectsReply(id, _, _) =>
      if id in c.jobs && (c.jobs[id].AwaitNewBus? || (c.jobs[id].AwaitObjects? && c.jobs[id].buses != []))
      then Some(c.jobs[id]) else None
    case _ => None
  }

  /** The owner of a service, or the name asked for when there is no answer. */
  function OwnerName(service: string, owner: Option<string>): string {
    if owner.Some? then owner.value else service
  }

  /** The bus a GetManagedObjects reply comes from. */
  function RepliedBus(job: Job): Entry
    requires job.AwaitNewBus? || (job.AwaitObjects? && job.buses != [])
  {
    if job.AwaitNewBus? then job.bus else job.buses[0]
  }

  /** What a GetManagedObjects reply adds to the map under construction. */
  function ReplyEids(su: Setup, c: Core, bus: Entry, objects: Option<seq<ManagedObject>>): EndpointMap {
    var layer := LayerOf(su.filter, c.networkIDCache, BusReply(bus, objects));
    Contribution(layer.devices, layer.bus)
  }

  function ResumeCore(su: Setup, c: Core, a: Action, job: Job): Core
    requires Resumed(c, a) == Some(job)
  {
    match a
    case ServicesReply(id, services, r) =>
      if services.None? then Complete(su, c, id, r) else Resolve(su, c, id, services.value, [], {}, r)
    case OwnerReply(id, owner, r) =>
      var name := OwnerName(job.service, owner);
      Resolve(su, c.(matchedBuses := c.matchedBuses + {name}), id, job.rest, job.buses, job.resolved + {name}, r)
    case ObjectsReply(id, objects, r) =>
      var bus := RepliedBus(job);
      var c1 := if objects.None? then c else Remember(c, bus.service, r);
      if job.AwaitNewBus? then c1.(jobs := c1.jobs - {id})
      else if |job.buses| == 1 then Complete(su, c1, id, r)
      else Suspend(c1, id, AwaitObjects(job.buses[1..], job.eids + ReplyEids(su, c, bus, objects), job.resolved))
  }

  /** A detection ends with this action and replaces the map by the given one. */
  function Overwrites(su: Setup, c: Core, a: Action): Option<EndpointMap> {
    var job := Resumed(c, a);
    if job.None? then None
    else match a
      case ServicesReply(_, services, r) =>
        if services.Some? && FirstUsable(services.value, r.busIds) == |services.value| then Some(map[]) else None
      case OwnerReply(_, _, r) =>
        if job.value.buses == [] && FirstUsable(job.value.rest, r.busIds) == |job.value.rest|
        then Some(map[]) else None
      case ObjectsReply(_, objects, _) =>
        if job.value.AwaitObjects? && |job.value.buses| == 1
        then Some(job.value.eids + ReplyEids(su, c, job.value.buses[0], objects)) else None
  }

  /** addToEidMap ends with this action and inserts the given map. */
  function Inserts(su: Setup, c: Core, a: Action): Option<EndpointMap> {
    var job := Resumed(c, a);
    if job.Some? && job.value.AwaitNewBus? && a.ObjectsReply?
    then Some(ReplyEids(su, c, job.value.bus, a.objects)) else None
  }

  // ---- One step ----

  function CoreStep(su: Setup, c: Core, a: Action): Core {
    match a
    case Event(signal, r) => EventCore(su, c, signal, r)
    case RunTask(_) => c
    case BeginDetection => Start(c, AwaitServices)
    case BeginAddToEidMap(service, r) =>
      if service in r.busIds then Start(c, AwaitNewBus(Entry(r.busIds[service], service))) else c
    case CallRegisterResponder(versions) => RegisterVersions(su, c, versions)
    case CallGetOwnEIDs(callback, r) => InstallOwnEid(c, callback, r)
    case CallSetExtendedReceive(callback) => if su.receive.Some? then c else c.(extReceive := callback)
    case _ => if Resumed(c, a).Some? then ResumeCore(su, c, a, Resumed(c, a).value) else c
  }

  /** The spawned insertion this action runs. */
  predicate RunsAdd(m: Machine, a: Action) {
    a.RunTask? && a.task in m.pending && a.task.AddDevice?
  }

  /** unordered_map::emplace: an existing entry stays. */
  function Emplace(eids: EndpointMap, device: DeviceID, entry: Entry): EndpointMap {
    if device in eids then eids else eids[device := entry]
  }

  /** The map is replaced by a detection, extended by addToEidMap or a spawned insertion, reduced by a removal. */
  function MapStep(su: Setup, m: Machine, a: Action): EndpointMap {
    if Overwrites(su, m.core, a).Some? then Overwrites(su, m.core, a).value
    else if Inserts(su, m.core, a).Some? then Inserts(su, m.core, a).value + m.endpointMap
    else if RunsAdd(m, a) then Emplace(m.endpointMap, a.task.device, Entry(0, a.task.service))
    else if RemovedDevice(su, m.core, a).Some? then m.endpointMap - {RemovedDevice(su, m.core, a).value}
    else m.endpointMap
  }

  /** The insertion an announcement spawns: nothing is inserted without a reconfiguration callback. */
  function SpawnedAdd(su: Setup, c: Core, a: Action): Option<Task> {
    if AddedDevice(su, c, a).Some? && su.networkChange.Some?
    then Some(AddDevice(AddedDevice(su, c, a).value, a.signal.sender)) else None
  }

  /** The notification a removal spawns: only when the device was in the map, and there is a callback. */
  function SpawnedNotice(su: Setup, m: Machine, a: Action): Option<Task> {
    var d := RemovedDevice(su, m.core, a);
    if d.Some? && d.value in m.endpointMap && su.networkChange.Some? then Some(NotifyRemoved(d.value)) else None
  }

  function Bag(task: Option<Task>): multiset<Task> {
    if task.Some? then multiset{task.value} else multiset{}
  }

  function PendingStep(su: Setup, m: Machine, a: Action): multiset<Task> {
    (if a.RunTask? then m.pending - multiset{a.task} else m.pending)
    + Bag(SpawnedAdd(su, m.core, a)) + Bag(SpawnedNotice(su, m, a))
  }

  /** The notification a task gives when it runs. */
  function Notice(task: Task): Output {
    match task
    case AddDevice(d, _) => DeviceAdded(d.MctpEID(), d)
    case NotifyRemoved(d) => DeviceRemoved(d.MctpEID(), d)
  }

  /** Both receive callbacks are served, each if it is set. */
  function Deliveries(su: Setup, c: Core, sender: string, msg: Body): seq<Output>
    requires msg.MessageReceivedSignal?
  {
    (if su.receive.None? then []
     else [Received(su.receive.value, msg.srcEid, msg.tagOwner, msg.msgTag, msg.payload)])
    + (if c.extReceive.None? then []
       else [ExtReceived(c.extReceive.value, MakeDeviceID(msg.srcEid, NetworkIdOf(c.networkIDCache, sender)),
                         msg.tagOwner, msg.msgTag, msg.payload)])
  }

  /** A property change that is passed on to the own-EID callback. */
  predicate ReportsEid(c: Core, signal: Signal) {
    && c.initialised && signal.sender in c.matchedBuses && signal.body.PropertiesChanged?
    && c.eidChange.Some? && signal.body.intf == BaseInterface
    && EidProperty in signal.body.changed && signal.body.changed[EidProperty].Byte?
  }

  /** What an action other than running a task calls back with. */
  function Outputs(su: Setup, c: Core, a: Action): seq<Output> {
    if !a.Event? then []
    else if Delivers(su, c, a.signal) then Deliveries(su, c, a.signal.sender, a.signal.body)
    else if ReportsEid(c, a.signal)
    then [OwnEidChanged(c.eidChange.value, a.signal.sender, a.signal.body.changed[EidProperty].value)]
    else []
  }

  function LogStep(su: Setup, m: Machine, a: Action): seq<Output> {
    if a.RunTask? && a.task in m.pending then m.log + [Notice(a.task)] else m.log + Outputs(su, m.core, a)
  }

  function Step(su: Setup, m: Machine, a: Action): Machine {
    Machine(CoreStep(su, m.core, a), MapStep(su, m, a), PendingStep(su, m, a), LogStep(su, m, a))
  }

  // ---- Runs ----

  function Run(su: Setup, m: Machine, actions: seq<Action>): Machine {
    if actions == [] then m
    else Step(su, Run(su, m, actions[..|actions| - 1]), actions[|actions| - 1])
  }

  /** The machine after the first i actions. */
  function At(su: Setup, m: Machine, actions: seq<Action>, i: nat): Machine
    requires i <= |actions|
  {
    Run(su, m, actions[..i])
  }

  lemma RunAppend(su: Setup, m: Machine, actions: seq<Action>, a: Action)
    ensures Run(su, m, actions + [a]) == Step(su, Run(su, m, actions), a)
  {
    assert (actions + [a])[..|actions|] == actions;
  }

  /** Handlers that end in an exception nothing catches: their step stops at the throw. */
  predicate EscapingException(su: Setup, c: Core, signal: Signal) {
    && c.initialised && signal.sender in c.matchedBuses
    && match signal.body
       case InterfacesAdded(path, values) =>
         !Paths.IsBase(path)
         && (Announces(su.filter.config, path, values).Err?
             || (Announces(su.filter.config, path, values) == Ok(true) && Paths.EventPathEid(path).Err?))
       case PropertiesChanged(intf, changed) =>
         c.eidChange.Some? && intf == BaseInterface && EidProperty in changed && !changed[EidProperty].Byte?
       case _ => false
  }
}

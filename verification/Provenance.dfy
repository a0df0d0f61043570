/**
 Where the entries of the map come from: the result of a detection whose replies are interleaved
 with anything else, the origin of every entry, the shape of its key; and the delivery of messages.
 */
module Provenance {
  import opened Wrappers
  import opened DeviceIds
  import opened Vendor
  import opened Dbus
  import opened Scan
  import opened Tracker
  import opened NetworkIds
  import opened Names
  import Coverage
  import Paths
  import Signals

  // ---- Jobs ----

  lemma ResolveJobs(su: Setup, c: Core, id: nat, services: seq<string>, buses: seq<Entry>, resolved: set<string>,
                    r: Replies)
    ensures var n := Resolve(su, c, id, services, buses, resolved, r);
      && n.jobs - {id} == c.jobs - {id}
      && (id in n.jobs ==> n.jobs[id].AwaitOwner? || (n.jobs[id].AwaitObjects? && n.jobs[id].eids == map[]))
  {
    Coverage.CompleteJobs(su, c, id, r);
    hide Complete;
  }

  /** What a GetManagedObjects reply adds to a detection; nothing for any other action. */
  function LayerAt(su: Setup, c: Core, a: Action, id: nat): Layer {
    if a.ObjectsReply? && a.job == id && Resumed(c, a).Some? && Resumed(c, a).value.AwaitObjects?
    then LayerOf(su.filter, c.networkIDCache, BusReply(RepliedBus(Resumed(c, a).value), a.objects))
    else Layer({}, Entry(0, ""))
  }

  /** The map a detection has built so far; None once it is over, or if the job is no detection. */
  function Partial(c: Core, id: nat): Option<EndpointMap> {
    if id >= c.nextJob then Some(map[])
    else if id !in c.jobs then None
    else match c.jobs[id]
      case AwaitObjects(_, eids, _) => Some(eids)
      case AwaitNewBus(_) => None
      case _ => Some(map[])
  }

  /** Partial after a step is Partial before it, overlaid with the step's layer. */
  ghost predicate Grows(before: Option<EndpointMap>, after: Option<EndpointMap>, layer: Layer) {
    after.Some? ==> before.Some? && after.value == before.value + Contribution(layer.devices, layer.bus)
  }

  lemma EmptyLayer(eids: EndpointMap, bus: Entry)
    ensures eids + Contribution({}, bus) == eids
  {
  }

  lemma SamePartial(c: Core, n: Core, id: nat)
    requires c.nextJob <= n.nextJob && (id < c.nextJob ==> (id in n.jobs <==> id in c.jobs))
    requires id < c.nextJob && id in c.jobs ==> n.jobs[id] == c.jobs[id]
    requires c.nextJob <= id < n.nextJob ==> id in n.jobs && (n.jobs[id].AwaitServices? || n.jobs[id].AwaitNewBus?)
    ensures Grows(Partial(c, id), Partial(n, id), Layer({}, Entry(0, "")))
  {
    if Partial(c, id).Some? {
      EmptyLayer(Partial(c, id).value, Entry(0, ""));
    }
  }

  lemma ObjectsPartial(su: Setup, c: Core, a: Action, job: Job)
    requires Coverage.JobsNumbered(c) && Resumed(c, a) == Some(job) && a.ObjectsReply?
    ensures Grows(Partial(c, a.job), Partial(ResumeCore(su, c, a, job), a.job), LayerAt(su, c, a, a.job))
  {
    hide LayerOf, Complete, Remember;
    var c1 := if a.objects.None? then c else Remember(c, RepliedBus(job).service, a.replies);
    assert c1.jobs == c.jobs && c1.nextJob == c.nextJob by { RememberKeepsJobs(c, RepliedBus(job).service, a.replies); }
    Coverage.CompleteJobs(su, c1, a.job, a.replies);
  }

  lemma RememberKeepsJobs(c: Core, service: string, r: Replies)
    ensures Remember(c, service, r).jobs == c.jobs && Remember(c, service, r).nextJob == c.nextJob
  {
  }

  lemma ResolvedPartial(su: Setup, c: Core, a: Action, job: Job)
    requires Coverage.JobsNumbered(c) && Resumed(c, a) == Some(job) && !a.ObjectsReply?
    ensures Grows(Partial(c, a.job), Partial(ResumeCore(su, c, a, job), a.job), Layer({}, Entry(0, "")))
  {
    hide Resolve, Complete, LayerOf;
    EmptyLayer(map[], Entry(0, ""));
    match a
    case ServicesReply(id, services, r) =>
      Coverage.CompleteJobs(su, c, id, r);
      if services.Some? {
        ResolveJobs(su, c, id, services.value, [], {}, r);
      }
    case OwnerReply(id, owner, r) =>
      var name := OwnerName(job.service, owner);
      ResolveJobs(su, c.(matchedBuses := c.matchedBuses + {name}), id, job.rest, job.buses, job.resolved + {name}, r);
  }

  lemma ResumeOtherJobs(su: Setup, c: Core, a: Action, job: Job)
    requires Resumed(c, a) == Some(job)
    ensures ResumeCore(su, c, a, job).jobs - {a.job} == c.jobs - {a.job}
    ensures ResumeCore(su, c, a, job).nextJob == c.nextJob
  {
    hide Resolve, Complete, LayerOf, Remember;
    match a
    case ServicesReply(id, services, r) =>
      Coverage.CompleteJobs(su, c, id, r);
      if services.Some? {
        ResolveJobs(su, c, id, services.value, [], {}, r);
      }
    case OwnerReply(id, owner, r) =>
      var name := OwnerName(job.service, owner);
      ResolveJobs(su, c.(matchedBuses := c.matchedBuses + {name}), id, job.rest, job.buses, job.resolved + {name}, r);
    case ObjectsReply(id, objects, r) =>
      RememberKeepsJobs(c, RepliedBus(job).service, r);
      Coverage.CompleteJobs(su, Remember(c, RepliedBus(job).service, r), id, r);
      Coverage.CompleteJobs(su, c, id, r);
  }

  lemma EventKeepsJobs(su: Setup, c: Core, signal: Signal, r: Replies)
    ensures EventCore(su, c, signal, r).jobs == c.jobs && EventCore(su, c, signal, r).nextJob == c.nextJob
  {
    hide EndpointPath, Delivers, NewService, Paths.HasDeviceSlash, Paths.IsBase;
  }

  lemma UnchangedUnder(x: map<nat, Job>, y: map<nat, Job>, j: nat, id: nat)
    requires x - {j} == y - {j} && id != j
    ensures id in x <==> id in y
    ensures id in x ==> x[id] == y[id]
  {
    assert id in x <==> id in x - {j};
    assert id in y <==> id in y - {j};
  }

  lemma StepPartial(su: Setup, c: Core, a: Action, id: nat)
    requires Coverage.JobsNumbered(c)
    ensures Grows(Partial(c, id), Partial(CoreStep(su, c, a), id), LayerAt(su, c, a, id))
  {
    hide EventCore, ResumeCore, RegisterVersions, InstallOwnEid, LayerOf, Grows, Partial;
    var n := CoreStep(su, c, a);
    if a.Event? {
      EventKeepsJobs(su, c, a.signal, a.replies);
      SamePartial(c, n, id);
    } else if Resumed(c, a).Some? {
      var job := Resumed(c, a).value;
      if a.job != id {
        ResumeOtherJobs(su, c, a, job);
        UnchangedUnder(n.jobs, c.jobs, a.job, id);
        SamePartial(c, n, id);
      } else if a.ObjectsReply? {
        ObjectsPartial(su, c, a, job);
      } else {
        ResolvedPartial(su, c, a, job);
      }
    } else {
      SamePartial(c, n, id);
    }
  }

  // ---- The result of a detection ----

  /** One layer per action of the run: what it contributes to detection id. */
  function ScanLayers(su: Setup, m: Machine, actions: seq<Action>, id: nat): seq<Layer> {
    seq(|actions|, i requires 0 <= i < |actions| => LayerAt(su, At(su, m, actions, i).core, actions[i], id))
  }

  lemma ScanLayersFront(su: Setup, m: Machine, actions: seq<Action>, id: nat)
    requires actions != []
    ensures var n := |actions| - 1;
      ScanLayers(su, m, actions, id)
        == ScanLayers(su, m, actions[..n], id) + [LayerAt(su, Run(su, m, actions[..n]).core, actions[n], id)]
  {
    hide Step, LayerAt;
    var n := |actions| - 1;
    forall i | 0 <= i < n
      ensures ScanLayers(su, m, actions, id)[i] == ScanLayers(su, m, actions[..n], id)[i]
    {
      assert actions[..n][..i] == actions[..i];
    }
  }

  lemma {:induction false} JobsStayNumbered(su: Setup, actions: seq<Action>)
    ensures Coverage.JobsNumbered(Run(su, INITIAL, actions).core)
  {
    Coverage.RunCovered(su, INITIAL, actions);
  }

  lemma {:induction false} PartialIsOverlay(su: Setup, actions: seq<Action>, id: nat)
    ensures var partial := Partial(Run(su, INITIAL, actions).core, id);
      partial.Some? ==> partial.value == Overlay(ScanLayers(su, INITIAL, actions, id))
  {
    hide CoreStep, MapStep, PendingStep, LogStep, LayerAt;
    if actions != [] {
      var n := |actions| - 1;
      var front := actions[..n];
      PartialIsOverlay(su, front, id);
      JobsStayNumbered(su, front);
      StepPartial(su, Run(su, INITIAL, front).core, actions[n], id);
      ScanLayersFront(su, INITIAL, actions, id);
      assert ScanLayers(su, INITIAL, actions, id)[..n] == ScanLayers(su, INITIAL, front, id);
    }
  }

  /** This action is the reply that ends detection id: the last bus, or no bus at all to scan. */
  predicate EndsDetection(su: Setup, c: Core, a: Action, id: nat) {
    (a.ServicesReply? || a.OwnerReply? || a.ObjectsReply?) && a.job == id && Overwrites(su, c, a).Some?
  }

  /** Action i answers detection id, and an admissible object of it counts as d under the network id then known. */
  ghost predicate Answers(su: Setup, actions: seq<Action>, id: nat, d: DeviceID, i: nat) {
    i < |actions| && d in LayerAt(su, At(su, INITIAL, actions, i).core, actions[i], id).devices
  }

  lemma AnswerMeaning(su: Setup, c: Core, a: Action, id: nat, d: DeviceID)
    ensures d in LayerAt(su, c, a, id).devices <==>
      && a.ObjectsReply? && a.job == id && Resumed(c, a).Some? && Resumed(c, a).value.AwaitObjects?
      && a.objects.Some?
      && exists obj, eid :: obj in a.objects.value && Admissible(su.filter, obj, eid)
           && d == MakeDeviceID(eid, NetworkIdOf(c.networkIDCache, RepliedBus(Resumed(c, a).value).service))
  {
    if a.ObjectsReply? && a.job == id && Resumed(c, a).Some? && Resumed(c, a).value.AwaitObjects? && a.objects.Some? {
      DeviceHasObject(su.filter, NetworkIdOf(c.networkIDCache, RepliedBus(Resumed(c, a).value).service),
                      a.objects.value, d);
      hide Devices, Admissible;
    }
  }

  lemma EndCompletesPartial(su: Setup, c: Core, a: Action, id: nat)
    requires Coverage.JobsNumbered(c) && EndsDetection(su, c, a, id)
    ensures Partial(c, id).Some?
    ensures var layer := LayerAt(su, c, a, id);
      Overwrites(su, c, a).value == Partial(c, id).value + Contribution(layer.devices, layer.bus)
  {
    EmptyLayer(map[], Entry(0, ""));
    hide LayerOf;
  }

  lemma OverwritingStep(su: Setup, m: Machine, a: Action)
    requires Overwrites(su, m.core, a).Some?
    ensures Step(su, m, a).endpointMap == Overwrites(su, m.core, a).value
  {
    hide CoreStep, PendingStep, LogStep, Overwrites, Inserts, SignalDevice;
  }

  lemma EndIsOverlay(su: Setup, actions: seq<Action>, id: nat)
    requires actions != []
    requires EndsDetection(su, Run(su, INITIAL, actions[..|actions| - 1]).core, actions[|actions| - 1], id)
    ensures Run(su, INITIAL, actions).endpointMap == Overlay(ScanLayers(su, INITIAL, actions, id))
  {
    var n := |actions| - 1;
    var front, a := actions[..n], actions[n];
    PartialIsOverlay(su, front, id);
    JobsStayNumbered(su, front);
    ScanLayersFront(su, INITIAL, actions, id);
    EndCompletesPartial(su, Run(su, INITIAL, front).core, a, id);
    OverwritingStep(su, Run(su, INITIAL, front), a);
    hide Step, LayerAt, ScanLayers, Partial, Overwrites;
    assert ScanLayers(su, INITIAL, actions, id)[..n] == ScanLayers(su, INITIAL, front, id);
  }

  /** The last reply of detection id that names d, and the bus it came from. */
  ghost predicate LastAnswer(su: Setup, actions: seq<Action>, id: nat, d: DeviceID, i: nat, bus: Entry) {
    && Answers(su, actions, id, d, i)
    && (forall j: nat :: i < j ==> !Answers(su, actions, id, d, j))
    && bus == LayerAt(su, At(su, INITIAL, actions, i).core, actions[i], id).bus
  }

  lemma LastAnswerNames(su: Setup, actions: seq<Action>, id: nat, d: DeviceID, i: nat)
    requires i < |actions|
    ensures var layers := ScanLayers(su, INITIAL, actions, id);
      LastNaming(layers, d, i) <==> LastAnswer(su, actions, id, d, i, layers[i].bus)
  {
    hide Run, LayerAt;
    var layers := ScanLayers(su, INITIAL, actions, id);
    forall j: nat
      ensures Answers(su, actions, id, d, j) <==> j < |layers| && d in layers[j].devices
    {
    }
  }

  /**
   The result of a detection: when its last reply is handled, the map is exactly what its own replies
   named, each under the network id known when that reply came, the last reply winning; if no bus could
   be scanned, that is nothing. Whatever events, tasks and other detections did to the map in the meantime is gone.
   */
  lemma DetectionResult(su: Setup, actions: seq<Action>, id: nat, d: DeviceID)
    requires actions != []
    requires EndsDetection(su, Run(su, INITIAL, actions[..|actions| - 1]).core, actions[|actions| - 1], id)
    ensures d in Run(su, INITIAL, actions).endpointMap <==> exists i: nat :: Answers(su, actions, id, d, i)
    ensures d in Run(su, INITIAL, actions).endpointMap ==>
      exists i: nat :: LastAnswer(su, actions, id, d, i, Run(su, INITIAL, actions).endpointMap[d])
  {
    EndIsOverlay(su, actions, id);
    var layers := ScanLayers(su, INITIAL, actions, id);
    OverlayMeaning(layers, d);
    hide Run, LayerAt, Overlay;
    if i: nat :| Answers(su, actions, id, d, i) {
      assert d in layers[i].devices;
    }
    if d in Overlay(layers) {
      var i: nat :| LastNaming(layers, d, i);
      LastAnswerNames(su, actions, id, d, i);
    }
  }

  // ---- The origin of every entry ----

  /** This action makes d known as a device of the service: an announcement, or a scan reply naming it. */
  predicate Source(su: Setup, c: Core, a: Action, d: DeviceID, service: string) {
    || (AddedDevice(su, c, a) == Some(d) && a.signal.sender == service)
    || (a.ObjectsReply? && Resumed(c, a).Some? && RepliedBus(Resumed(c, a).value).service == service
        && d in ReplyEids(su, c, RepliedBus(Resumed(c, a).value), a.objects))
  }

  /** d is filed under the service, in the map, in a waiting insertion or in an unfinished scan. */
  ghost predicate Known(m: Machine, d: DeviceID, service: string) {
    || (d in m.endpointMap && m.endpointMap[d].service == service)
    || AddDevice(d, service) in m.pending
    || KnownToJob(m.core, d, service)
  }

  ghost predicate KnownToJob(c: Core, d: DeviceID, service: string) {
    exists id :: id in c.jobs && c.jobs[id].AwaitObjects? && d in c.jobs[id].eids
                 && c.jobs[id].eids[d].service == service
  }

  lemma JobSource(su: Setup, c: Core, a: Action, d: DeviceID, service: string)
    requires Coverage.JobsNumbered(c) && KnownToJob(CoreStep(su, c, a), d, service)
    ensures KnownToJob(c, d, service) || Source(su, c, a, d, service)
  {
    var n := CoreStep(su, c, a);
    var id :| id in n.jobs && n.jobs[id].AwaitObjects? && d in n.jobs[id].eids && n.jobs[id].eids[d].service == service;
    StepPartial(su, c, a, id);
    StepNumbered(su, c, a);
    hide CoreStep, LayerOf;
    var layer := LayerAt(su, c, a, id);
    if d !in layer.devices {
      assert id in c.jobs && c.jobs[id].AwaitObjects?;
    }
  }

  lemma StepNumbered(su: Setup, c: Core, a: Action)
    requires Coverage.JobsNumbered(c)
    ensures Coverage.JobsNumbered(CoreStep(su, c, a))
  {
    hide EventCore, ResumeCore, RegisterVersions, InstallOwnEid;
    if a.Event? {
      EventKeepsJobs(su, c, a.signal, a.replies);
    } else if Resumed(c, a).Some? {
      var job := Resumed(c, a).value;
      ResumeOtherJobs(su, c, a, job);
      var n := ResumeCore(su, c, a, job);
      forall id | id in n.jobs
        ensures id < n.nextJob
      {
        if id != a.job {
          UnchangedUnder(n.jobs, c.jobs, a.job, id);
        }
      }
    }
  }

  lemma OverwriteSource(su: Setup, c: Core, a: Action, d: DeviceID, service: string)
    requires Overwrites(su, c, a).Some? && d in Overwrites(su, c, a).value
    requires Overwrites(su, c, a).value[d].service == service
    ensures KnownToJob(c, d, service) || Source(su, c, a, d, service)
  {
    hide Devices;
  }

  lemma InsertSource(su: Setup, c: Core, a: Action, d: DeviceID)
    ensures Inserts(su, c, a).Some? && d in Inserts(su, c, a).value ==>
      Source(su, c, a, d, Inserts(su, c, a).value[d].service)
  {
    hide Devices;
  }

  lemma MapSource(su: Setup, m: Machine, a: Action, d: DeviceID, service: string)
    requires d in MapStep(su, m, a) && MapStep(su, m, a)[d].service == service
    ensures Known(m, d, service) || Source(su, m.core, a, d, service)
  {
    hide Source, KnownToJob, Overwrites, Inserts, SignalDevice;
    if Overwrites(su, m.core, a).Some? {
      OverwriteSource(su, m.core, a, d, service);
    } else if Inserts(su, m.core, a).Some? && d in Inserts(su, m.core, a).value {
      if d !in m.endpointMap {
        InsertSource(su, m.core, a, d);
      }
    }
  }

  lemma PendingSource(su: Setup, m: Machine, a: Action, d: DeviceID, service: string)
    requires AddDevice(d, service) in PendingStep(su, m, a)
    ensures AddDevice(d, service) in m.pending || Source(su, m.core, a, d, service)
  {
    hide SignalDevice, Resumed;
  }

  lemma StepSource(su: Setup, m: Machine, a: Action, d: DeviceID, service: string)
    requires Coverage.JobsNumbered(m.core) && Known(Step(su, m, a), d, service)
    ensures Known(m, d, service) || Source(su, m.core, a, d, service)
  {
    hide CoreStep, MapStep, PendingStep, LogStep, Source, KnownToJob;
    if AddDevice(d, service) in PendingStep(su, m, a) {
      PendingSource(su, m, a, d, service);
    } else if KnownToJob(CoreStep(su, m.core, a), d, service) {
      JobSource(su, m.core, a, d, service);
    } else {
      MapSource(su, m, a, d, service);
    }
  }

  /** Some action of the run is a source of d under the service. */
  ghost predicate Sourced(su: Setup, actions: seq<Action>, d: DeviceID, service: string) {
    exists i :: 0 <= i < |actions| && Source(su, At(su, INITIAL, actions, i).core, actions[i], d, service)
  }

  lemma {:induction false} KnownIsSourced(su: Setup, actions: seq<Action>, d: DeviceID, service: string)
    requires Known(Run(su, INITIAL, actions), d, service)
    ensures Sourced(su, actions, d, service)
  {
    hide Step, Source, Known;
    if actions == [] {
      NothingKnownAtFirst(d, service);
    } else {
      var n := |actions| - 1;
      var front := actions[..n];
      JobsStayNumbered(su, front);
      StepSource(su, Run(su, INITIAL, front), actions[n], d, service);
      if Known(Run(su, INITIAL, front), d, service) {
        KnownIsSourced(su, front, d, service);
        var i :| 0 <= i < n && Source(su, At(su, INITIAL, front, i).core, front[i], d, service);
        assert front[..i] == actions[..i];
        assert Source(su, At(su, INITIAL, actions, i).core, actions[i], d, service);
      } else {
        assert Source(su, At(su, INITIAL, actions, n).core, actions[n], d, service);
      }
    }
  }

  lemma NothingKnownAtFirst(d: DeviceID, service: string)
    ensures !Known(INITIAL, d, service)
  {
  }

  /** What a source is: a matched sender's announcement, or an admissible object of a scanned bus. */
  lemma SourceMeaning(su: Setup, c: Core, a: Action, d: DeviceID, service: string)
    requires Source(su, c, a, d, service)
    ensures a.Event? ==> service in c.matchedBuses && a.signal.body.InterfacesAdded?
    ensures !a.Event? ==> a.ObjectsReply? && a.objects.Some?
    ensures !a.Event? ==> exists obj, eid :: obj in a.objects.value && Admissible(su.filter, obj, eid)
                                            && d == MakeDeviceID(eid, NetworkIdOf(c.networkIDCache, service))
    ensures d == MakeDeviceID(d.MctpEID(), NetworkIdOf(c.networkIDCache, service))
    ensures d.Network() == NetworkIdOf(c.networkIDCache, service)
  {
    if a.Event? {
      hide Announces, Paths.IsBase, Paths.EventPathEid;
      PackRoundTrip(Paths.EventPathEid(a.signal.body.path).value, NetworkIdOf(c.networkIDCache, service));
    } else {
      var bus := RepliedBus(Resumed(c, a).value);
      DeviceHasObject(su.filter, NetworkIdOf(c.networkIDCache, service), a.objects.value, d);
      hide Devices, Admissible;
      var obj, eid :| obj in a.objects.value && Admissible(su.filter, obj, eid)
                      && d == MakeDeviceID(eid, NetworkIdOf(c.networkIDCache, service));
      PackRoundTrip(eid, NetworkIdOf(c.networkIDCache, service));
    }
  }

  /**
   Provenance: in every reachable state, the service of each entry was named by a scan reply that
   listed the device, or was matched when it announced the device.
   */
  lemma EntriesHaveOrigin(su: Setup, actions: seq<Action>, d: DeviceID)
    requires d in Run(su, INITIAL, actions).endpointMap
    ensures Sourced(su, actions, d, Run(su, INITIAL, actions).endpointMap[d].service)
  {
    hide Run, Sourced;
    KnownIsSourced(su, actions, d, Run(su, INITIAL, actions).endpointMap[d].service);
  }

  /**
   The shape of keys: in every reachable state, the network part of a device's key is 0 or the network
   id cached for the service that its entry names.
   */
  lemma KeysFollowTheCache(su: Setup, actions: seq<Action>, d: DeviceID)
    requires d in Run(su, INITIAL, actions).endpointMap
    ensures var m := Run(su, INITIAL, actions);
      d.Network() == 0 || d.Network() == NetworkIdOf(m.core.networkIDCache, m.endpointMap[d].service)
  {
    hide Step, Source;
    var service := Run(su, INITIAL, actions).endpointMap[d].service;
    EntriesHaveOrigin(su, actions, d);
    var i :| 0 <= i < |actions| && Source(su, At(su, INITIAL, actions, i).core, actions[i], d, service);
    SourceMeaning(su, At(su, INITIAL, actions, i).core, actions[i], d, service);
    CacheOfRun(su, INITIAL, actions, i);
  }

  // ---- Received messages ----

  lemma {:induction false} NeverBothCallbacks(su: Setup, actions: seq<Action>)
    ensures su.receive.Some? ==> Run(su, INITIAL, actions).core.extReceive.None?
  {
    hide Step;
    if actions != [] {
      var front := actions[..|actions| - 1];
      NeverBothCallbacks(su, front);
      if su.receive.Some? {
        ExtendedCallbackStep(su, Run(su, INITIAL, front), actions[|actions| - 1]);
      }
    }
  }

  lemma EventKeepsCallbacks(su: Setup, c: Core, signal: Signal, r: Replies)
    ensures EventCore(su, c, signal, r).extReceive == c.extReceive
  {
    hide EndpointPath, Delivers, NewService, Paths.HasDeviceSlash, Paths.IsBase;
  }

  lemma ResumeKeepsCallbacks(su: Setup, c: Core, a: Action)
    requires Resumed(c, a).Some?
    ensures ResumeCore(su, c, a, Resumed(c, a).value).extReceive == c.extReceive
  {
    hide Resolve, Complete, ReplyEids;
  }

  lemma ExtendedCallbackStep(su: Setup, m: Machine, a: Action)
    requires su.receive.Some? && m.core.extReceive.None?
    ensures Step(su, m, a).core.extReceive.None?
  {
    hide MapStep, PendingStep, LogStep, EventCore, ResumeCore, RegisterVersions, InstallOwnEid;
    if a.Event? {
      EventKeepsCallbacks(su, m.core, a.signal, a.replies);
    } else if Resumed(m.core, a).Some? {
      ResumeKeepsCallbacks(su, m.core, a);
    }
  }

  /**
   Single delivery: in every reachable state a received message is handed on exactly once if its sender is listened
   to, a callback is set and it fits the configuration, and not at all otherwise; in particular not if it is of
   another type than the configured one.
   */
  lemma SingleDelivery(su: Setup, actions: seq<Action>, signal: Signal, r: Replies)
    requires signal.body.MessageReceivedSignal?
    ensures var m := Run(su, INITIAL, actions); var log := Step(su, m, Event(signal, r)).log;
      && (Signals.Wanted(su, m.core, Event(signal, r)) && su.receive.Some? ==>
            log == m.log + [Received(su.receive.value, signal.body.srcEid, signal.body.tagOwner, signal.body.msgTag,
                                     signal.body.payload)])
      && (Signals.Wanted(su, m.core, Event(signal, r)) && su.receive.None? ==>
            log == m.log + [ExtReceived(m.core.extReceive.value,
                              MakeDeviceID(signal.body.srcEid, NetworkIdOf(m.core.networkIDCache, signal.sender)),
                              signal.body.tagOwner, signal.body.msgTag, signal.body.payload)])
      && (!Signals.Wanted(su, m.core, Event(signal, r)) ==> log == m.log)
      && (signal.body.messageType != TypeCode(su.filter.config.msgType) ==> log == m.log)
  {
    NeverBothCallbacks(su, actions);
    hide Run;
    var m := Run(su, INITIAL, actions);
    Signals.DeliversMeaning(su, m.core, signal, r);
    WantedIsOfType(su, m.core, signal, r);
    hide Signals.Wanted;
    DeliveryStep(su, m, signal, r);
  }

  lemma WantedIsOfType(su: Setup, c: Core, signal: Signal, r: Replies)
    ensures Signals.Wanted(su, c, Event(signal, r)) ==>
      signal.body.messageType == TypeCode(su.filter.config.msgType) && (su.receive.Some? || c.extReceive.Some?)
  {
    hide TypeCode, HeaderFits;
  }

  lemma DeliveryStep(su: Setup, m: Machine, signal: Signal, r: Replies)
    requires signal.body.MessageReceivedSignal? && (su.receive.Some? ==> m.core.extReceive.None?)
    requires Delivers(su, m.core, signal) ==> su.receive.Some? || m.core.extReceive.Some?
    ensures Step(su, m, Event(signal, r)).log ==
      if !Delivers(su, m.core, signal) then m.log
      else if su.receive.Some?
      then m.log + [Received(su.receive.value, signal.body.srcEid, signal.body.tagOwner, signal.body.msgTag,
                             signal.body.payload)]
      else m.log + [ExtReceived(m.core.extReceive.value,
                      MakeDeviceID(signal.body.srcEid, NetworkIdOf(m.core.networkIDCache, signal.sender)),
                      signal.body.tagOwner, signal.body.msgTag, signal.body.payload)]
  {
    hide CoreStep, MapStep, PendingStep, Delivers;
  }
}

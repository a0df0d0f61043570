/**
 A detection that nothing interrupts: begun, answered reply by reply, it finds the buses of the services that can be
 used, matches their owners, and leaves in the map exactly what one whole scan of those buses computes.
 */
module Detection {
  import opened Wrappers
  import opened Dbus
  import opened Scan
  import opened Tracker
  import opened Difference
  import Coverage
  import Handlers

  // ---- The replies ----

  /** The buses of the services whose bus id can be read, in order. */
  function Usable(services: seq<string>, busIds: map<string, nat>): seq<Entry> {
    if services == [] then []
    else
      (if services[0] in busIds then [Entry(busIds[services[0]], services[0])] else [])
      + Usable(services[1..], busIds)
  }

  function OwnerReplies(id: nat, buses: seq<Entry>, owners: map<string, string>, r: Replies): seq<Action> {
    seq(|buses|, i requires 0 <= i < |buses| => OwnerReply(id, Lookup(owners, buses[i].service), r))
  }

  function ObjectReplies(id: nat, buses: seq<Entry>, objects: map<string, seq<ManagedObject>>, r: Replies): seq<Action>
  {
    seq(|buses|, i requires 0 <= i < |buses| => ObjectsReply(id, Lookup(objects, buses[i].service), r))
  }

  /** The same replies as one whole scan takes them. */
  function ScanReplies(buses: seq<Entry>, objects: map<string, seq<ManagedObject>>): seq<BusReply> {
    seq(|buses|, i requires 0 <= i < |buses| => BusReply(buses[i], Lookup(objects, buses[i].service)))
  }

  /** The owners to be matched: the one D-Bus names, or the service itself when it names none. */
  function Owners(buses: seq<Entry>, owners: map<string, string>): set<string> {
    set i | 0 <= i < |buses|
      :: if buses[i].service in owners then owners[buses[i].service] else buses[i].service
  }

  function Uninterrupted(id: nat, services: seq<string>, owners: map<string, string>,
                         objects: map<string, seq<ManagedObject>>, r: Replies): seq<Action> {
    var buses := Usable(services, r.busIds);
    [BeginDetection, ServicesReply(id, Some(services), r)]
    + OwnerReplies(id, buses, owners, r) + ObjectReplies(id, buses, objects, r)
  }

  // ---- One bus at a time ----

  lemma {:induction false} UsableFirst(services: seq<string>, busIds: map<string, nat>)
    ensures var k := FirstUsable(services, busIds);
      if k < |services|
      then Usable(services, busIds) == [Entry(busIds[services[k]], services[k])] + Usable(services[k + 1..], busIds)
      else Usable(services, busIds) == []
  {
    if services != [] && services[0] !in busIds {
      UsableFirst(services[1..], busIds);
      var k := FirstUsable(services, busIds);
      assert k < |services| ==> services[k] == services[1..][k - 1] && services[1..][k - 1 + 1..] == services[k + 1..];
      assert [] + Usable(services[1..], busIds) == Usable(services[1..], busIds);
    }
  }

  lemma OwnersFirst(bus: Entry, buses: seq<Entry>, owners: map<string, string>)
    ensures Owners([bus] + buses, owners)
      == {OwnerName(bus.service, Lookup(owners, bus.service))} + Owners(buses, owners)
  {
    var all := [bus] + buses;
    assert all[0] == bus && forall i :: 0 <= i < |buses| ==> all[i + 1] == buses[i];
    forall o
      ensures o in Owners(all, owners)
        <==> o in {OwnerName(bus.service, Lookup(owners, bus.service))} + Owners(buses, owners)
    {
      if o in Owners(buses, owners) {
        var i :| 0 <= i < |buses|
          && o == if buses[i].service in owners then owners[buses[i].service] else buses[i].service;
        assert all[i + 1] == buses[i];
      }
      if o in Owners(all, owners) {
        var i :| 0 <= i < |all| && o == if all[i].service in owners then owners[all[i].service] else all[i].service;
        assert i > 0 ==> all[i] == buses[i - 1];
      }
    }
  }

  lemma OwnerRepliesFirst(id: nat, bus: Entry, buses: seq<Entry>, owners: map<string, string>, r: Replies)
    ensures OwnerReplies(id, [bus] + buses, owners, r)
      == [OwnerReply(id, Lookup(owners, bus.service), r)] + OwnerReplies(id, buses, owners, r)
    ensures OwnerReplies(id, [], owners, r) == []
  {
  }

  lemma ObjectRepliesFirst(id: nat, buses: seq<Entry>, objects: map<string, seq<ManagedObject>>, done: seq<BusReply>,
                           r: Replies)
    requires buses != []
    ensures ObjectReplies(id, buses, objects, r)
      == [ObjectsReply(id, Lookup(objects, buses[0].service), r)] + ObjectReplies(id, buses[1..], objects, r)
    ensures done + ScanReplies(buses, objects)
      == done + [BusReply(buses[0], Lookup(objects, buses[0].service))] + ScanReplies(buses[1..], objects)
  {
  }

  /** What the search for buses leaves alone. */
  ghost predicate OnlySearched(m: Machine, n: Machine, id: nat) {
    && n.core.jobs - {id} == m.core.jobs - {id} && n.core.nextJob == m.core.nextJob
    && n.core.networkIDCache == m.core.networkIDCache
    && n.endpointMap == m.endpointMap && n.pending == m.pending && n.log == m.log
  }

  /** The scan is about to begin on these buses, with these names matched. */
  ghost predicate Scanning(m: Machine, n: Machine, id: nat, buses: seq<Entry>, names: set<string>) {
    && OnlySearched(m, n, id) && n.core.initialised && n.core.matchedBuses == m.core.matchedBuses + names
    && id in n.core.jobs && n.core.jobs[id].AwaitObjects?
    && n.core.jobs[id].buses == buses && n.core.jobs[id].eids == map[]
  }

  lemma ScanningLater(m: Machine, m1: Machine, n: Machine, id: nat, buses: seq<Entry>, name: string, names: set<string>)
    requires OnlySearched(m, m1, id) && m1.core.matchedBuses == m.core.matchedBuses + {name}
    requires Scanning(m1, n, id, buses, names)
    ensures Scanning(m, n, id, buses, {name} + names)
  {
  }

  /** The machine with the job of a search replaced, and more names matched. */
  function Moved(m: Machine, id: nat, job: Job, names: set<string>, initialised: bool): Machine {
    m.(core := m.core.(matchedBuses := m.core.matchedBuses + names, jobs := m.core.jobs[id := job],
                       initialised := initialised))
  }

  lemma MovedOnlySearched(m: Machine, id: nat, job: Job, names: set<string>, initialised: bool)
    ensures OnlySearched(m, Moved(m, id, job, names, initialised), id)
  {
  }

  /** The job after the search has gone on: the next owner to ask for, or the scan. */
  function NextJob(rest: seq<string>, buses: seq<Entry>, resolved: set<string>, busIds: map<string, nat>): Job {
    var k := FirstUsable(rest, busIds);
    if k < |rest| then AwaitOwner(rest[k], rest[k + 1..], buses + [Entry(busIds[rest[k]], rest[k])], resolved)
    else AwaitObjects(buses, map[], resolved)
  }

  lemma ResolveMoves(su: Setup, c: Core, id: nat, rest: seq<string>, buses: seq<Entry>, resolved: set<string>,
                     r: Replies)
    requires buses != [] || FirstUsable(rest, r.busIds) < |rest|
    ensures Resolve(su, c, id, rest, buses, resolved, r)
      == c.(jobs := c.jobs[id := NextJob(rest, buses, resolved, r.busIds)],
            initialised := c.initialised || FirstUsable(rest, r.busIds) == |rest|)
  {
    hide Complete, FirstUsable;
  }

  lemma OwnerSearched(su: Setup, m: Machine, id: nat, service: string, rest: seq<string>, buses: seq<Entry>,
                      resolved: set<string>, owner: Option<string>, r: Replies)
    requires id in m.core.jobs && m.core.jobs[id] == AwaitOwner(service, rest, buses, resolved) && buses != []
    ensures var name := OwnerName(service, owner);
      Step(su, m, OwnerReply(id, owner, r))
      == Moved(m, id, NextJob(rest, buses, resolved + {name}, r.busIds), {name},
               m.core.initialised || FirstUsable(rest, r.busIds) == |rest|)
  {
    hide OwnerName, FirstUsable, NextJob, Step, Resolve;
    var name := OwnerName(service, owner);
    Handlers.OwnerStep(su, m, id, owner, r);
    ResolveMoves(su, m.core.(matchedBuses := m.core.matchedBuses + {name}), id, rest, buses, resolved + {name}, r);
  }

  lemma NoMoreRun(su: Setup, m: Machine)
    ensures Run(su, m, []) == m
  {
  }

  lemma LastOwner(m: Machine, id: nat, buses: seq<Entry>, resolved: set<string>, name: string)
    ensures Scanning(m, Moved(m, id, AwaitObjects(buses, map[], resolved), {name}, true), id, buses + [], {name} + {})
  {
    assert buses + [] == buses && {name} + {} == {name};
  }

  lemma AnotherOwner(m: Machine, n: Machine, id: nat, job: Job, buses: seq<Entry>, name: string, names: set<string>,
                     initialised: bool)
    requires Scanning(Moved(m, id, job, {name}, initialised), n, id, buses, names)
    ensures Scanning(m, n, id, buses, {name} + names)
  {
    MovedOnlySearched(m, id, job, {name}, initialised);
    ScanningLater(m, Moved(m, id, job, {name}, initialised), n, id, buses, name, names);
    hide Scanning, OnlySearched;
  }

  lemma LaterOwners(su: Setup, m: Machine, id: nat, job: Job, rest: seq<string>, buses: seq<Entry>, name: string,
                    initialised: bool, owners: map<string, string>, r: Replies)
    requires var k := FirstUsable(rest, r.busIds);
      && k < |rest|
      && var later := Usable(rest[k + 1..], r.busIds); var m1 := Moved(m, id, job, {name}, initialised);
         Scanning(m1, Run(su, m1, [OwnerReply(id, Lookup(owners, rest[k]), r)] + OwnerReplies(id, later, owners, r)),
                  id, buses + [Entry(r.busIds[rest[k]], rest[k])] + later,
                  {OwnerName(rest[k], Lookup(owners, rest[k]))} + Owners(later, owners))
    ensures var more := Usable(rest, r.busIds);
      Scanning(m, Run(su, Moved(m, id, job, {name}, initialised), OwnerReplies(id, more, owners, r)), id, buses + more,
               {name} + Owners(more, owners))
  {
    UsableFirst(rest, r.busIds);
    hide Run, Usable, FirstUsable, OwnerName, Owners, OwnerReplies, OnlySearched, Scanning, Moved, Lookup;
    var k := FirstUsable(rest, r.busIds);
    var bus := Entry(r.busIds[rest[k]], rest[k]);
    var later, more := Usable(rest[k + 1..], r.busIds), Usable(rest, r.busIds);
    assert more == [bus] + later;
    OwnerRepliesFirst(id, bus, later, owners, r);
    OwnersFirst(bus, later, owners);
    assert buses + [bus] + later == buses + more;
    AnotherOwner(m, Run(su, Moved(m, id, job, {name}, initialised), OwnerReplies(id, more, owners, r)), id, job,
                 buses + more, name, Owners(more, owners), initialised);
  }

  /** The owners come one by one; with the last the scan begins. */
  lemma {:induction false} OwnersPhase(su: Setup, m: Machine, id: nat, service: string, rest: seq<string>,
                                       buses: seq<Entry>, resolved: set<string>, owners: map<string, string>,
                                       r: Replies)
    requires id in m.core.jobs && m.core.jobs[id] == AwaitOwner(service, rest, buses, resolved) && buses != []
    ensures var more := Usable(rest, r.busIds);
      Scanning(m, Run(su, m, [OwnerReply(id, Lookup(owners, service), r)] + OwnerReplies(id, more, owners, r)), id,
               buses + more, {OwnerName(service, Lookup(owners, service))} + Owners(more, owners))
    decreases |rest|
  {
    hide Run, Step, Usable, FirstUsable, OwnerName, Owners, OwnerReplies, OnlySearched, Scanning, Lookup;
    var a := OwnerReply(id, Lookup(owners, service), r);
    var name := OwnerName(service, Lookup(owners, service));
    OwnerSearched(su, m, id, service, rest, buses, resolved, Lookup(owners, service), r);
    FirstAction(su, m, a, OwnerReplies(id, Usable(rest, r.busIds), owners, r));
    var job := NextJob(rest, buses, resolved + {name}, r.busIds);
    var initialised := m.core.initialised || FirstUsable(rest, r.busIds) == |rest|;
    var k := FirstUsable(rest, r.busIds);
    if k < |rest| {
      OwnersPhase(su, Moved(m, id, job, {name}, initialised), id, rest[k], rest[k + 1..],
                  buses + [Entry(r.busIds[rest[k]], rest[k])], resolved + {name}, owners, r);
      hide Moved, NextJob;
      LaterOwners(su, m, id, job, rest, buses, name, initialised, owners, r);
    } else {
      UsableFirst(rest, r.busIds);
      NoOwners(owners);
      OwnerRepliesFirst(id, Entry(0, ""), [], owners, r);
      NoMoreRun(su, Moved(m, id, job, {name}, initialised));
      LastOwner(m, id, buses, resolved + {name}, name);
    }
  }

  lemma NoOwners(owners: map<string, string>)
    ensures Owners([], owners) == {}
  {
  }

  /** The scan is over: the map and the cache are those of these replies, and the job is gone. */
  ghost predicate Scanned(su: Setup, m: Machine, n: Machine, id: nat, cache: Cache, all: seq<BusReply>, r: Replies) {
    && n.endpointMap == ScanAll(su.filter, cache, all, r.networkIds)
    && n.core.networkIDCache == ScanCache(cache, all, r.networkIds)
    && n.core.jobs == m.core.jobs - {id} && n.core.nextJob == m.core.nextJob && n.core.initialised
    && n.core.matchedBuses == m.core.matchedBuses && n.pending == m.pending && n.log == m.log
  }

  /** The map under construction is the scan of the replies so far. */
  ghost predicate ScannedSoFar(su: Setup, c: Core, id: nat, cache: Cache, done: seq<BusReply>, r: Replies) {
    && id in c.jobs && c.jobs[id].AwaitObjects? && c.jobs[id].buses != []
    && c.jobs[id].eids == ScanAll(su.filter, cache, done, r.networkIds)
    && c.networkIDCache == ScanCache(cache, done, r.networkIds)
  }

  lemma ScannedLater(su: Setup, m: Machine, m1: Machine, n: Machine, id: nat, job: Job, cache: Cache,
                     all: seq<BusReply>, r: Replies)
    requires Scanned(su, m1, n, id, cache, all, r)
    requires id in m.core.jobs && m1.core.jobs == m.core.jobs[id := job]
    requires m1.core.nextJob == m.core.nextJob && m1.core.matchedBuses == m.core.matchedBuses
    requires m1.pending == m.pending && m1.log == m.log
    ensures Scanned(su, m, n, id, cache, all, r)
  {
    hide ScanAll, ScanCache;
    assert m1.core.jobs - {id} == m.core.jobs - {id};
  }

  /** The buses come one by one, until the last. */
  lemma {:induction false} ObjectsPhase(su: Setup, m: Machine, id: nat, cache: Cache, done: seq<BusReply>,
                                        objects: map<string, seq<ManagedObject>>, r: Replies)
    requires ScannedSoFar(su, m.core, id, cache, done, r)
    ensures var buses := m.core.jobs[id].buses;
      Scanned(su, m, Run(su, m, ObjectReplies(id, buses, objects, r)), id, cache, done + ScanReplies(buses, objects), r)
    decreases |m.core.jobs[id].buses|
  {
    var buses := m.core.jobs[id].buses;
    var reply := BusReply(buses[0], Lookup(objects, buses[0].service));
    var a := ObjectsReply(id, reply.objects, r);
    var m1 := Step(su, m, a);
    BusScanned(su, m, id, cache, done, reply, r);
    hide Run, Step, ScanAll, ScanCache, ObjectReplies, ScanReplies, Scanned, Lookup, ScannedSoFar;
    ObjectRepliesFirst(id, buses, objects, done, r);
    FirstAction(su, m, a, ObjectReplies(id, buses[1..], objects, r));
    if |buses| == 1 {
      assert buses[1..] == [];
      NoReplies(id, objects, r);
      NoMoreRun(su, m1);
      assert done + [reply] + [] == done + [reply];
    } else {
      ObjectsPhase(su, m1, id, cache, done + [reply], objects, r);
      ScannedLater(su, m, m1, Run(su, m1, ObjectReplies(id, buses[1..], objects, r)), id, m1.core.jobs[id], cache,
                   done + [reply] + ScanReplies(buses[1..], objects), r);
    }
  }

  lemma NoReplies(id: nat, objects: map<string, seq<ManagedObject>>, r: Replies)
    ensures ObjectReplies(id, [], objects, r) == [] && ScanReplies([], objects) == []
  {
  }

  lemma BusScanned(su: Setup, m: Machine, id: nat, cache: Cache, done: seq<BusReply>, reply: BusReply, r: Replies)
    requires ScannedSoFar(su, m.core, id, cache, done, r) && reply.bus == m.core.jobs[id].buses[0]
    ensures var n := Step(su, m, ObjectsReply(id, reply.objects, r));
      var job := m.core.jobs[id];
      if |job.buses| == 1 then Scanned(su, m, n, id, cache, done + [reply], r)
      else
        && ScannedSoFar(su, n.core, id, cache, done + [reply], r)
        && n.core.jobs == m.core.jobs[id := n.core.jobs[id]] && n.core.jobs[id].buses == job.buses[1..]
        && n.core.nextJob == m.core.nextJob && n.core.matchedBuses == m.core.matchedBuses
        && n.pending == m.pending && n.log == m.log
  {
    var job := m.core.jobs[id];
    var c := if reply.objects.None? then m.core else Remember(m.core, reply.bus.service, r);
    assert c.jobs == m.core.jobs && c.nextJob == m.core.nextJob && c.matchedBuses == m.core.matchedBuses;
    hide Step, Complete, ScanAll, ScanCache, ReplyEids, CacheAfter, Handlers.Keeping, Scanned;
    Handlers.ObjectsStep(su, m, id, reply.objects, r, job);
    ReplyInScan(su, m.core, id, cache, done, reply, r);
    hide Resumed, Remember;
    if |job.buses| == 1 {
      KeepLast(su, m, c, id, job, cache, done + [reply], r);
    } else {
      KeepOn(su, m, c, id, job, cache, done + [reply], r);
    }
  }

  lemma KeepLast(su: Setup, m: Machine, c: Core, id: nat, job: Job, cache: Cache, all: seq<BusReply>, r: Replies)
    requires job.AwaitObjects? && |job.buses| == 1 && c.networkIDCache == ScanCache(cache, all, r.networkIds)
    requires c.jobs == m.core.jobs && c.nextJob == m.core.nextJob && c.matchedBuses == m.core.matchedBuses
    ensures var eids := ScanAll(su.filter, cache, all, r.networkIds);
      Scanned(su, m, Handlers.Keeping(su, m.(core := c), id, job, eids, r), id, cache, all, r)
  {
    hide ScanAll, ScanCache, Complete;
    CompleteFrame(su, c, id, r);
  }

  lemma KeepOn(su: Setup, m: Machine, c: Core, id: nat, job: Job, cache: Cache, all: seq<BusReply>, r: Replies)
    requires job.AwaitObjects? && |job.buses| > 1 && c.networkIDCache == ScanCache(cache, all, r.networkIds)
    requires c.jobs == m.core.jobs && c.nextJob == m.core.nextJob && c.matchedBuses == m.core.matchedBuses
    ensures var eids := ScanAll(su.filter, cache, all, r.networkIds);
      var n := Handlers.Keeping(su, m.(core := c), id, job, eids, r);
      && ScannedSoFar(su, n.core, id, cache, all, r)
      && n.core.jobs == m.core.jobs[id := n.core.jobs[id]] && n.core.jobs[id].buses == job.buses[1..]
      && n.core.nextJob == m.core.nextJob && n.core.matchedBuses == m.core.matchedBuses
      && n.pending == m.pending && n.log == m.log
  {
    hide ScanAll, ScanCache, Complete;
  }

  lemma ReplyInScan(su: Setup, c: Core, id: nat, cache: Cache, done: seq<BusReply>, reply: BusReply, r: Replies)
    requires ScannedSoFar(su, c, id, cache, done, r) && reply.bus == c.jobs[id].buses[0]
    ensures c.jobs[id].eids + ReplyEids(su, c, reply.bus, reply.objects)
      == ScanAll(su.filter, cache, done + [reply], r.networkIds)
    ensures (if reply.objects.None? then c else Remember(c, reply.bus.service, r)).networkIDCache
      == ScanCache(cache, done + [reply], r.networkIds)
  {
    hide ScanAll, ScanCache, LayerOf, Contribution, CacheAfter;
    Handlers.OneMoreBus(su.filter, cache, done, reply, r.networkIds);
  }

  lemma CompleteFrame(su: Setup, c: Core, id: nat, r: Replies)
    ensures var n := Complete(su, c, id, r);
      && n.jobs == c.jobs - {id} && n.nextJob == c.nextJob && n.initialised
      && n.matchedBuses == c.matchedBuses && n.networkIDCache == c.networkIDCache
  {
    hide RegisterVersions, InstallOwnEid;
  }

  // ---- The whole detection ----

  lemma Begun(su: Setup, m: Machine)
    ensures var n := Step(su, m, BeginDetection);
      n == m.(core := m.core.(jobs := m.core.jobs[m.core.nextJob := AwaitServices], nextJob := m.core.nextJob + 1))
  {
    Handlers.CallStep(su, m, BeginDetection);
    hide Step;
  }

  lemma ServicesSearched(su: Setup, m: Machine, id: nat, services: seq<string>, r: Replies)
    requires id in m.core.jobs && m.core.jobs[id].AwaitServices?
    ensures var n := Step(su, m, ServicesReply(id, Some(services), r));
      if FirstUsable(services, r.busIds) < |services|
      then n == Moved(m, id, NextJob(services, [], {}, r.busIds), {}, m.core.initialised)
      else n == m.(core := Complete(su, m.core, id, r), endpointMap := map[])
  {
    hide FirstUsable, Complete, NextJob, Step;
    Handlers.ServicesStep(su, m, id, Some(services), r);
    if FirstUsable(services, r.busIds) < |services| {
      ResolveMoves(su, m.core, id, services, [], {}, r);
      hide Resolve;
      assert m.core.matchedBuses + {} == m.core.matchedBuses;
    }
  }

  lemma NothingToScan(su: Setup, m: Machine, id: nat, r: Replies)
    ensures Scanned(su, m, m.(core := Complete(su, m.core, id, r), endpointMap := map[]), id, m.core.networkIDCache,
                    [], r)
  {
    Handlers.NothingScanned(su.filter, m.core.networkIDCache, r.networkIds);
    CompleteFrame(su, m.core, id, r);
    hide Complete, ScanAll, ScanCache;
  }

  /** From the services to the end, when there is a bus to scan. */
  lemma FirstOwnerPhase(su: Setup, m: Machine, id: nat, services: seq<string>, owners: map<string, string>,
                        objects: map<string, seq<ManagedObject>>, r: Replies)
    requires FirstUsable(services, r.busIds) < |services|
    ensures var buses := Usable(services, r.busIds);
      var m1 := Moved(m, id, NextJob(services, [], {}, r.busIds), {}, m.core.initialised);
      Scanned(su, m.(core := m.core.(matchedBuses := m.core.matchedBuses + Owners(buses, owners))),
              Run(su, m1, OwnerReplies(id, buses, owners, r) + ObjectReplies(id, buses, objects, r)), id,
              m.core.networkIDCache, ScanReplies(buses, objects), r)
  {
    hide Run, Usable, FirstUsable, Owners, OwnerReplies, ObjectReplies, ScanReplies, Scanning, Scanned, OnlySearched;
    hide OwnerName, Lookup;
    var buses := Usable(services, r.busIds);
    var m1 := Moved(m, id, NextJob(services, [], {}, r.busIds), {}, m.core.initialised);
    var k := FirstUsable(services, r.busIds);
    var bus := Entry(r.busIds[services[k]], services[k]);
    var later := Usable(services[k + 1..], r.busIds);
    FirstJob(services, r.busIds);
    MovedOnlySearched(m, id, NextJob(services, [], {}, r.busIds), {}, m.core.initialised);
    assert id in m1.core.jobs && m1.core.jobs[id] == AwaitOwner(services[k], services[k + 1..], [bus], {});
    assert m1.core.matchedBuses == m.core.matchedBuses;
    hide Moved, NextJob;
    OwnersPhase(su, m1, id, services[k], services[k + 1..], [bus], {}, owners, r);
    UsableFirst(services, r.busIds);
    OwnerRepliesFirst(id, bus, later, owners, r);
    OwnersFirst(bus, later, owners);
    RunConcat(su, m1, OwnerReplies(id, buses, owners, r), ObjectReplies(id, buses, objects, r));
    ScanFromNothing(su, m, m1, Run(su, m1, OwnerReplies(id, buses, owners, r)), id, buses, owners, objects, r);
  }

  lemma FirstJob(services: seq<string>, busIds: map<string, nat>)
    requires FirstUsable(services, busIds) < |services|
    ensures var k := FirstUsable(services, busIds);
      NextJob(services, [], {}, busIds)
      == AwaitOwner(services[k], services[k + 1..], [Entry(busIds[services[k]], services[k])], {})
  {
    hide FirstUsable;
    assert forall bus: Entry :: [] + [bus] == [bus];
  }

  lemma ServicesPhase(su: Setup, m: Machine, id: nat, services: seq<string>, owners: map<string, string>,
                      objects: map<string, seq<ManagedObject>>, r: Replies)
    requires id in m.core.jobs && m.core.jobs[id].AwaitServices?
    ensures var buses := Usable(services, r.busIds);
      var n := Run(su, m, [ServicesReply(id, Some(services), r)]
                          + (OwnerReplies(id, buses, owners, r) + ObjectReplies(id, buses, objects, r)));
      Scanned(su, m.(core := m.core.(matchedBuses := m.core.matchedBuses + Owners(buses, owners))), n, id,
              m.core.networkIDCache, ScanReplies(buses, objects), r)
  {
    var a := ServicesReply(id, Some(services), r);
    var buses := Usable(services, r.busIds);
    hide Run, Step, Usable, Owners, OwnerReplies, ObjectReplies, ScanReplies, Scanned, Moved, NextJob, Complete;
    ServicesSearched(su, m, id, services, r);
    FirstAction(su, m, a, OwnerReplies(id, buses, owners, r) + ObjectReplies(id, buses, objects, r));
    if FirstUsable(services, r.busIds) < |services| {
      FirstOwnerPhase(su, m, id, services, owners, objects, r);
    } else {
      UsableFirst(services, r.busIds);
      NoReplies(id, objects, r);
      NoOwners(owners);
      OwnerRepliesFirst(id, Entry(0, ""), [], owners, r);
      NoMoreRun(su, Step(su, m, a));
      NothingToScan(su, m, id, r);
      assert OwnerReplies(id, [], owners, r) + ObjectReplies(id, [], objects, r) == [];
      assert m.core.matchedBuses + {} == m.core.matchedBuses;
      assert m.(core := m.core.(matchedBuses := m.core.matchedBuses + {})) == m;
    }
  }

  lemma ScanFromNothing(su: Setup, m: Machine, m1: Machine, m2: Machine, id: nat, buses: seq<Entry>,
                        owners: map<string, string>, objects: map<string, seq<ManagedObject>>, r: Replies)
    requires OnlySearched(m, m1, id) && m1.core.matchedBuses == m.core.matchedBuses
    requires Scanning(m1, m2, id, buses, Owners(buses, owners)) && buses != []
    ensures Scanned(su, m.(core := m.core.(matchedBuses := m.core.matchedBuses + Owners(buses, owners))),
                    Run(su, m2, ObjectReplies(id, buses, objects, r)), id, m.core.networkIDCache,
                    ScanReplies(buses, objects), r)
  {
    Handlers.NothingScanned(su.filter, m.core.networkIDCache, r.networkIds);
    hide Run, ScanAll, ScanCache, Owners;
    ObjectsPhase(su, m2, id, m.core.networkIDCache, [], objects, r);
    assert [] + ScanReplies(buses, objects) == ScanReplies(buses, objects);
  }

  /**
   An uninterrupted detection computes the whole scan. Begun and answered reply by reply, it ends with the owners of
   all usable services matched, the map that one scan of their buses in order yields, the cache that this scan leaves,
   initialisation done, and nothing else begun or spawned.
   */
  lemma UninterruptedDetection(su: Setup, m: Machine, services: seq<string>, owners: map<string, string>,
                               objects: map<string, seq<ManagedObject>>, r: Replies)
    requires Coverage.JobsNumbered(m.core)
    ensures var id := m.core.nextJob;
      var buses := Usable(services, r.busIds);
      var n := Run(su, m, Uninterrupted(id, services, owners, objects, r));
      && n.endpointMap == ScanAll(su.filter, m.core.networkIDCache, ScanReplies(buses, objects), r.networkIds)
      && n.core.networkIDCache == ScanCache(m.core.networkIDCache, ScanReplies(buses, objects), r.networkIds)
      && n.core.matchedBuses == m.core.matchedBuses + Owners(buses, owners)
      && n.core.initialised && n.core.jobs == m.core.jobs && n.core.nextJob == id + 1
      && n.pending == m.pending && n.log == m.log
  {
    var id := m.core.nextJob;
    var buses := Usable(services, r.busIds);
    var rest := [ServicesReply(id, Some(services), r)]
                + (OwnerReplies(id, buses, owners, r) + ObjectReplies(id, buses, objects, r));
    Begun(su, m);
    hide Run, Step, Usable, Owners, OwnerReplies, ObjectReplies, ScanReplies, ScanAll, ScanCache;
    assert Uninterrupted(id, services, owners, objects, r) == [BeginDetection] + rest;
    FirstAction(su, m, BeginDetection, rest);
    ServicesPhase(su, Step(su, m, BeginDetection), id, services, owners, objects, r);
    assert m.core.jobs[id := AwaitServices] - {id} == m.core.jobs;
  }
}

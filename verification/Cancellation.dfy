/**
 An addition that is taken back: what remains, also when other work comes in between, when the
 network id was not cached, and when the insertion runs late.
 */
module Cancellation {
  import opened Wrappers
  import opened DeviceIds
  import opened Names
  import opened Vendor
  import opened Dbus
  import opened Scan
  import opened Tracker
  import opened NetworkIds
  import opened Difference
  import opened Steps
  import Conservation
  import Paths

  // ---- Addition and removal ----

  /** The machine once an announcement was handled and its insertion run. */
  function AfterAddition(su: Setup, m: Machine, a: Action): Machine
    requires SpawnedAdd(su, m.core, a).Some?
  {
    Step(su, Step(su, m, a), RunTask(SpawnedAdd(su, m.core, a).value))
  }

  /** What is left after a handled announcement: the entry, one notification, and what the cache learnt. */
  lemma AdditionEffect(su: Setup, m: Machine, a: Action, d: DeviceID)
    requires su.networkChange.Some? && AddedDevice(su, m.core, a) == Some(d)
    ensures var n := AfterAddition(su, m, a);
      && n.core == Remember(m.core, a.signal.sender, a.replies)
      && n.endpointMap == Emplace(m.endpointMap, d, Entry(0, a.signal.sender))
      && n.pending == m.pending
      && n.log == m.log + [DeviceAdded(d.MctpEID(), d)]
  {
    assert a.Event?;
    hide Step, AddedDevice, Emplace;
    var task := AddDevice(d, a.signal.sender);
    AnnouncementStep(su, m, a);
    TaskStep(su, Step(su, m, a), task);
    assert m.pending + multiset{task} - multiset{task} == m.pending;
  }

  /** The addition and the removal are about the same path, from the same sender. */
  predicate Opposite(add: Action, remove: Action) {
    && add.Event? && remove.Event? && add.signal.sender == remove.signal.sender
    && add.signal.body.InterfacesAdded? && remove.signal.body.InterfacesRemoved?
    && add.signal.body.path == remove.signal.body.path
    && SupportedMessageTypes in remove.signal.body.interfaces
  }

  lemma RemovalDevice(su: Setup, c: Core, c': Core, add: Action, remove: Action, d: DeviceID)
    requires Opposite(add, remove) && AddedDevice(su, c, add) == Some(d)
    requires c'.initialised && add.signal.sender in c'.matchedBuses
    ensures RemovedDevice(su, c', remove)
      == Some(MakeDeviceID(d.MctpEID(), NetworkIdOf(c'.networkIDCache, add.signal.sender)))
  {
    hide Paths.IsEndpoint, Paths.IsBase, Paths.EventPathEid;
    PackRoundTrip(Paths.EventPathEid(add.signal.body.path).value, NetworkIdOf(c.networkIDCache, add.signal.sender));
  }

  lemma RemoveEmplaced(eids: EndpointMap, d: DeviceID, entry: Entry)
    ensures Emplace(eids, d, entry) - {d} == eids - {d}
  {
  }

  /** The network id under which a sender's next device is filed is the one used just now. */
  predicate Warm(c: Core, a: Action) {
    a.Event? && (a.signal.sender in c.networkIDCache || a.signal.sender !in a.replies.networkIds
                 || a.replies.networkIds[a.signal.sender] == 0)
  }

  lemma WarmNetworkId(c: Core, a: Action)
    requires a.Event?
    ensures Warm(c, a) <==>
      NetworkIdOf(Remember(c, a.signal.sender, a.replies).networkIDCache, a.signal.sender)
        == NetworkIdOf(c.networkIDCache, a.signal.sender)
  {
  }

  lemma AddedNetwork(su: Setup, c: Core, a: Action, d: DeviceID)
    requires AddedDevice(su, c, a) == Some(d)
    ensures a.Event? && d == MakeDeviceID(d.MctpEID(), NetworkIdOf(c.networkIDCache, a.signal.sender))
    ensures c.initialised && a.signal.sender in c.matchedBuses
  {
    hide Paths.EventPathEid, Paths.IsBase, Announces;
    PackRoundTrip(Paths.EventPathEid(a.signal.body.path).value, NetworkIdOf(c.networkIDCache, a.signal.sender));
  }

  /**
   Cancellation holds exactly for a warm network id. An announcement, its insertion and the removal of
   the same path leave the starting map without that device, with both notifications about it, if and
   only if the sender was cached or its NetworkID read as absent or zero; otherwise the device stays.
   */
  lemma AdditionThenRemoval(su: Setup, m: Machine, add: Action, remove: Action, d: DeviceID)
    requires su.networkChange.Some? && AddedDevice(su, m.core, add) == Some(d) && Opposite(add, remove)
    ensures var n := AfterAddition(su, m, add); var end := Step(su, n, remove);
      && n.log == m.log + [DeviceAdded(d.MctpEID(), d)]
      && (Warm(m.core, add) <==> end.endpointMap == m.endpointMap - {d})
      && (Warm(m.core, add) ==> end.pending == m.pending + multiset{NotifyRemoved(d)})
      && (!Warm(m.core, add) ==> d in end.endpointMap)
  {
    AddedNetwork(su, m.core, add, d);
    var n := AfterAddition(su, m, add);
    AdditionEffect(su, m, add, d);
    RemovalDevice(su, m.core, n.core, add, remove, d);
    hide Step, AddedDevice, RemovedDevice, AfterAddition, Emplace, MakeDeviceID;
    WithdrawalStep(su, n, remove);
    WarmNetworkId(m.core, add);
    PackInjective(d.MctpEID(), NetworkIdOf(m.core.networkIDCache, add.signal.sender),
                  d.MctpEID(), NetworkIdOf(n.core.networkIDCache, add.signal.sender));
    RemoveEmplaced(m.endpointMap, d, Entry(0, add.signal.sender));
    EmplacedIsThere(m.endpointMap, d, Entry(0, add.signal.sender));
  }

  lemma EmplacedIsThere(eids: EndpointMap, d: DeviceID, entry: Entry)
    ensures d in Emplace(eids, d, entry)
  {
  }

  lemma DevicePath(eid: byte)
    ensures var path := DevicePrefix.Text() + Paths.Decimal(eid);
      Paths.IsEndpoint(path) && !Paths.IsBase(path) && Paths.EventPathEid(path) == Ok(eid)
  {
    hide Paths.EventPathEid, Paths.Decimal;
    Paths.DevicePrefixShape();
    Paths.PathUnderDirectory(DevicePrefix.Text(), eid);
  }

  lemma DevicePathSignal(su: Setup, c: Core, signal: Signal, eid: byte)
    requires c.initialised && signal.sender in c.matchedBuses && signal.body.InterfacesAdded?
    requires signal.body.path == DevicePrefix.Text() + Paths.Decimal(eid)
    requires SupportedMessageTypes in signal.body.values
    requires SupportFlag(su.filter.config, signal.body.values[SupportedMessageTypes]) == Ok(true)
    ensures SignalDevice(su, c, signal) == Some(MakeDeviceID(eid, NetworkIdOf(c.networkIDCache, signal.sender)))
  {
    hide Paths.EventPathEid, Paths.IsEndpoint, Paths.IsBase, Paths.Decimal;
    DevicePath(eid);
  }

  /** A cold cache in the concrete: a service on network 5 adds and removes EID 8, and 8 on network 0 stays. */
  lemma ColdCacheLeavesDevice(config: Config, path: string)
    requires config.msgType == Pldm && path == DevicePrefix.Text() + Paths.Decimal(8)
    ensures
      var su := Setup(Filter(Little, config), Some(0), None);
      var start := INITIAL.(core := INITIAL_CORE.(initialised := true, matchedBuses := {":1.7"}));
      var replies := Replies(map[":1.7" := 5], map[], map[], {});
      var values: Interfaces := map[SupportedMessageTypes := map[Supports(Pldm) := Bool(true)]];
      var add := Event(Signal(":1.7", InterfacesAdded(path, values)), replies);
      var remove := Event(Signal(":1.7", InterfacesRemoved(path, [SupportedMessageTypes])), replies);
      AddedDevice(su, start.core, add) == Some(MakeDeviceID(8, 0))
      && MakeDeviceID(8, 0) in Step(su, AfterAddition(su, start, add), remove).endpointMap
  {
    var su := Setup(Filter(Little, config), Some(0), None);
    var start := INITIAL.(core := INITIAL_CORE.(initialised := true, matchedBuses := {":1.7"}));
    var replies := Replies(map[":1.7" := 5], map[], map[], {});
    var values: Interfaces := map[SupportedMessageTypes := map[Supports(Pldm) := Bool(true)]];
    var add := Event(Signal(":1.7", InterfacesAdded(path, values)), replies);
    var remove := Event(Signal(":1.7", InterfacesRemoved(path, [SupportedMessageTypes])), replies);
    hide Step, AfterAddition, SignalDevice, Paths.Decimal;
    DevicePathSignal(su, start.core, add.signal, 8);
    AdditionThenRemoval(su, start, add, remove, MakeDeviceID(8, 0));
  }

  // ---- With other work in between ----

  /** The log of "plain" with the notification of d's addition after its first k outputs. */
  predicate LogWithAddition(plain: seq<Output>, with: seq<Output>, d: DeviceID, k: nat) {
    k <= |plain| && with == plain[..k] + [DeviceAdded(d.MctpEID(), d)] + plain[k..]
  }

  /**
   With the removal handled after "with", the map is that of "plain" without d, the log is that of "plain"
   with the addition of d after k outputs, and a notice for the same d waits if d was still there.
   */
  ghost predicate TakenBack(su: Setup, plain: Machine, with: Machine, remove: Action, d: DeviceID, k: nat) {
    var end := Step(su, with, remove);
    && RemovedDevice(su, with.core, remove) == Some(d)
    && end.endpointMap == plain.endpointMap - {d}
    && LogWithAddition(plain.log, end.log, d, k)
    && end.pending == plain.pending + (if d in with.endpointMap then multiset{NotifyRemoved(d)} else multiset{})
  }

  lemma RemovalOfDifference(su: Setup, plain: Machine, with: Machine, remove: Action, d: DeviceID, k: nat)
    requires su.networkChange.Some? && SameBut(plain, with, d, k, k + 1)
    requires LogWithAddition(plain.log, with.log, d, k) && RemovedDevice(su, with.core, remove) == Some(d)
    ensures TakenBack(su, plain, with, remove, d, k)
  {
    hide Step, RemovedDevice, LogWithAddition;
    WithdrawalStep(su, with, remove);
    forall e
      ensures Lookup(with.endpointMap - {d}, e) == Lookup(plain.endpointMap - {d}, e)
    {
      if e != d {
        assert Lookup(plain.endpointMap, e) == Lookup(with.endpointMap, e);
      }
    }
    SameLookups(with.endpointMap - {d}, plain.endpointMap - {d});
  }

  /** The insertion that an announcement of d spawns, and its run. */
  function InsertionTask(add: Action, d: DeviceID): Task
    requires add.Event?
  {
    AddDevice(d, add.signal.sender)
  }

  function Insertion(add: Action, d: DeviceID): Action
    requires add.Event?
  {
    RunTask(InsertionTask(add, d))
  }

  lemma CachedAnnouncement(su: Setup, m: Machine, add: Action, d: DeviceID)
    requires add.Event? && su.networkChange.Some? && AddedDevice(su, m.core, add) == Some(d)
    requires add.signal.sender in m.core.networkIDCache
    ensures Ahead(m, Step(su, m, add), AddDevice(d, add.signal.sender))
  {
    AnnouncementStep(su, m, add);
    hide Step, AddedDevice;
  }

  /**
   What an addition amounts to among any work. A cached sender announces d, any work follows that runs no
   insertion but its own, and then this insertion runs. The machine is the one the work alone leads to, with
   the entry made unless there is one, and the notification given.
   */
  lemma AdditionAmongWork(su: Setup, m: Machine, add: Action, work: seq<Action>, d: DeviceID)
    requires add.Event? && su.networkChange.Some? && AddedDevice(su, m.core, add) == Some(d)
    requires add.signal.sender in m.core.networkIDCache && RunsItsOwn(su, m, work, InsertionTask(add, d))
    ensures var n := Run(su, m, work);
      Run(su, m, [add] + work + [Insertion(add, d)])
      == Machine(n.core, Emplace(n.endpointMap, d, Entry(0, add.signal.sender)), n.pending,
                 n.log + [DeviceAdded(d.MctpEID(), d)])
  {
    var task := AddDevice(d, add.signal.sender);
    hide Run, Step, AddedDevice, Emplace, RunsItsOwn;
    CachedAnnouncement(su, m, add, d);
    RunKeepsAhead(su, m, Step(su, m, add), work, task);
    FirstAction(su, m, add, work);
    RunAppend(su, m, [add] + work, RunTask(task));
    var n := Run(su, m, work);
    TaskStep(su, Run(su, m, [add] + work), task);
    assert n.pending + multiset{task} - multiset{task} == n.pending;
  }

  /** The addition as a difference to the work alone, and through more work that leaves d alone. */
  lemma AdditionBeforeWork(su: Setup, m: Machine, add: Action, work: seq<Action>, more: seq<Action>, d: DeviceID)
    requires add.Event? && su.networkChange.Some? && AddedDevice(su, m.core, add) == Some(d)
    requires add.signal.sender in m.core.networkIDCache && RunsItsOwn(su, m, work, InsertionTask(add, d))
    requires LeavesAlone(su, Run(su, m, work), more, d)
    ensures var before, plain := Run(su, m, work), Run(su, m, work + more);
      var with := Run(su, m, [add] + work + [Insertion(add, d)] + more);
      && SameBut(plain, with, d, |before.log|, |before.log| + 1)
      && LogWithAddition(plain.log, with.log, d, |before.log|)
      && (Conservation.NoRescan(su, before, more) ==>
            Lookup(with.endpointMap, d)
            == Some(if d in before.endpointMap then before.endpointMap[d] else Entry(0, add.signal.sender)))
  {
    hide Run, Step, AddedDevice, LeavesAlone, RunsItsOwn, Conservation.NoRescan;
    AdditionAmongWork(su, m, add, work, d);
    RunConcat(su, m, work, more);
    RunConcat(su, m, [add] + work + [Insertion(add, d)], more);
    var before, start := Run(su, m, work), Run(su, m, [add] + work + [Insertion(add, d)]);
    assert before.log[|before.log|..] == [] == start.log[|before.log| + 1..];
    RunKeepsSame(su, before, start, more, d, |before.log|, |before.log| + 1);
    LogGrows(su, before, more);
    LogGrows(su, start, more);
    AdditionInLog(before.log, Run(su, before, more).log, Run(su, start, more).log, d);
    if Conservation.NoRescan(su, before, more) {
      SameWork(su, before, start, more, d);
      SameScans(su, before, start, more, d);
      StaysPresent(su, start, more, d);
    }
  }

  lemma AdditionInLog(before: seq<Output>, plain: seq<Output>, with: seq<Output>, d: DeviceID)
    requires before <= plain && before + [DeviceAdded(d.MctpEID(), d)] <= with
    requires with[|before| + 1..] == plain[|before|..]
    ensures LogWithAddition(plain, with, d, |before|)
  {
    assert with == with[..|before| + 1] + with[|before| + 1..];
  }

  /**
   Cancellation among other work. A cached, matched sender announces a device; any work may follow, w1,
   before its insertion runs (w1 runs no insertion but its own), and then any work w2 that does not
   withdraw the device; then the device is removed while its sender is still matched. In the end the map is
   the one that work alone would have produced, without the device; the log is that work's with the
   notification of this device's addition where the insertion ran; and the removal is notified for the same
   device whenever it was still in the map, as it is if no scan replaced the map since the insertion.
   */
  lemma CancellationAmongOthers(su: Setup, m: Machine, add: Action, w1: seq<Action>, w2: seq<Action>, remove: Action,
                                d: DeviceID)
    requires su.networkChange.Some? && AddedDevice(su, m.core, add) == Some(d) && Opposite(add, remove)
    requires add.signal.sender in m.core.networkIDCache
    ensures var before := Run(su, m, w1);
      var plain := Run(su, m, w1 + w2);
      var with := Run(su, m, [add] + w1 + [Insertion(add, d)] + w2);
      RunsItsOwn(su, m, w1, InsertionTask(add, d)) && LeavesAlone(su, before, w2, d)
      && add.signal.sender in plain.core.matchedBuses ==>
        && TakenBack(su, plain, with, remove, d, |before.log|)
        && (Conservation.NoRescan(su, before, w2) ==> d in with.endpointMap)
  {
    hide Run, Step, AddedDevice, RemovedDevice, MakeDeviceID, LeavesAlone, TakenBack, Conservation.NoRescan;
    hide RunsItsOwn, LogWithAddition;
    AddedNetwork(su, m.core, add, d);
    var before, plain := Run(su, m, w1), Run(su, m, w1 + w2);
    StaysInitialised(su, m, w1 + w2);
    NetworkIds.CacheOfRun(su, m, w1 + w2, 0);
    StartOfRun(su, m, w1 + w2);
    if RunsItsOwn(su, m, w1, InsertionTask(add, d)) && LeavesAlone(su, before, w2, d)
       && add.signal.sender in plain.core.matchedBuses {
      AdditionBeforeWork(su, m, add, w1, w2, d);
      var with := Run(su, m, [add] + w1 + [Insertion(add, d)] + w2);
      SameCores(plain, with, d, |before.log|, |before.log| + 1);
      hide SameBut;
      RemovalDevice(su, m.core, with.core, add, remove, d);
      RemovalOfDifference(su, plain, with, remove, d, |before.log|);
    }
  }

  lemma StartOfRun(su: Setup, m: Machine, actions: seq<Action>)
    ensures At(su, m, actions, 0) == m
  {
    hide Step;
    assert actions[..0] == [];
  }

  lemma SameCores(m: Machine, n: Machine, d: DeviceID, k: nat, l: nat)
    requires SameBut(m, n, d, k, l)
    ensures n.core == m.core
  {
  }

  // ---- When the removal hits ----

  /**
   Whether or not the cache was warm, with any work before the insertion and any work after it that leaves
   the device alone: the removal takes back the device that was announced if and only if the network id
   known for the sender is still the one it was announced under.
   */
  lemma RemovalHitsIff(su: Setup, m: Machine, add: Action, w1: seq<Action>, w2: seq<Action>, remove: Action,
                       d: DeviceID)
    requires su.networkChange.Some? && AddedDevice(su, m.core, add) == Some(d) && Opposite(add, remove)
    ensures var start := Run(su, m, [add] + w1);
      var inserted := Step(su, start, Insertion(add, d));
      var with := Run(su, inserted, w2);
      AddDevice(d, add.signal.sender) in start.pending && LeavesAlone(su, inserted, w2, d)
      && Conservation.NoRescan(su, inserted, w2) && add.signal.sender in with.core.matchedBuses ==>
        (d !in Step(su, with, remove).endpointMap
         <==> NetworkIdOf(with.core.networkIDCache, add.signal.sender)
              == NetworkIdOf(m.core.networkIDCache, add.signal.sender))
  {
    hide Run, Step, AddedDevice, RemovedDevice, MakeDeviceID, LeavesAlone, Conservation.NoRescan;
    AddedNetwork(su, m.core, add, d);
    var start := Run(su, m, [add] + w1);
    var inserted := Step(su, start, Insertion(add, d));
    var with := Run(su, inserted, w2);
    if AddDevice(d, add.signal.sender) in start.pending && LeavesAlone(su, inserted, w2, d)
       && Conservation.NoRescan(su, inserted, w2) && add.signal.sender in with.core.matchedBuses {
      StaysInitialised(su, m, [add] + w1);
      TaskStep(su, start, AddDevice(d, add.signal.sender));
      EmplacedIsThere(start.endpointMap, d, Entry(0, add.signal.sender));
      StaysInitialised(su, inserted, w2);
      StaysPresent(su, inserted, w2, d);
      RemovalDevice(su, m.core, with.core, add, remove, d);
      WithdrawalStep(su, with, remove);
      PackInjective(d.MctpEID(), NetworkIdOf(m.core.networkIDCache, add.signal.sender),
                    d.MctpEID(), NetworkIdOf(with.core.networkIDCache, add.signal.sender));
    }
  }

  // ---- Late insertions ----

  /**
   An insertion that runs late. A cached sender announces a device; any work w1 follows, then the removal,
   then any work w2, and only then the insertion; w3 comes last. The machine is the one reached without the
   announcement, but for the notification of the addition and for the device, which is in the map until it is
   withdrawn again or a detection replaces the map; nothing more is pending that would remove it.
   */
  lemma LateInsertionStays(su: Setup, m: Machine, add: Action, w1: seq<Action>, remove: Action, w2: seq<Action>,
                           w3: seq<Action>, d: DeviceID)
    requires su.networkChange.Some? && AddedDevice(su, m.core, add) == Some(d) && Opposite(add, remove)
    requires add.signal.sender in m.core.networkIDCache
    ensures var work := w1 + [remove] + w2;
      var before, plain := Run(su, m, work), Run(su, m, work + w3);
      var late := Run(su, m, [add] + work + [Insertion(add, d)] + w3);
      RunsItsOwn(su, m, work, InsertionTask(add, d)) && LeavesAlone(su, before, w3, d) ==>
        && SameBut(plain, late, d, |before.log|, |before.log| + 1)
        && LogWithAddition(plain.log, late.log, d, |before.log|)
        && (Conservation.NoRescan(su, before, w3) ==> d in late.endpointMap)
  {
    hide Run, Step, AddedDevice, LeavesAlone, RunsItsOwn, Conservation.NoRescan, SameBut, LogWithAddition;
    var work := w1 + [remove] + w2;
    if RunsItsOwn(su, m, work, InsertionTask(add, d)) && LeavesAlone(su, Run(su, m, work), w3, d) {
      AdditionBeforeWork(su, m, add, work, w3, d);
    }
  }

  /** The removal of a device that is not in the map changes nothing. */
  lemma EmptyRemoval(su: Setup, m: Machine, c: Core, add: Action, remove: Action, d: DeviceID)
    requires AddedDevice(su, c, add) == Some(d) && Opposite(add, remove)
    requires m.core.initialised && add.signal.sender in m.core.matchedBuses && d !in m.endpointMap
    requires add.signal.sender in c.networkIDCache && Extends(c.networkIDCache, m.core.networkIDCache)
    ensures Step(su, m, remove) == m
  {
    AddedNetwork(su, c, add, d);
    RemovalDevice(su, c, m.core, add, remove, d);
    hide AddedDevice, RemovedDevice, MakeDeviceID, Step;
    WithdrawalStep(su, m, remove);
    assert m.endpointMap - {d} == m.endpointMap;
  }

  lemma HandledRemovalOfCached(su: Setup, m: Machine, remove: Action, d: DeviceID)
    requires RemovedDevice(su, m.core, remove) == Some(d) && remove.Event?
    requires remove.signal.sender in m.core.networkIDCache
    ensures Step(su, m, remove).core == m.core
  {
    WithdrawalStep(su, m, remove);
    hide Step, RemovedDevice;
  }

  /** When the removal comes last, the map is the work's own: nothing of the addition is left to matter. */
  lemma RemovalLast(su: Setup, m: Machine, add: Action, w1: seq<Action>, w2: seq<Action>, remove: Action,
                    w3: seq<Action>, d: DeviceID)
    requires su.networkChange.Some? && AddedDevice(su, m.core, add) == Some(d) && Opposite(add, remove)
    requires add.signal.sender in m.core.networkIDCache && RunsItsOwn(su, m, w1, InsertionTask(add, d))
    ensures var before, plain := Run(su, m, w1), Run(su, m, w1 + w2);
      LeavesAlone(su, before, w2, d) && add.signal.sender in plain.core.matchedBuses && d !in plain.endpointMap ==>
        SameIndex(Run(su, m, w1 + w2 + w3),
                  Run(su, m, [add] + w1 + [Insertion(add, d)] + w2 + [remove] + w3))
  {
    hide Run, Step, AddedDevice, RemovedDevice, LeavesAlone, SameIndex, SameBut, Conservation.NoRescan;
    hide RunsItsOwn, LogWithAddition;
    var before, plain := Run(su, m, w1), Run(su, m, w1 + w2);
    if LeavesAlone(su, before, w2, d) && add.signal.sender in plain.core.matchedBuses && d !in plain.endpointMap {
      var early := [add] + w1 + [Insertion(add, d)] + w2;
      var with := Run(su, m, early);
      CancellationAmongOthers(su, m, add, w1, w2, remove, d);
      AdditionBeforeWork(su, m, add, w1, w2, d);
      SameCores(plain, with, d, |before.log|, |before.log| + 1);
      NetworkIds.CacheOfRun(su, m, w1 + w2, 0);
      StartOfRun(su, m, w1 + w2);
      HandledRemovalOfCached(su, with, remove, d);
      SameIndexAfterRemoval(su, plain, with, remove, d, |before.log|);
      RunAppend(su, m, early, remove);
      RunConcat(su, m, early + [remove], w3);
      RunConcat(su, m, w1 + w2, w3);
      RunKeepsSameIndex(su, plain, Step(su, with, remove), w3);
    }
  }

  lemma SameIndexAfterRemoval(su: Setup, plain: Machine, with: Machine, remove: Action, d: DeviceID, k: nat)
    requires TakenBack(su, plain, with, remove, d, k) && d !in plain.endpointMap
    requires Step(su, with, remove).core == plain.core
    ensures SameIndex(plain, Step(su, with, remove))
  {
    hide Step, RemovedDevice, LogWithAddition;
    assert plain.endpointMap - {d} == plain.endpointMap;
  }

  /** When the insertion comes last, the device is there in addition to what the work alone leads to. */
  lemma InsertionLast(su: Setup, m: Machine, add: Action, w1: seq<Action>, remove: Action, w2: seq<Action>,
                      w3: seq<Action>, d: DeviceID)
    requires su.networkChange.Some? && AddedDevice(su, m.core, add) == Some(d) && Opposite(add, remove)
    requires add.signal.sender in m.core.networkIDCache && RunsItsOwn(su, m, w1, InsertionTask(add, d))
    requires RunsItsOwn(su, Run(su, m, w1), w2, InsertionTask(add, d))
    ensures var before, plain := Run(su, m, w1), Run(su, m, w1 + w2);
      var late := Run(su, m, [add] + (w1 + [remove] + w2) + [Insertion(add, d)] + w3);
      add.signal.sender in before.core.matchedBuses && d !in before.endpointMap && LeavesAlone(su, plain, w3, d) ==>
        && SameBut(Run(su, m, w1 + w2 + w3), late, d, |plain.log|, |plain.log| + 1)
        && (Conservation.NoRescan(su, plain, w3) ==> d in late.endpointMap)
  {
    assert RunsItsOwn(su, Run(su, m, w1), [remove], InsertionTask(add, d));
    hide Run, Step, AddedDevice, LeavesAlone, RunsItsOwn, SameBut, LogWithAddition, Conservation.NoRescan;
    var before := Run(su, m, w1);
    if add.signal.sender in before.core.matchedBuses && d !in before.endpointMap {
      AddedNetwork(su, m.core, add, d);
      StaysInitialised(su, m, w1);
      NetworkIds.CacheOfRun(su, m, w1, 0);
      StartOfRun(su, m, w1);
      EmptyRemoval(su, before, m.core, add, remove, d);
      RunAppend(su, m, w1, remove);
      RunConcat(su, m, w1 + [remove], w2);
      RunConcat(su, m, w1, w2);
      RunConcat(su, m, w1 + [remove] + w2, w3);
      RunConcat(su, m, w1 + w2, w3);
      RunsItsOwnConcat(su, m, w1, [remove], InsertionTask(add, d));
      RunsItsOwnConcat(su, m, w1 + [remove], w2, InsertionTask(add, d));
      LateInsertionStays(su, m, add, w1, remove, w2, w3, d);
    }
  }

  /**
   The order decides. For a cached sender, with work before, between and after that does not touch the
   device, an announced and removed device is in the map in the end if and only if its insertion ran after
   the removal event.
   */
  lemma OrderDecides(su: Setup, m: Machine, add: Action, w1: seq<Action>, w2: seq<Action>, w3: seq<Action>,
                     remove: Action, d: DeviceID)
    requires su.networkChange.Some? && AddedDevice(su, m.core, add) == Some(d) && Opposite(add, remove)
    requires add.signal.sender in m.core.networkIDCache
    ensures var before, plain, end := Run(su, m, w1), Run(su, m, w1 + w2), Run(su, m, w1 + w2 + w3);
      var early := Run(su, m, [add] + w1 + [Insertion(add, d)] + w2 + [remove] + w3);
      var late := Run(su, m, [add] + (w1 + [remove] + w2) + [Insertion(add, d)] + w3);
      && RunsItsOwn(su, m, w1, InsertionTask(add, d)) && RunsItsOwn(su, before, w2, InsertionTask(add, d))
      && add.signal.sender in before.core.matchedBuses && add.signal.sender in plain.core.matchedBuses
      && d !in before.endpointMap && d !in plain.endpointMap && d !in end.endpointMap
      && LeavesAlone(su, before, w2, d) && LeavesAlone(su, plain, w3, d) && Conservation.NoRescan(su, plain, w3) ==>
        && early.endpointMap == end.endpointMap
        && late.endpointMap - {d} == end.endpointMap && d in late.endpointMap
        && late.pending == end.pending
  {
    hide Run, Step, AddedDevice, LeavesAlone, RunsItsOwn, Conservation.NoRescan;
    var before, end := Run(su, m, w1), Run(su, m, w1 + w2 + w3);
    var late := Run(su, m, [add] + (w1 + [remove] + w2) + [Insertion(add, d)] + w3);
    if RunsItsOwn(su, m, w1, InsertionTask(add, d)) && RunsItsOwn(su, before, w2, InsertionTask(add, d)) {
      RemovalLast(su, m, add, w1, w2, remove, w3, d);
      InsertionLast(su, m, add, w1, remove, w2, w3, d);
    }
    if d !in end.endpointMap && forall e :: e != d ==> Lookup(end.endpointMap, e) == Lookup(late.endpointMap, e) {
      OnlyDifference(end.endpointMap, late.endpointMap, d);
    }
  }

  lemma OnlyDifference(eids: EndpointMap, more: EndpointMap, d: DeviceID)
    requires d !in eids && forall e :: e != d ==> Lookup(eids, e) == Lookup(more, e)
    ensures more - {d} == eids
  {
    forall e
      ensures Lookup(more - {d}, e) == Lookup(eids, e)
    {
      if e != d {
        assert Lookup(eids, e) == Lookup(more, e);
      }
    }
    SameLookups(more - {d}, eids);
  }
}

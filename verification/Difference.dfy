/**
 Machines compared over runs: what a single device in the map, a waiting task or a waiting
 notification makes of the same work. The relations are kept by every step that does not touch the
 difference.
 */
module Difference {
  import opened Wrappers
  import opened DeviceIds
  import opened Dbus
  import opened Scan
  import opened Tracker
  import Conservation
  import Paths

  lemma {:induction false} RunConcat(su: Setup, m: Machine, a: seq<Action>, b: seq<Action>)
    ensures Run(su, m, a + b) == Run(su, Run(su, m, a), b)
  {
    hide Step;
    if b == [] {
      assert a + b == a;
    } else {
      RunConcat(su, m, a, b[..|b| - 1]);
      assert (a + b)[..|a + b| - 1] == a + b[..|b| - 1];
    }
  }

  lemma FirstAction(su: Setup, m: Machine, a: Action, work: seq<Action>)
    ensures Run(su, m, [a] + work) == Run(su, Step(su, m, a), work)
  {
    hide Step;
    RunConcat(su, m, [a], work);
    RunAppend(su, m, [], a);
    assert [] + [a] == [a];
  }

  // ---- Two machines that differ in one device ----

  /** Equal machines but for device d, and for the log before the two given points. */
  ghost predicate SameBut(m: Machine, n: Machine, d: DeviceID, k: nat, l: nat) {
    && n.core == m.core && n.pending == m.pending
    && (forall e :: e != d ==> Lookup(m.endpointMap, e) == Lookup(n.endpointMap, e))
    && k <= |m.log| && l <= |n.log| && m.log[k..] == n.log[l..]
  }

  lemma StepKeepsSameMap(su: Setup, m: Machine, n: Machine, a: Action, d: DeviceID, e: DeviceID)
    requires n.core == m.core && n.pending == m.pending && e != d
    requires Lookup(m.endpointMap, e) == Lookup(n.endpointMap, e)
    ensures Lookup(MapStep(su, m, a), e) == Lookup(MapStep(su, n, a), e)
  {
    hide Overwrites, Inserts, SignalDevice;
  }

  lemma StepKeepsSamePending(su: Setup, m: Machine, n: Machine, a: Action, d: DeviceID)
    requires n.core == m.core && n.pending == m.pending
    requires forall e :: e != d ==> Lookup(m.endpointMap, e) == Lookup(n.endpointMap, e)
    requires RemovedDevice(su, m.core, a) != Some(d)
    ensures PendingStep(su, m, a) == PendingStep(su, n, a)
  {
    hide SignalDevice;
    if RemovedDevice(su, m.core, a).Some? {
      var e := RemovedDevice(su, m.core, a).value;
      assert Lookup(m.endpointMap, e) == Lookup(n.endpointMap, e);
    }
  }

  /** Whatever does not withdraw d keeps the two machines alike. */
  lemma StepKeepsSame(su: Setup, m: Machine, n: Machine, a: Action, d: DeviceID, k: nat, l: nat)
    requires SameBut(m, n, d, k, l) && RemovedDevice(su, m.core, a) != Some(d)
    ensures SameBut(Step(su, m, a), Step(su, n, a), d, k, l)
  {
    hide CoreStep, MapStep, PendingStep, Outputs, RemovedDevice;
    forall e | e != d
      ensures Lookup(MapStep(su, m, a), e) == Lookup(MapStep(su, n, a), e)
    {
      StepKeepsSameMap(su, m, n, a, d, e);
    }
    StepKeepsSamePending(su, m, n, a, d);
    assert LogStep(su, m, a)[k..] == LogStep(su, n, a)[l..] by {
      SuffixOfAppend(m.log, LogStep(su, m, a)[|m.log|..], k);
      SuffixOfAppend(n.log, LogStep(su, n, a)[|n.log|..], l);
      assert LogStep(su, m, a) == m.log + LogStep(su, m, a)[|m.log|..];
      assert LogStep(su, n, a) == n.log + LogStep(su, n, a)[|n.log|..];
    }
  }

  lemma SuffixOfAppend(log: seq<Output>, more: seq<Output>, k: nat)
    requires k <= |log|
    ensures (log + more)[k..] == log[k..] + more
  {
  }

  /** No action of the run withdraws d. */
  ghost predicate LeavesAlone(su: Setup, m: Machine, actions: seq<Action>, d: DeviceID) {
    forall i :: 0 <= i < |actions| ==> RemovedDevice(su, At(su, m, actions, i).core, actions[i]) != Some(d)
  }

  lemma LeavesAloneFront(su: Setup, m: Machine, actions: seq<Action>, d: DeviceID)
    requires actions != [] && LeavesAlone(su, m, actions, d)
    ensures LeavesAlone(su, m, actions[..|actions| - 1], d)
    ensures RemovedDevice(su, Run(su, m, actions[..|actions| - 1]).core, actions[|actions| - 1]) != Some(d)
  {
    hide Step, RemovedDevice;
    var n := |actions| - 1;
    forall i | 0 <= i < n
      ensures RemovedDevice(su, At(su, m, actions[..n], i).core, actions[i]) != Some(d)
    {
      assert actions[..n][..i] == actions[..i];
    }
    assert RemovedDevice(su, At(su, m, actions, n).core, actions[n]) != Some(d);
  }

  lemma {:induction false} RunKeepsSame(su: Setup, m: Machine, n: Machine, actions: seq<Action>, d: DeviceID,
                                        k: nat, l: nat)
    requires SameBut(m, n, d, k, l) && LeavesAlone(su, m, actions, d)
    ensures SameBut(Run(su, m, actions), Run(su, n, actions), d, k, l)
  {
    hide Step, RemovedDevice, SameBut;
    if actions != [] {
      var front := actions[..|actions| - 1];
      LeavesAloneFront(su, m, actions, d);
      RunKeepsSame(su, m, n, front, d, k, l);
      StepKeepsSame(su, Run(su, m, front), Run(su, n, front), actions[|actions| - 1], d, k, l);
    }
  }

  /** What the work withdraws does not depend on the difference. */
  lemma SameWork(su: Setup, m: Machine, start: Machine, work: seq<Action>, d: DeviceID)
    requires SameBut(m, start, d, |m.log|, |m.log| + 1) && LeavesAlone(su, m, work, d)
    ensures LeavesAlone(su, start, work, d)
  {
    hide Step, RemovedDevice;
    forall i | 0 <= i < |work|
      ensures RemovedDevice(su, At(su, start, work, i).core, work[i]) != Some(d)
    {
      LeavesAlonePrefix(su, m, work, d, i);
      RunKeepsSame(su, m, start, work[..i], d, |m.log|, |m.log| + 1);
      assert RemovedDevice(su, At(su, m, work, i).core, work[i]) != Some(d);
    }
  }

  lemma LeavesAlonePrefix(su: Setup, m: Machine, work: seq<Action>, d: DeviceID, i: nat)
    requires LeavesAlone(su, m, work, d) && i <= |work|
    ensures LeavesAlone(su, m, work[..i], d)
  {
    hide Step, RemovedDevice;
    forall j | 0 <= j < i
      ensures RemovedDevice(su, At(su, m, work[..i], j).core, work[..i][j]) != Some(d)
    {
      assert work[..i][..j] == work[..j];
      assert RemovedDevice(su, At(su, m, work, j).core, work[j]) != Some(d);
    }
  }

  lemma NoRescanPrefix(su: Setup, m: Machine, work: seq<Action>, i: nat)
    requires Conservation.NoRescan(su, m, work) && i < |work|
    ensures Overwrites(su, At(su, m, work, i).core, work[i]).None?
  {
  }

  lemma SameScans(su: Setup, m: Machine, start: Machine, work: seq<Action>, d: DeviceID)
    requires SameBut(m, start, d, |m.log|, |m.log| + 1) && LeavesAlone(su, m, work, d)
    requires Conservation.NoRescan(su, m, work)
    ensures Conservation.NoRescan(su, start, work)
  {
    hide Step, RemovedDevice, Overwrites;
    forall i | 0 <= i < |work|
      ensures Overwrites(su, At(su, start, work, i).core, work[i]).None?
    {
      LeavesAlonePrefix(su, m, work, d, i);
      RunKeepsSame(su, m, start, work[..i], d, |m.log|, |m.log| + 1);
      NoRescanPrefix(su, m, work, i);
    }
  }

  // ---- One waiting task more ----

  /** The second machine waits with one task more, and is the same otherwise. */
  ghost predicate Ahead(m: Machine, n: Machine, task: Task) {
    n == m.(pending := m.pending + multiset{task})
  }

  lemma AheadMap(su: Setup, m: Machine, n: Machine, a: Action, task: Task)
    requires Ahead(m, n, task) && (a == RunTask(task) ==> task in m.pending)
    ensures MapStep(su, n, a) == MapStep(su, m, a)
  {
    hide Overwrites, Inserts, RemovedDevice, Emplace;
  }

  lemma AheadSpawns(su: Setup, m: Machine, n: Machine, a: Action, task: Task)
    requires Ahead(m, n, task)
    ensures SpawnedAdd(su, n.core, a) == SpawnedAdd(su, m.core, a)
    ensures SpawnedNotice(su, n, a) == SpawnedNotice(su, m, a)
  {
    hide AddedDevice, RemovedDevice;
  }

  lemma OneMoreInBag(tasks: multiset<Task>, task: Task, run: Task, x: multiset<Task>, y: multiset<Task>)
    ensures tasks + multiset{task} + x + y == tasks + x + y + multiset{task}
    ensures run != task || task in tasks ==>
      tasks + multiset{task} - multiset{run} + x + y == tasks - multiset{run} + x + y + multiset{task}
  {
  }

  lemma AheadPending(su: Setup, m: Machine, n: Machine, a: Action, task: Task)
    requires Ahead(m, n, task) && (a == RunTask(task) ==> task in m.pending)
    ensures PendingStep(su, n, a) == PendingStep(su, m, a) + multiset{task}
  {
    AheadSpawns(su, m, n, a, task);
    hide SpawnedAdd, SpawnedNotice, Bag;
    OneMoreInBag(m.pending, task, if a.RunTask? then a.task else task,
                 Bag(SpawnedAdd(su, m.core, a)), Bag(SpawnedNotice(su, m, a)));
  }

  lemma StepKeepsAhead(su: Setup, m: Machine, n: Machine, a: Action, task: Task)
    requires Ahead(m, n, task) && (a == RunTask(task) ==> task in m.pending)
    ensures Ahead(Step(su, m, a), Step(su, n, a), task)
  {
    AheadMap(su, m, n, a, task);
    AheadPending(su, m, n, a, task);
    hide CoreStep, MapStep, PendingStep, Outputs;
  }

  /** Whenever the work runs this task, it runs one that waits without the additional one. */
  ghost predicate RunsItsOwn(su: Setup, m: Machine, work: seq<Action>, task: Task) {
    forall i :: 0 <= i < |work| && work[i] == RunTask(task) ==> task in At(su, m, work, i).pending
  }

  lemma RunsItsOwnFront(su: Setup, m: Machine, work: seq<Action>, task: Task)
    requires work != [] && RunsItsOwn(su, m, work, task)
    ensures RunsItsOwn(su, m, work[..|work| - 1], task)
    ensures work[|work| - 1] == RunTask(task) ==> task in Run(su, m, work[..|work| - 1]).pending
  {
    hide Run;
    var n := |work| - 1;
    assert At(su, m, work, n) == Run(su, m, work[..n]);
    forall i | 0 <= i < n
      ensures At(su, m, work[..n], i) == At(su, m, work, i)
    {
      assert work[..n][..i] == work[..i];
    }
  }

  lemma RunsItsOwnConcat(su: Setup, m: Machine, a: seq<Action>, b: seq<Action>, task: Task)
    requires RunsItsOwn(su, m, a, task) && RunsItsOwn(su, Run(su, m, a), b, task)
    ensures RunsItsOwn(su, m, a + b, task)
  {
    hide Run;
    forall i | 0 <= i < |a + b| && (a + b)[i] == RunTask(task)
      ensures task in At(su, m, a + b, i).pending
    {
      if i < |a| {
        assert (a + b)[..i] == a[..i];
        assert task in At(su, m, a, i).pending;
      } else {
        assert (a + b)[..i] == a + b[..i - |a|];
        RunConcat(su, m, a, b[..i - |a|]);
        assert task in At(su, Run(su, m, a), b, i - |a|).pending;
      }
    }
  }

  lemma {:induction false} RunKeepsAhead(su: Setup, m: Machine, n: Machine, work: seq<Action>, task: Task)
    requires Ahead(m, n, task) && RunsItsOwn(su, m, work, task)
    ensures Ahead(Run(su, m, work), Run(su, n, work), task)
  {
    hide Step, Ahead;
    if work != [] {
      var front := work[..|work| - 1];
      RunsItsOwnFront(su, m, work, task);
      hide RunsItsOwn;
      RunKeepsAhead(su, m, n, front, task);
      StepKeepsAhead(su, Run(su, m, front), Run(su, n, front), work[|work| - 1], task);
    }
  }

  // ---- Same index ----

  /** Equal but for waiting notifications of removals and for the log. */
  ghost predicate SameIndex(m: Machine, n: Machine) {
    && n.core == m.core && n.endpointMap == m.endpointMap
    && forall task: Task :: task.AddDevice? ==> n.pending[task] == m.pending[task]
  }

  lemma SameIndexMap(su: Setup, m: Machine, n: Machine, a: Action)
    requires SameIndex(m, n)
    ensures MapStep(su, n, a) == MapStep(su, m, a)
  {
    hide Overwrites, Inserts, RemovedDevice, Emplace;
    if a.RunTask? && a.task.AddDevice? {
      assert n.pending[a.task] == m.pending[a.task];
    }
  }

  lemma SameIndexPending(su: Setup, m: Machine, n: Machine, a: Action, task: Task)
    requires SameIndex(m, n) && task.AddDevice?
    ensures PendingStep(su, n, a)[task] == PendingStep(su, m, a)[task]
  {
    hide AddedDevice, RemovedDevice;
    assert n.pending[task] == m.pending[task];
  }

  lemma StepKeepsSameIndex(su: Setup, m: Machine, n: Machine, a: Action)
    requires SameIndex(m, n)
    ensures SameIndex(Step(su, m, a), Step(su, n, a))
  {
    SameIndexMap(su, m, n, a);
    hide CoreStep, MapStep, PendingStep, LogStep;
    forall task: Task | task.AddDevice?
      ensures PendingStep(su, n, a)[task] == PendingStep(su, m, a)[task]
    {
      SameIndexPending(su, m, n, a, task);
    }
  }

  lemma {:induction false} RunKeepsSameIndex(su: Setup, m: Machine, n: Machine, work: seq<Action>)
    requires SameIndex(m, n)
    ensures SameIndex(Run(su, m, work), Run(su, n, work))
  {
    hide Step, SameIndex;
    if work != [] {
      var front := work[..|work| - 1];
      RunKeepsSameIndex(su, m, n, front);
      StepKeepsSameIndex(su, Run(su, m, front), Run(su, n, front), work[|work| - 1]);
    }
  }

  // ---- What stays ----

  lemma StepLogGrows(su: Setup, m: Machine, a: Action)
    ensures m.log <= Step(su, m, a).log
  {
    hide CoreStep, MapStep, PendingStep, Outputs, Notice;
  }

  /** What was delivered stays delivered, and in order. */
  lemma {:induction false} LogGrows(su: Setup, m: Machine, actions: seq<Action>)
    ensures m.log <= Run(su, m, actions).log
  {
    hide Step;
    if actions != [] {
      var front := actions[..|actions| - 1];
      LogGrows(su, m, front);
      StepLogGrows(su, Run(su, m, front), actions[|actions| - 1]);
    }
  }

  lemma EntryStays(su: Setup, m: Machine, a: Action, d: DeviceID)
    requires d in m.endpointMap && RemovedDevice(su, m.core, a) != Some(d) && Overwrites(su, m.core, a).None?
    ensures Lookup(Step(su, m, a).endpointMap, d) == Some(m.endpointMap[d])
  {
    hide CoreStep, PendingStep, LogStep, Overwrites, Inserts, RemovedDevice;
  }

  /** Until it is withdrawn or a detection replaces the map, a device keeps its entry. */
  lemma {:induction false} StaysPresent(su: Setup, m: Machine, actions: seq<Action>, d: DeviceID)
    requires d in m.endpointMap && LeavesAlone(su, m, actions, d) && Conservation.NoRescan(su, m, actions)
    ensures Lookup(Run(su, m, actions).endpointMap, d) == Some(m.endpointMap[d])
  {
    hide Step, RemovedDevice, Overwrites;
    if actions != [] {
      var front := actions[..|actions| - 1];
      LeavesAloneFront(su, m, actions, d);
      Conservation.NoRescanFront(su, m, actions);
      hide LeavesAlone, Conservation.NoRescan;
      StaysPresent(su, m, front, d);
      EntryStays(su, Run(su, m, front), actions[|actions| - 1], d);
    }
  }

  lemma {:induction false} StaysInitialised(su: Setup, m: Machine, actions: seq<Action>)
    requires m.core.initialised
    ensures Run(su, m, actions).core.initialised
  {
    hide Step;
    if actions != [] {
      StaysInitialised(su, m, actions[..|actions| - 1]);
      InitialisedStep(su, Run(su, m, actions[..|actions| - 1]), actions[|actions| - 1]);
    }
  }

  lemma EventStaysInitialised(su: Setup, c: Core, signal: Signal, r: Replies)
    requires c.initialised
    ensures EventCore(su, c, signal, r).initialised
  {
    hide EndpointPath, Delivers, NewService, Paths.IsBase, Paths.HasDeviceSlash;
  }

  lemma DetectionInitialises(su: Setup, c: Core, id: nat, services: seq<string>, buses: seq<Entry>,
                             resolved: set<string>, r: Replies)
    ensures Complete(su, c, id, r).initialised
    ensures c.initialised ==> Resolve(su, c, id, services, buses, resolved, r).initialised
  {
    hide RegisterVersions, InstallOwnEid, FirstUsable;
  }

  lemma ResumeStaysInitialised(su: Setup, c: Core, a: Action)
    requires c.initialised && Resumed(c, a).Some?
    ensures ResumeCore(su, c, a, Resumed(c, a).value).initialised
  {
    var job := Resumed(c, a).value;
    hide ReplyEids, Complete, Resolve, OwnerName, CacheAfter;
    match a {
      case ServicesReply(id, services, r) =>
        DetectionInitialises(su, c, id, if services.Some? then services.value else [], [], {}, r);
      case OwnerReply(id, owner, r) =>
        var name := OwnerName(job.service, owner);
        DetectionInitialises(su, c.(matchedBuses := c.matchedBuses + {name}), id, job.rest, job.buses,
                             job.resolved + {name}, r);
      case ObjectsReply(id, objects, r) =>
        var c1 := if objects.None? then c else Remember(c, RepliedBus(job).service, r);
        DetectionInitialises(su, c1, id, [], [], {}, r);
    }
  }

  lemma InitialisedStep(su: Setup, m: Machine, a: Action)
    requires m.core.initialised
    ensures Step(su, m, a).core.initialised
  {
    hide MapStep, PendingStep, LogStep, EventCore, ResumeCore, RegisterVersions, InstallOwnEid;
    if a.Event? {
      EventStaysInitialised(su, m.core, a.signal, a.replies);
    } else if Resumed(m.core, a).Some? {
      ResumeStaysInitialised(su, m.core, a);
    }
  }

  lemma SameLookups(x: EndpointMap, y: EndpointMap)
    requires forall e :: Lookup(x, e) == Lookup(y, e)
    ensures x == y
  {
    forall e
      ensures e in x <==> e in y
      ensures e in x ==> x[e] == y[e]
    {
      assert Lookup(x, e) == Lookup(y, e);
    }
  }
}

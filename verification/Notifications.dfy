/**
 Spawned work and what it tells the user: each task that is spawned waits until it is run, and each run gives one
 notification, of the right kind and with the right EID.
 */
module Notifications {
  import opened Wrappers
  import opened Tracker
  import opened Steps
  import Conservation

  // ---- Spawned and run ----

  /** The action makes this work: an announcement its insertion, a withdrawal of a device in the map its notice. */
  predicate Spawns(su: Setup, m: Machine, a: Action, task: Task) {
    && su.networkChange.Some?
    && match task
       case AddDevice(d, service) => AddedDevice(su, m.core, a) == Some(d) && a.Event? && a.signal.sender == service
       case NotifyRemoved(d) => RemovedDevice(su, m.core, a) == Some(d) && d in m.endpointMap
  }

  predicate Runs(m: Machine, a: Action, task: Task) {
    a == RunTask(task) && task in m.pending
  }

  function TimesSpawned(su: Setup, actions: seq<Action>, task: Task): nat {
    if actions == [] then 0
    else
      var front, a := actions[..|actions| - 1], actions[|actions| - 1];
      TimesSpawned(su, front, task) + if Spawns(su, Run(su, INITIAL, front), a, task) then 1 else 0
  }

  function TimesRun(su: Setup, actions: seq<Action>, task: Task): nat {
    if actions == [] then 0
    else
      var front, a := actions[..|actions| - 1], actions[|actions| - 1];
      TimesRun(su, front, task) + if Runs(Run(su, INITIAL, front), a, task) then 1 else 0
  }

  lemma SpawnedTask(su: Setup, m: Machine, a: Action, task: Task)
    ensures (Bag(SpawnedAdd(su, m.core, a)) + Bag(SpawnedNotice(su, m, a)))[task]
      == if Spawns(su, m, a, task) then 1 else 0
    ensures a.RunTask? ==> !Spawns(su, m, a, task)
  {
    hide SignalDevice;
  }

  lemma TaskCount(su: Setup, m: Machine, a: Action, task: Task)
    ensures Step(su, m, a).pending[task] + (if Runs(m, a, task) then 1 else 0)
      == m.pending[task] + if Spawns(su, m, a, task) then 1 else 0
  {
    SpawnedTask(su, m, a, task);
    hide CoreStep, MapStep, LogStep, SpawnedAdd, SpawnedNotice, Bag, Spawns;
    var rest := if a.RunTask? then m.pending - multiset{a.task} else m.pending;
    var add, notice := Bag(SpawnedAdd(su, m.core, a)), Bag(SpawnedNotice(su, m, a));
    assert Step(su, m, a).pending == rest + add + notice;
    assert (rest + add + notice)[task] == rest[task] + (add + notice)[task];
  }

  /** Nothing spawned is lost or run twice: what was spawned was run or still waits. */
  lemma {:induction false} SpawnedIsRunOrWaits(su: Setup, actions: seq<Action>, task: Task)
    ensures Run(su, INITIAL, actions).pending[task] + TimesRun(su, actions, task) == TimesSpawned(su, actions, task)
  {
    hide Step, Spawns, Runs;
    if actions != [] {
      var front := actions[..|actions| - 1];
      SpawnedIsRunOrWaits(su, front, task);
      TaskCount(su, Run(su, INITIAL, front), actions[|actions| - 1], task);
    }
  }

  // ---- Run and told ----

  /** The notifications the user is due: one for each run of a task, in order. */
  function Told(su: Setup, actions: seq<Action>): seq<Output> {
    if actions == [] then []
    else
      var front, a := actions[..|actions| - 1], actions[|actions| - 1];
      Told(su, front)
        + if a.RunTask? && a.task in Run(su, INITIAL, front).pending then
            match a.task
            case AddDevice(d, _) => [DeviceAdded(d.id % 0x100, d)]
            case NotifyRemoved(d) => [DeviceRemoved(d.id % 0x100, d)]
          else []
  }

  /** The part of a log that is about devices. */
  function DeviceOutputs(log: seq<Output>): seq<Output> {
    if log == [] then []
    else
      var o := log[|log| - 1];
      DeviceOutputs(log[..|log| - 1]) + if o.DeviceAdded? || o.DeviceRemoved? then [o] else []
  }

  lemma {:induction false} OtherOutputs(log: seq<Output>, more: seq<Output>)
    requires forall o :: o in more ==> !Conservation.IsNotice(o)
    ensures DeviceOutputs(log + more) == DeviceOutputs(log)
  {
    if more == [] {
      assert log + more == log;
    } else {
      var front := more[..|more| - 1];
      assert more[|more| - 1] in more;
      OtherOutputs(log, front);
      assert (log + more)[..|log + more| - 1] == log + front;
    }
  }

  lemma OneNotice(log: seq<Output>, task: Task)
    ensures DeviceOutputs(log + [Notice(task)]) == DeviceOutputs(log) +
      match task
      case AddDevice(d, _) => [DeviceAdded(d.id % 0x100, d)]
      case NotifyRemoved(d) => [DeviceRemoved(d.id % 0x100, d)]
  {
    assert (log + [Notice(task)])[..|log|] == log;
  }

  /**
   The user is told exactly what was run: in every run the notifications about devices are, in order, one for each
   task that was run, of an addition for an insertion and of a removal otherwise, with the device's own EID.
   */
  lemma {:induction false} NotificationsAreRuns(su: Setup, actions: seq<Action>)
    ensures DeviceOutputs(Run(su, INITIAL, actions).log) == Told(su, actions)
  {
    hide Step;
    if actions != [] {
      var front, a := actions[..|actions| - 1], actions[|actions| - 1];
      var m := Run(su, INITIAL, front);
      NotificationsAreRuns(su, front);
      Conservation.LogOfStep(su, m, a);
      if a.RunTask? && a.task in m.pending {
        OneNotice(m.log, a.task);
      } else {
        Conservation.OutputsAreNoNotices(su, m.core, a);
        OtherOutputs(m.log, Outputs(su, m.core, a));
        hide Outputs;
      }
    }
  }
}

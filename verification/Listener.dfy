/**
 A listener that keeps its own set of devices from the notifications alone: it starts from the map, adds
 what is reported added and drops what is reported removed. When is its set the map's?
 */
module Listener {
  import opened DeviceIds
  import opened Tracker
  import opened Steps
  import Conservation
  import History

  /** Whether the listener has d after these notifications. */
  function Heard(start: bool, log: seq<Output>, d: DeviceID): bool {
    if log == [] then start
    else match log[|log| - 1]
      case DeviceAdded(_, e) => e == d || Heard(start, log[..|log| - 1], d)
      case DeviceRemoved(_, e) => e != d && Heard(start, log[..|log| - 1], d)
      case _ => Heard(start, log[..|log| - 1], d)
  }

  /** The latest notification about d was one of its removal, delivered while d was in the map again. */
  function Overtaken(su: Setup, m: Machine, actions: seq<Action>, d: DeviceID): bool {
    if actions == [] then false
    else
      var front, a := actions[..|actions| - 1], actions[|actions| - 1];
      var before := Run(su, m, front);
      if a.RunTask? && a.task in before.pending && a.task.device == d
      then a.task.NotifyRemoved? && d in before.endpointMap
      else Overtaken(su, m, front, d)
  }

  lemma {:induction false} HeardMore(start: bool, log: seq<Output>, more: seq<Output>, d: DeviceID)
    requires forall o :: o in more ==> !o.DeviceAdded? && !o.DeviceRemoved?
    ensures Heard(start, log + more, d) == Heard(start, log, d)
  {
    if more == [] {
      assert log + more == log;
    } else {
      var front := more[..|more| - 1];
      assert more[|more| - 1] in more;
      HeardMore(start, log, front, d);
      assert (log + more)[..|log + more| - 1] == log + front;
    }
  }

  lemma HeardNotice(start: bool, log: seq<Output>, task: Task, d: DeviceID)
    ensures Heard(start, log + [Notice(task)], d)
      == if task.device == d then task.AddDevice? else Heard(start, log, d)
  {
    assert (log + [Notice(task)])[..|log|] == log;
  }

  /** What listener, map, waiting removals and overtaking have to do with each other. */
  predicate InTouch(heard: bool, present: bool, removals: nat, overtaken: bool) {
    && (overtaken ==> !heard)
    && (present && !heard ==> overtaken)
    && ((heard || overtaken) && !present ==> removals > 0)
  }

  ghost predicate InTouchAfter(su: Setup, m: Machine, actions: seq<Action>, d: DeviceID) {
    var n := Run(su, m, actions);
    && |m.log| <= |n.log|
    && InTouch(Heard(d in m.endpointMap, n.log[|m.log|..], d), d in n.endpointMap, n.pending[NotifyRemoved(d)],
               Overtaken(su, m, actions, d))
  }

  lemma SuffixGrows(k: nat, log: seq<Output>, more: seq<Output>)
    requires k <= |log|
    ensures (log + more)[k..] == log[k..] + more
  {
  }

  lemma TaskInTouch(su: Setup, m: Machine, task: Task, start: bool, k: nat, overtaken: bool, d: DeviceID)
    requires k <= |m.log|
    requires InTouch(Heard(start, m.log[k..], d), d in m.endpointMap, m.pending[NotifyRemoved(d)], overtaken)
    ensures var n := Step(su, m, RunTask(task));
      && k <= |n.log|
      && InTouch(Heard(start, n.log[k..], d), d in n.endpointMap, n.pending[NotifyRemoved(d)],
                 if task in m.pending && task.device == d then task.NotifyRemoved? && d in m.endpointMap
                 else overtaken)
  {
    hide Step, Heard;
    if task in m.pending {
      TaskStep(su, m, task);
      SuffixGrows(k, m.log, [Notice(task)]);
      HeardNotice(start, m.log[k..], task, d);
    } else {
      IdleTask(su, m, task);
    }
  }

  /** What an action other than a task does to one device's presence, notices and notifications. */
  lemma OtherEffect(su: Setup, m: Machine, a: Action, d: DeviceID)
    requires su.networkChange.Some? && !a.RunTask?
    requires Overwrites(su, m.core, a).None? && Inserts(su, m.core, a).None?
    ensures var n := Step(su, m, a);
      && n.log == m.log + Outputs(su, m.core, a)
      && (d in n.endpointMap ==> d in m.endpointMap)
      && n.pending[NotifyRemoved(d)]
         == m.pending[NotifyRemoved(d)] + if d in m.endpointMap && d !in n.endpointMap then 1 else 0
  {
    History.AddOrRemove(su, m.core, a);
    hide Step, AddedDevice, RemovedDevice, Overwrites, Inserts;
    if AddedDevice(su, m.core, a).Some? {
      AnnouncementStep(su, m, a);
      EventOutputs(su, m, a);
    } else if RemovedDevice(su, m.core, a).Some? {
      WithdrawalStep(su, m, a);
      EventOutputs(su, m, a);
    } else {
      OtherStep(su, m, a);
    }
  }

  lemma EventOutputs(su: Setup, m: Machine, a: Action)
    requires AddedDevice(su, m.core, a).Some? || RemovedDevice(su, m.core, a).Some?
    ensures m.log + Outputs(su, m.core, a) == m.log
  {
    hide SignalDevice;
    assert SignalDevice(su, m.core, a.signal).Some?;
    EndpointEventCore(su, m.core, a);
  }

  lemma OtherInTouch(su: Setup, m: Machine, a: Action, start: bool, k: nat, overtaken: bool, d: DeviceID)
    requires su.networkChange.Some? && !a.RunTask?
    requires Overwrites(su, m.core, a).None? && Inserts(su, m.core, a).None? && k <= |m.log|
    requires InTouch(Heard(start, m.log[k..], d), d in m.endpointMap, m.pending[NotifyRemoved(d)], overtaken)
    ensures var n := Step(su, m, a);
      && k <= |n.log|
      && InTouch(Heard(start, n.log[k..], d), d in n.endpointMap, n.pending[NotifyRemoved(d)], overtaken)
  {
    OtherEffect(su, m, a, d);
    Conservation.OutputsAreNoNotices(su, m.core, a);
    SuffixGrows(k, m.log, Outputs(su, m.core, a));
    HeardMore(start, m.log[k..], Outputs(su, m.core, a), d);
    hide Step, Heard, Outputs, Overwrites, Inserts;
  }

  lemma {:induction false} RunInTouch(su: Setup, m: Machine, actions: seq<Action>, d: DeviceID)
    requires su.networkChange.Some? && History.NoScans(su, m, actions) && NotifyRemoved(d) !in m.pending
    ensures InTouchAfter(su, m, actions, d)
  {
    hide Step, Overwrites, Inserts, InTouch;
    if actions == [] {
      Untouched(m, d);
    } else {
      var front, a := actions[..|actions| - 1], actions[|actions| - 1];
      NoScansFront(su, m, actions);
      RunInTouch(su, m, front, d);
      var n, start, overtaken := Run(su, m, front), d in m.endpointMap, Overtaken(su, m, front, d);
      if a.RunTask? {
        TaskInTouch(su, n, a.task, start, |m.log|, overtaken, d);
      } else {
        OtherInTouch(su, n, a, start, |m.log|, overtaken, d);
      }
    }
  }

  lemma Untouched(m: Machine, d: DeviceID)
    requires NotifyRemoved(d) !in m.pending
    ensures InTouch(Heard(d in m.endpointMap, m.log[|m.log|..], d), d in m.endpointMap, m.pending[NotifyRemoved(d)],
                    false)
  {
  }

  lemma NoScansFront(su: Setup, m: Machine, actions: seq<Action>)
    requires actions != [] && History.NoScans(su, m, actions)
    ensures var n := |actions| - 1; var front := actions[..n];
      && History.NoScans(su, m, front)
      && Overwrites(su, Run(su, m, front).core, actions[n]).None?
      && Inserts(su, Run(su, m, front).core, actions[n]).None?
  {
    hide Run, Overwrites, Inserts;
    var n := |actions| - 1;
    assert At(su, m, actions, n) == Run(su, m, actions[..n]);
    forall i | 0 <= i < n
      ensures At(su, m, actions[..n], i) == At(su, m, actions, i)
    {
      assert actions[..n][..i] == actions[..i];
    }
  }

  /** A listener that started from the map of m, and heard what n delivered since, has d right. */
  predicate Right(m: Machine, n: Machine, d: DeviceID) {
    |m.log| <= |n.log| && (Heard(d in m.endpointMap, n.log[|m.log|..], d) <==> d in n.endpointMap)
  }

  /**
   The listener and the map. A listener starts from the map when no removal waits to be notified, and then
   follows the notifications of any run without scans. Once no removal of d waits again, it has d right if
   and only if the latest notification about d was not a removal delivered while d was in the map, that is,
   one that was overtaken by the insertion of a new announcement.
   */
  lemma ListenerIsRightIff(su: Setup, m: Machine, actions: seq<Action>, d: DeviceID)
    requires su.networkChange.Some? && NotifyRemoved(d) !in m.pending && History.NoScans(su, m, actions)
    ensures var n := Run(su, m, actions);
      NotifyRemoved(d) !in n.pending ==> (Right(m, n, d) <==> !Overtaken(su, m, actions, d))
  {
    RunInTouch(su, m, actions, d);
    hide Run, Heard, Overtaken;
  }

  ghost predicate NoNoticeWaits(m: Machine) {
    forall d: DeviceID :: NotifyRemoved(d) !in m.pending
  }

  ghost predicate AllRight(m: Machine, n: Machine) {
    forall d :: Right(m, n, d)
  }

  ghost predicate NoneOvertaken(su: Setup, m: Machine, actions: seq<Action>) {
    forall d :: !Overtaken(su, m, actions, d)
  }

  /** The whole set: with no removal waiting at either end, the listener has the map's keys iff none was overtaken. */
  lemma ListenerHasTheKeysIff(su: Setup, m: Machine, actions: seq<Action>)
    requires su.networkChange.Some? && History.NoScans(su, m, actions) && NoNoticeWaits(m)
    ensures NoNoticeWaits(Run(su, m, actions)) ==>
      (AllRight(m, Run(su, m, actions)) <==> NoneOvertaken(su, m, actions))
  {
    hide Run, Right, Overtaken, History.NoScans;
    var n := Run(su, m, actions);
    if NoNoticeWaits(n) {
      forall d
        ensures Right(m, n, d) <==> !Overtaken(su, m, actions, d)
      {
        ListenerIsRightIff(su, m, actions, d);
      }
    }
  }

  /** No insertion of d runs while a removal of d still waits to be notified. */
  ghost predicate NoticesFirst(su: Setup, m: Machine, actions: seq<Action>, d: DeviceID) {
    forall i :: 0 <= i < |actions| && RunsAdd(At(su, m, actions, i), actions[i]) && actions[i].task.device == d ==>
      NotifyRemoved(d) !in At(su, m, actions, i).pending
  }

  lemma NoticesFirstFront(su: Setup, m: Machine, actions: seq<Action>, d: DeviceID)
    requires actions != [] && NoticesFirst(su, m, actions, d)
    ensures var n := |actions| - 1; var front := actions[..n];
      && NoticesFirst(su, m, front, d)
      && (RunsAdd(Run(su, m, front), actions[n]) && actions[n].task.device == d ==>
            NotifyRemoved(d) !in Run(su, m, front).pending)
  {
    hide Run;
    var n := |actions| - 1;
    assert At(su, m, actions, n) == Run(su, m, actions[..n]);
    forall i | 0 <= i < n
      ensures At(su, m, actions[..n], i) == At(su, m, actions, i)
    {
      assert actions[..n][..i] == actions[..i];
    }
  }

  /** If notices are delivered before the next insertion of the same device, the listener is never overtaken. */
  lemma {:induction false} InOrderIsNeverOvertaken(su: Setup, m: Machine, actions: seq<Action>, d: DeviceID)
    requires su.networkChange.Some? && History.NoScans(su, m, actions) && NotifyRemoved(d) !in m.pending
    requires NoticesFirst(su, m, actions, d)
    ensures d in Run(su, m, actions).endpointMap ==> NotifyRemoved(d) !in Run(su, m, actions).pending
    ensures !Overtaken(su, m, actions, d)
  {
    hide Step, Overwrites, Inserts;
    if actions != [] {
      var front, a := actions[..|actions| - 1], actions[|actions| - 1];
      NoScansFront(su, m, actions);
      NoticesFirstFront(su, m, actions, d);
      InOrderIsNeverOvertaken(su, m, front, d);
      var n := Run(su, m, front);
      if !a.RunTask? {
        OtherEffect(su, n, a, d);
      } else if a.task in n.pending {
        TaskStep(su, n, a.task);
      } else {
        IdleTask(su, n, a.task);
      }
    }
  }
}

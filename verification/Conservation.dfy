/**
 Bookkeeping over whole runs: every device that leaves the map was put there, every removal
 notification stands for one departure, and no prefix of the delivered notifications removes a
 device more often than it was added or supplied by a scan.
 */
module Conservation {
  import opened Wrappers
  import opened DeviceIds
  import opened Tracker
  import opened Steps

  function Present(m: Machine, d: DeviceID): nat {
    if d in m.endpointMap then 1 else 0
  }

  // What one action does to a device, read off the machines before and after it.

  function Joined(before: Machine, after: Machine, d: DeviceID): nat {
    if d !in before.endpointMap && d in after.endpointMap then 1 else 0
  }

  function Left(before: Machine, after: Machine, d: DeviceID): nat {
    if d in before.endpointMap && d !in after.endpointMap then 1 else 0
  }

  /** How many notifications of d's removal were spawned. */
  function NoticesSpawned(before: Machine, after: Machine, d: DeviceID): nat {
    var x, y := before.pending[NotifyRemoved(d)], after.pending[NotifyRemoved(d)];
    if x < y then y - x else 0
  }

  // Totals over a run.

  function Joins(su: Setup, m: Machine, actions: seq<Action>, d: DeviceID): nat {
    if actions == [] then 0
    else
      var front := actions[..|actions| - 1];
      Joins(su, m, front, d) + Joined(Run(su, m, front), Run(su, m, actions), d)
  }

  function Notices(su: Setup, m: Machine, actions: seq<Action>, d: DeviceID): nat {
    if actions == [] then 0
    else
      var front := actions[..|actions| - 1];
      Notices(su, m, front, d) + NoticesSpawned(Run(su, m, front), Run(su, m, actions), d)
  }

  /** Departures of d for which nothing was spawned. */
  function SilentLosses(su: Setup, m: Machine, actions: seq<Action>, d: DeviceID): nat {
    if actions == [] then 0
    else
      var front := actions[..|actions| - 1];
      var before, after := Run(su, m, front), Run(su, m, actions);
      SilentLosses(su, m, front, d)
        + if Left(before, after, d) == 1 && NoticesSpawned(before, after, d) == 0 then 1 else 0
  }

  /** Arrivals of d other than by a spawned insertion: those a scan supplied. */
  function Supplies(su: Setup, m: Machine, actions: seq<Action>, d: DeviceID): nat {
    if actions == [] then 0
    else
      var front := actions[..|actions| - 1];
      Supplies(su, m, front, d)
        + if actions[|actions| - 1].RunTask? then 0 else Joined(Run(su, m, front), Run(su, m, actions), d)
  }

  /** A notification is spawned for a departure and for nothing else, one at a time. */
  lemma NoticeMeansDeparture(su: Setup, m: Machine, a: Action, d: DeviceID)
    ensures NoticesSpawned(m, Step(su, m, a), d) <= Left(m, Step(su, m, a), d)
    ensures NoticesSpawned(m, Step(su, m, a), d) == 1 <==> SpawnedNotice(su, m, a) == Some(NotifyRemoved(d))
  {
    hide CoreStep, LogStep, Overwrites, Inserts, SignalDevice;
    RemovalIsAlone(su, m, a);
  }

  /** A signal that withdraws a device ends no scan and runs no task. */
  lemma RemovalIsAlone(su: Setup, m: Machine, a: Action)
    ensures RemovedDevice(su, m.core, a).Some? ==>
      Overwrites(su, m.core, a).None? && Inserts(su, m.core, a).None? && !RunsAdd(m, a)
      && AddedDevice(su, m.core, a).None?
  {
    hide SignalDevice;
  }

  /** When a device leaves without notice: a detection replaced the map, or nobody listens. */
  lemma SilentCause(su: Setup, m: Machine, a: Action, d: DeviceID)
    requires d in m.endpointMap && d !in Step(su, m, a).endpointMap
    ensures NoticesSpawned(m, Step(su, m, a), d) == 0
      <==> Overwrites(su, m.core, a).Some? || su.networkChange.None?
  {
    hide CoreStep, LogStep, PendingStep, Overwrites, Inserts, SignalDevice;
    RemovalIsAlone(su, m, a);
    NoticeMeansDeparture(su, m, a, d);
  }

  /** Arrivals balance departures, and each departure is either noticed or silent. */
  lemma {:induction false} Ledger(su: Setup, m: Machine, actions: seq<Action>, d: DeviceID)
    ensures Present(m, d) + Joins(su, m, actions, d)
      == Present(Run(su, m, actions), d) + Notices(su, m, actions, d) + SilentLosses(su, m, actions, d)
  {
    hide Step;
    if actions != [] {
      var front := actions[..|actions| - 1];
      Ledger(su, m, front, d);
      NoticeMeansDeparture(su, Run(su, m, front), actions[|actions| - 1], d);
    }
  }

  /** No action of the run ends a detection that replaces the map. */
  ghost predicate NoRescan(su: Setup, m: Machine, actions: seq<Action>) {
    forall i :: 0 <= i < |actions| ==> Overwrites(su, At(su, m, actions, i).core, actions[i]).None?
  }

  lemma NoRescanFront(su: Setup, m: Machine, actions: seq<Action>)
    requires actions != [] && NoRescan(su, m, actions)
    ensures NoRescan(su, m, actions[..|actions| - 1])
    ensures Overwrites(su, Run(su, m, actions[..|actions| - 1]).core, actions[|actions| - 1]).None?
  {
    hide Step, Overwrites;
    var n := |actions| - 1;
    var front := actions[..n];
    forall i | 0 <= i < n
      ensures Overwrites(su, At(su, m, front, i).core, front[i]).None?
    {
      assert front[..i] == actions[..i];
    }
    assert At(su, m, actions, n) == Run(su, m, front);
  }

  lemma {:induction false} NoSilentLoss(su: Setup, m: Machine, actions: seq<Action>, d: DeviceID)
    requires su.networkChange.Some? && NoRescan(su, m, actions)
    ensures SilentLosses(su, m, actions, d) == 0
  {
    hide Step;
    if actions != [] {
      var front := actions[..|actions| - 1];
      NoRescanFront(su, m, actions);
      NoSilentLoss(su, m, front, d);
      var before := Run(su, m, front);
      if Left(before, Run(su, m, actions), d) == 1 {
        SilentCause(su, before, actions[|actions| - 1], d);
      }
    }
  }

  /**
   Conservation: in every run, the removal notifications spawned for a device plus one if it is in
   the map never exceed its insertions (plus one if it was there at the start). They are equal when
   a callback is set and no detection replaces the map.
   */
  lemma ConservationOfDevices(su: Setup, m: Machine, actions: seq<Action>, d: DeviceID)
    ensures Notices(su, m, actions, d) + Present(Run(su, m, actions), d)
      <= Joins(su, m, actions, d) + Present(m, d)
    ensures su.networkChange.Some? && NoRescan(su, m, actions) ==>
      Notices(su, m, actions, d) + Present(Run(su, m, actions), d) == Joins(su, m, actions, d) + Present(m, d)
  {
    Ledger(su, m, actions, d);
    if su.networkChange.Some? && NoRescan(su, m, actions) {
      NoSilentLoss(su, m, actions, d);
    }
  }

  /** A tracker without a callback spawns no notification in any run. */
  lemma {:induction false} NoCallbackNoNotice(su: Setup, m: Machine, actions: seq<Action>, d: DeviceID)
    requires su.networkChange.None?
    ensures Notices(su, m, actions, d) == 0
  {
    hide Step;
    if actions != [] {
      var front := actions[..|actions| - 1];
      NoCallbackNoNotice(su, m, front, d);
      NoticeMeansDeparture(su, Run(su, m, front), actions[|actions| - 1], d);
    }
  }

  lemma NothingSpawned(su: Setup, m: Machine, a: Action)
    requires su.networkChange.None? && m.pending == multiset{}
    ensures Step(su, m, a).pending == multiset{}
    ensures a.RunTask? ==> Step(su, m, a) == m
  {
    if a.RunTask? {
      IdleTask(su, m, a.task);
    }
    hide CoreStep, MapStep, LogStep, SignalDevice;
  }

  /**
   A tracker without a callback learns of devices from scans alone: nothing is ever spawned, and every
   arrival in the map is one a scan supplied.
   */
  lemma {:induction false} NoCallbackNoInsertion(su: Setup, actions: seq<Action>, d: DeviceID)
    requires su.networkChange.None?
    ensures Run(su, INITIAL, actions).pending == multiset{}
    ensures Joins(su, INITIAL, actions, d) == Supplies(su, INITIAL, actions, d)
  {
    hide Step;
    if actions != [] {
      var front := actions[..|actions| - 1];
      NoCallbackNoInsertion(su, front, d);
      NothingSpawned(su, Run(su, INITIAL, front), actions[|actions| - 1]);
    }
  }

  // ---- Delivered notifications ----

  function AddedCount(log: seq<Output>, d: DeviceID): nat {
    multiset(log)[DeviceAdded(d.MctpEID(), d)]
  }

  function RemovedCount(log: seq<Output>, d: DeviceID): nat {
    multiset(log)[DeviceRemoved(d.MctpEID(), d)]
  }

  /** Removals delivered, still to be delivered or still possible, less the additions delivered. */
  function Debt(m: Machine, d: DeviceID): int {
    RemovedCount(m.log, d) + m.pending[NotifyRemoved(d)] + Present(m, d) - AddedCount(m.log, d)
  }

  predicate IsNotice(o: Output) {
    o.DeviceAdded? || o.DeviceRemoved?
  }

  lemma OutputsAreNoNotices(su: Setup, c: Core, a: Action)
    ensures forall o :: o in Outputs(su, c, a) ==> !IsNotice(o)
  {
    hide Delivers, ReportsEid;
  }

  lemma CountsAfter(log: seq<Output>, rest: seq<Output>, d: DeviceID)
    requires forall o :: o in rest ==> !IsNotice(o)
    ensures AddedCount(log + rest, d) == AddedCount(log, d) && RemovedCount(log + rest, d) == RemovedCount(log, d)
  {
    assert multiset(log + rest) == multiset(log) + multiset(rest);
    assert DeviceAdded(d.MctpEID(), d) !in rest && DeviceRemoved(d.MctpEID(), d) !in rest;
  }

  lemma TaskDebt(su: Setup, m: Machine, task: Task, d: DeviceID)
    ensures Debt(Step(su, m, RunTask(task)), d) <= Debt(m, d)
  {
    hide Step;
    if task in m.pending {
      TaskStep(su, m, task);
    } else {
      IdleTask(su, m, task);
    }
  }

  lemma OtherDebt(su: Setup, m: Machine, a: Action, d: DeviceID)
    requires !a.RunTask?
    ensures Debt(Step(su, m, a), d) <= Debt(m, d) + Joined(m, Step(su, m, a), d)
  {
    hide CoreStep, MapStep, SpawnedAdd, Outputs;
    NoticeMeansDeparture(su, m, a, d);
    OutputsAreNoNotices(su, m.core, a);
    CountsAfter(m.log, Outputs(su, m.core, a), d);
  }

  lemma LogOfStep(su: Setup, m: Machine, a: Action)
    ensures Step(su, m, a).log == if a.RunTask? && a.task in m.pending then m.log + [Notice(a.task)]
                                  else m.log + Outputs(su, m.core, a)
    ensures a.RunTask? ==> Outputs(su, m.core, a) == []
  {
    hide CoreStep, MapStep, PendingStep;
  }

  /** Whatever order pending tasks run in, only a scan raises the debt. */
  lemma {:induction false} DebtBound(su: Setup, m: Machine, actions: seq<Action>, d: DeviceID)
    ensures Debt(Run(su, m, actions), d) <= Debt(m, d) + Supplies(su, m, actions, d)
  {
    hide Step;
    if actions != [] {
      var front, a := actions[..|actions| - 1], actions[|actions| - 1];
      var before := Run(su, m, front);
      DebtBound(su, m, front, d);
      if !a.RunTask? {
        OtherDebt(su, before, a, d);
      } else {
        TaskDebt(su, before, a.task, d);
      }
    }
  }

  /** The first k notifications were delivered by the first j actions, and no fewer. */
  ghost predicate DeliveredBy(su: Setup, actions: seq<Action>, k: nat, j: nat) {
    && j <= |actions| && k <= |At(su, INITIAL, actions, j).log|
    && (j > 0 ==> |At(su, INITIAL, actions, j - 1).log| < k)
  }

  lemma DeliveredByFront(su: Setup, actions: seq<Action>, k: nat, j: nat)
    requires actions != [] && DeliveredBy(su, actions[..|actions| - 1], k, j)
    ensures DeliveredBy(su, actions, k, j) && actions[..|actions| - 1][..j] == actions[..j]
  {
    hide Run;
    var front := actions[..|actions| - 1];
    assert front[..j] == actions[..j];
    if j > 0 {
      assert front[..j - 1] == actions[..j - 1];
    }
  }

  /**
   No phantom removal: in every prefix of the notifications a new tracker delivers, a device is reported
   removed at most as often as it was reported added in that prefix, or supplied by a scan up to the action
   that completed the prefix.
   */
  lemma {:induction false} NoPhantomRemoval(su: Setup, actions: seq<Action>, d: DeviceID, k: nat)
    requires k <= |Run(su, INITIAL, actions).log|
    ensures exists j: nat ::
      && DeliveredBy(su, actions, k, j)
      && RemovedCount(Run(su, INITIAL, actions).log[..k], d)
         <= AddedCount(Run(su, INITIAL, actions).log[..k], d) + Supplies(su, INITIAL, actions[..j], d)
  {
    hide Step;
    if actions == [] {
      assert DeliveredBy(su, actions, k, 0);
      return;
    }
    var n := |actions| - 1;
    var front, a := actions[..n], actions[n];
    var before, after := Run(su, INITIAL, front).log, Run(su, INITIAL, actions).log;
    LogOfStep(su, Run(su, INITIAL, front), a);
    if k <= |before| {
      assert after[..k] == before[..k];
      NoPhantomRemoval(su, front, d, k);
      var j: nat :|
        && DeliveredBy(su, front, k, j)
        && RemovedCount(before[..k], d) <= AddedCount(before[..k], d) + Supplies(su, INITIAL, front[..j], d);
      DeliveredByFront(su, actions, k, j);
    } else {
      assert actions[..n + 1] == actions;
      assert DeliveredBy(su, actions, k, n + 1);
      LastPrefixBound(su, actions, d, k);
    }
  }

  lemma LastPrefixBound(su: Setup, actions: seq<Action>, d: DeviceID, k: nat)
    requires actions != [] && k <= |Run(su, INITIAL, actions).log|
    requires |Run(su, INITIAL, actions[..|actions| - 1]).log| < k
    ensures RemovedCount(Run(su, INITIAL, actions).log[..k], d)
      <= AddedCount(Run(su, INITIAL, actions).log[..k], d) + Supplies(su, INITIAL, actions, d)
  {
    hide Step;
    var front, a := actions[..|actions| - 1], actions[|actions| - 1];
    var before, after := Run(su, INITIAL, front).log, Run(su, INITIAL, actions).log;
    LogOfStep(su, Run(su, INITIAL, front), a);
    if a.RunTask? {
      assert after[..k] == after;
      DebtBound(su, INITIAL, actions, d);
    } else {
      DebtBound(su, INITIAL, front, d);
      var rest := Outputs(su, Run(su, INITIAL, front).core, a)[..k - |before|];
      OutputsAreNoNotices(su, Run(su, INITIAL, front).core, a);
      assert after[..k] == before + rest;
      CountsAfter(before, rest, d);
    }
  }
}

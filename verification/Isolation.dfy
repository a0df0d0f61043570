/**
 What does not influence what: senders that are never matched, events before initialisation, and
 services that have gone away.
 */
module Isolation {
  import opened Wrappers
  import opened DeviceIds
  import opened Names
  import opened Dbus
  import opened Tracker
  import Difference
  import Handlers
  import Matching
  import Paths

  // ---- Senders that are never matched ----

  predicate EventFrom(a: Action, sender: string) {
    a.Event? && a.signal.sender == sender
  }

  function Without(actions: seq<Action>, sender: string): seq<Action> {
    if actions == [] then []
    else
      var front, a := Without(actions[..|actions| - 1], sender), actions[|actions| - 1];
      if EventFrom(a, sender) then front else front + [a]
  }

  lemma UnmatchedCore(su: Setup, c: Core, signal: Signal, r: Replies)
    requires signal.sender !in c.matchedBuses && signal.sender !in EventCore(su, c, signal, r).matchedBuses
    ensures EventCore(su, c, signal, r) == c
  {
    hide Paths.IsBase, Paths.HasDeviceSlash;
  }

  /** An event changes nothing at all when its sender is unmatched before and after it. */
  lemma UnmatchedEvent(su: Setup, m: Machine, signal: Signal, r: Replies)
    requires signal.sender !in m.core.matchedBuses
    requires signal.sender !in Step(su, m, Event(signal, r)).core.matchedBuses
    ensures Step(su, m, Event(signal, r)) == m
  {
    UnmatchedCore(su, m.core, signal, r);
    hide EventCore, Announces, Withdraws, Deliveries, Paths.IsBase, Paths.EventPathEid;
    Handlers.QuietEvent(su, m, Event(signal, r));
    hide Step;
  }

  ghost predicate NeverMatched(su: Setup, m: Machine, actions: seq<Action>, sender: string) {
    forall i :: 0 <= i <= |actions| ==> sender !in At(su, m, actions, i).core.matchedBuses
  }

  lemma NeverMatchedFront(su: Setup, m: Machine, actions: seq<Action>, sender: string)
    requires actions != [] && NeverMatched(su, m, actions, sender)
    ensures NeverMatched(su, m, actions[..|actions| - 1], sender)
    ensures sender !in Run(su, m, actions[..|actions| - 1]).core.matchedBuses
    ensures sender !in Run(su, m, actions).core.matchedBuses
  {
    hide Step;
    var n := |actions| - 1;
    forall i | 0 <= i <= n
      ensures sender !in At(su, m, actions[..n], i).core.matchedBuses
    {
      assert actions[..n][..i] == actions[..i];
      assert sender !in At(su, m, actions, i).core.matchedBuses;
    }
    assert sender !in At(su, m, actions, n).core.matchedBuses;
    assert actions[..n + 1] == actions;
    assert sender !in At(su, m, actions, n + 1).core.matchedBuses;
  }

  /**
   Non-interference: deleting every event of a sender that is never matched gives the same machine,
   with the same map, calls, pending tasks and notifications.
   */
  lemma {:induction false} NonInterference(su: Setup, m: Machine, actions: seq<Action>, sender: string)
    requires NeverMatched(su, m, actions, sender)
    ensures Run(su, m, Without(actions, sender)) == Run(su, m, actions)
  {
    hide Step;
    if actions != [] {
      var n := |actions| - 1;
      var front, a := actions[..n], actions[n];
      NeverMatchedFront(su, m, actions, sender);
      NonInterference(su, m, front, sender);
      if EventFrom(a, sender) {
        UnmatchedEvent(su, Run(su, m, front), a.signal, a.replies);
      } else {
        RunAppend(su, m, Without(front, sender), a);
      }
    }
  }

  /** A sender not matched at first, that no action may match, is never matched. */
  lemma {:induction false} NeverMatchedIf(su: Setup, m: Machine, actions: seq<Action>, sender: string)
    requires sender !in m.core.matchedBuses
    requires forall i :: 0 <= i < |actions| ==> !Matching.Joins(su, At(su, m, actions, i).core, actions[i], sender)
    ensures NeverMatched(su, m, actions, sender)
  {
    hide CoreStep, MapStep, PendingStep, LogStep, Matching.Joins, Matching.Leaves;
    forall i | 0 <= i <= |actions|
      ensures sender !in At(su, m, actions, i).core.matchedBuses
    {
      UnmatchedUpTo(su, m, actions, sender, i);
    }
  }

  lemma {:induction false} UnmatchedUpTo(su: Setup, m: Machine, actions: seq<Action>, sender: string, i: nat)
    requires sender !in m.core.matchedBuses && i <= |actions|
    requires forall k :: 0 <= k < |actions| ==> !Matching.Joins(su, At(su, m, actions, k).core, actions[k], sender)
    ensures sender !in At(su, m, actions, i).core.matchedBuses
  {
    hide CoreStep, MapStep, PendingStep, LogStep, Matching.Joins, Matching.Leaves;
    if i > 0 {
      UnmatchedUpTo(su, m, actions, sender, i - 1);
      assert actions[..i] == actions[..i - 1] + [actions[i - 1]];
      RunAppend(su, m, actions[..i - 1], actions[i - 1]);
      Matching.StepMatching(su, At(su, m, actions, i - 1).core, actions[i - 1], sender);
    }
  }

  /** Events before the first detection has found its buses are dropped without trace. */
  lemma EventBeforeInitialisation(su: Setup, m: Machine, signal: Signal, r: Replies)
    requires !m.core.initialised
    ensures Step(su, m, Event(signal, r)) == m
  {
  }

  /** The run without the events that come before initialisation. */
  function WithoutEarly(su: Setup, m: Machine, actions: seq<Action>): seq<Action> {
    if actions == [] then []
    else
      var front, a := actions[..|actions| - 1], actions[|actions| - 1];
      if a.Event? && !Run(su, m, front).core.initialised then WithoutEarly(su, m, front)
      else WithoutEarly(su, m, front) + [a]
  }

  /** Deleting the events that come before initialisation gives the same machine. */
  lemma {:induction false} EarlyEventsDropped(su: Setup, m: Machine, actions: seq<Action>)
    ensures Run(su, m, WithoutEarly(su, m, actions)) == Run(su, m, actions)
  {
    hide Step;
    if actions != [] {
      var front, a := actions[..|actions| - 1], actions[|actions| - 1];
      EarlyEventsDropped(su, m, front);
      if a.Event? && !Run(su, m, front).core.initialised {
        EventBeforeInitialisation(su, Run(su, m, front), a.signal, a.replies);
      } else {
        RunAppend(su, m, WithoutEarly(su, m, front), a);
      }
    }
  }

  // ---- Services that go away ----

  lemma ServiceRemoval(su: Setup, m: Machine, sender: string, path: string, interfaces: seq<InterfaceName>, r: Replies)
    requires m.core.initialised && sender in m.core.matchedBuses
    requires Paths.IsBase(path) && BaseInterface in interfaces
    ensures Step(su, m, Handlers.Removed(sender, path, interfaces, r))
      == m.(core := m.core.(matchedBuses := m.core.matchedBuses - {sender}))
  {
    Handlers.BaseIsNoEndpoint(path);
    hide Paths.IsBase;
    Handlers.FruitlessRemoval(su, m, sender, path, interfaces, r);
    hide Step;
  }

  lemma UnmatchedRemovesNothing(su: Setup, c: Core, a: Action)
    requires RemovedDevice(su, c, a).Some?
    ensures a.Event? && a.signal.sender in c.matchedBuses
  {
    hide Announces, Withdraws, Paths.IsBase;
  }

  /** Nothing but these puts an end to an orphan: a new match, another sender's withdrawal, a detection. */
  ghost predicate LeavesOrphan(su: Setup, m: Machine, actions: seq<Action>, sender: string, d: DeviceID) {
    forall i :: 0 <= i < |actions| ==>
      && !Matching.Joins(su, At(su, m, actions, i).core, actions[i], sender)
      && Overwrites(su, At(su, m, actions, i).core, actions[i]).None?
      && (RemovedDevice(su, At(su, m, actions, i).core, actions[i]) == Some(d) ==> actions[i].signal.sender == sender)
  }

  lemma OrphanStays(su: Setup, m: Machine, actions: seq<Action>, sender: string, d: DeviceID)
    requires sender !in m.core.matchedBuses && d in m.endpointMap
    requires LeavesOrphan(su, m, actions, sender, d)
    ensures d in Run(su, m, actions).endpointMap
  {
    hide Run, Matching.Joins, Overwrites, RemovedDevice;
    NeverMatchedIf(su, m, actions, sender);
    forall i | 0 <= i < |actions|
      ensures RemovedDevice(su, At(su, m, actions, i).core, actions[i]) != Some(d)
    {
      assert sender !in At(su, m, actions, i).core.matchedBuses;
      if RemovedDevice(su, At(su, m, actions, i).core, actions[i]).Some? {
        UnmatchedRemovesNothing(su, At(su, m, actions, i).core, actions[i]);
      }
    }
    Difference.StaysPresent(su, m, actions, d);
  }

  /**
   A service that goes away orphans its endpoints. Once it has withdrawn its base interface, a device in
   the map stays there whatever the service signals, until the service is matched again, another
   matched sender withdraws the same device, or a detection replaces the map.
   */
  lemma ServiceRemovalOrphans(su: Setup, m: Machine, sender: string, path: string, interfaces: seq<InterfaceName>,
                              r: Replies, actions: seq<Action>, d: DeviceID)
    requires m.core.initialised && sender in m.core.matchedBuses && d in m.endpointMap
    requires Paths.IsBase(path) && BaseInterface in interfaces
    requires LeavesOrphan(su, Step(su, m, Handlers.Removed(sender, path, interfaces, r)), actions, sender, d)
    ensures d in Run(su, Step(su, m, Handlers.Removed(sender, path, interfaces, r)), actions).endpointMap
  {
    ServiceRemoval(su, m, sender, path, interfaces, r);
    hide Step, Run, LeavesOrphan, Paths.IsBase;
    OrphanStays(su, Step(su, m, Handlers.Removed(sender, path, interfaces, r)), actions, sender, d);
  }
}

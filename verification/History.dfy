/**
 The endpoint map as a function of the history of events, when each spawned insertion runs before the
 next event about its device.
 */
module History {
  import opened Wrappers
  import opened DeviceIds
  import opened Scan
  import opened Tracker
  import opened NetworkIds
  import opened Steps
  import Paths

  // ---- When insertions run ----

  /** An insertion of d has been spawned and not run. */
  ghost predicate Waiting(m: Machine, d: DeviceID) {
    exists service :: AddDevice(d, service) in m.pending
  }

  /** The action announces or withdraws d. */
  predicate Concerns(su: Setup, c: Core, a: Action, d: DeviceID) {
    AddedDevice(su, c, a) == Some(d) || RemovedDevice(su, c, a) == Some(d)
  }

  /** Every insertion of d runs before the next event about d, and before the end; anything else may come between. */
  ghost predicate Timely(su: Setup, m: Machine, actions: seq<Action>, d: DeviceID) {
    && !Waiting(m, d)
    && (forall i :: 0 <= i < |actions| && Concerns(su, At(su, m, actions, i).core, actions[i], d) ==>
          !Waiting(At(su, m, actions, i), d))
    && !Waiting(Run(su, m, actions), d)
  }

  /** No insertion waits when an event comes. */
  ghost predicate InsertionsFirst(su: Setup, m: Machine, actions: seq<Action>) {
    forall i, task: Task :: 0 <= i < |actions| && actions[i].Event? && task in At(su, m, actions, i).pending ==>
      task.NotifyRemoved?
  }

  /** If every insertion runs before the next event, whatever that is about, the run is timely for all devices. */
  lemma InsertionsFirstIsTimely(su: Setup, m: Machine, actions: seq<Action>, d: DeviceID)
    requires !Waiting(m, d) && !Waiting(Run(su, m, actions), d) && InsertionsFirst(su, m, actions)
    ensures Timely(su, m, actions, d)
  {
    hide Run, AddedDevice, RemovedDevice;
    forall i | 0 <= i < |actions| && Concerns(su, At(su, m, actions, i).core, actions[i], d)
      ensures !Waiting(At(su, m, actions, i), d)
    {
      ConcernIsEvent(su, At(su, m, actions, i).core, actions[i], d);
      var now := At(su, m, actions, i);
      assert forall task: Task :: task in now.pending ==> task.NotifyRemoved?;
    }
  }

  lemma ConcernIsEvent(su: Setup, c: Core, a: Action, d: DeviceID)
    ensures Concerns(su, c, a, d) ==> a.Event?
  {
    hide SignalDevice;
  }

  /** Neither a detection nor addToEidMap writes the map. */
  ghost predicate NoScans(su: Setup, m: Machine, actions: seq<Action>) {
    forall i :: 0 <= i < |actions| ==>
      Overwrites(su, At(su, m, actions, i).core, actions[i]).None?
      && Inserts(su, At(su, m, actions, i).core, actions[i]).None?
  }

  // ---- Histories of one device ----

  datatype Mark = Neutral | Adds(service: string) | Removes

  /** What an action means for d when network ids are taken from the given cache. */
  function MarkOf(su: Setup, c: Core, cache: Cache, a: Action, d: DeviceID): Mark {
    var keyed := c.(networkIDCache := cache);
    if RemovedDevice(su, keyed, a) == Some(d) then Removes
    else if AddedDevice(su, keyed, a) == Some(d) then Adds(a.signal.sender)
    else Neutral
  }

  function Marks(su: Setup, m: Machine, actions: seq<Action>, d: DeviceID): seq<Mark> {
    seq(|actions|, i requires 0 <= i < |actions| =>
      MarkOf(su, At(su, m, actions, i).core, m.core.networkIDCache, actions[i], d))
  }

  /** The entry that results from a start and a history, mark by mark. */
  function Replay(start: Option<Entry>, marks: seq<Mark>): Option<Entry> {
    if marks == [] then start
    else
      var prior := Replay(start, marks[..|marks| - 1]);
      match marks[|marks| - 1]
      case Neutral => prior
      case Adds(service) => if prior.Some? then prior else Some(Entry(0, service))
      case Removes => None
  }

  ghost predicate NeverRemoved(marks: seq<Mark>) {
    forall i :: 0 <= i < |marks| ==> !marks[i].Removes?
  }

  /** Mark i is the last one that is not neutral. */
  ghost predicate LastRelevant(marks: seq<Mark>, i: nat) {
    i < |marks| && !marks[i].Neutral? && forall j :: i < j < |marks| ==> marks[j].Neutral?
  }

  /** Mark i is an addition, and it is the earliest one since the last removal. */
  ghost predicate EarliestAdd(marks: seq<Mark>, i: nat) {
    && i < |marks| && marks[i].Adds?
    && (forall j :: i < j < |marks| ==> !marks[j].Removes?)
    && (forall j :: 0 <= j < i && marks[j].Adds? ==> exists k :: j < k < i && marks[k].Removes?)
  }

  ghost predicate RemovedBefore(marks: seq<Mark>, i: nat) {
    exists k :: 0 <= k < i && k < |marks| && marks[k].Removes?
  }

  lemma {:induction false} ReplayPresence(start: Option<Entry>, marks: seq<Mark>)
    ensures Replay(start, marks).Some? <==>
      (exists i: nat :: LastRelevant(marks, i) && marks[i].Adds?)
      || (start.Some? && forall i :: 0 <= i < |marks| ==> marks[i].Neutral?)
  {
    if marks != [] {
      var n := |marks| - 1;
      var front := marks[..n];
      ReplayPresence(start, front);
      if marks[n].Neutral? {
        forall i: nat
          ensures LastRelevant(marks, i) <==> LastRelevant(front, i)
        {
        }
      } else {
        assert LastRelevant(marks, n);
      }
    }
  }

  lemma {:induction false} ReplayKeepsStart(start: Option<Entry>, marks: seq<Mark>)
    requires start.Some? && NeverRemoved(marks)
    ensures Replay(start, marks) == start
  {
    if marks != [] {
      ReplayKeepsStart(start, marks[..|marks| - 1]);
    }
  }

  /** The entry is the start's until a removal, and afterwards that of the earliest addition since. */
  lemma {:induction false} ReplaySource(start: Option<Entry>, marks: seq<Mark>, i: nat)
    requires EarliestAdd(marks, i) && (start.None? || RemovedBefore(marks, i))
    ensures Replay(start, marks) == Some(Entry(0, marks[i].service))
  {
    var n := |marks| - 1;
    var front := marks[..n];
    if i < n {
      assert EarliestAdd(front, i) by {
        forall j | 0 <= j < i && front[j].Adds?
          ensures exists k :: j < k < i && front[k].Removes?
        {
          var k :| j < k < i && marks[k].Removes?;
          assert front[k].Removes?;
        }
      }
      if start.Some? {
        var k :| 0 <= k < i && marks[k].Removes?;
        assert front[k].Removes?;
      }
      ReplaySource(start, front, i);
    } else {
      ReplayPresence(start, front);
      forall j: nat | j < |front| && front[j].Adds?
        ensures !LastRelevant(front, j)
      {
        var k :| j < k < i && marks[k].Removes?;
        assert front[k].Removes?;
      }
      if start.Some? {
        var k :| 0 <= k < i && marks[k].Removes?;
        assert !front[k].Neutral?;
      }
    }
  }

  /** An entry that is there has one of the two origins. */
  lemma {:induction false} ReplayOrigin(start: Option<Entry>, marks: seq<Mark>)
    requires Replay(start, marks).Some?
    ensures (start.Some? && NeverRemoved(marks))
      || exists i: nat :: EarliestAdd(marks, i) && (start.None? || RemovedBefore(marks, i))
  {
    if marks != [] {
      var n := |marks| - 1;
      var front := marks[..n];
      if Replay(start, front).Some? {
        ReplayOrigin(start, front);
        if i: nat :| EarliestAdd(front, i) && (start.None? || RemovedBefore(front, i)) {
          EarliestAddExtends(marks, i);
        }
      } else {
        AddAfterAbsence(start, marks);
      }
    }
  }

  lemma EarliestAddExtends(marks: seq<Mark>, i: nat)
    requires marks != [] && !marks[|marks| - 1].Removes? && EarliestAdd(marks[..|marks| - 1], i)
    ensures EarliestAdd(marks, i)
    ensures RemovedBefore(marks[..|marks| - 1], i) ==> RemovedBefore(marks, i)
  {
    var front := marks[..|marks| - 1];
    forall j | 0 <= j < i && marks[j].Adds?
      ensures exists k :: j < k < i && marks[k].Removes?
    {
      var k :| j < k < i && front[k].Removes?;
      assert marks[k].Removes?;
    }
    if RemovedBefore(front, i) {
      var k :| 0 <= k < i && k < |front| && front[k].Removes?;
      assert marks[k].Removes?;
    }
  }

  lemma {:induction false} AddAfterAbsence(start: Option<Entry>, marks: seq<Mark>)
    requires marks != [] && marks[|marks| - 1].Adds? && Replay(start, marks[..|marks| - 1]).None?
    ensures EarliestAdd(marks, |marks| - 1) && (start.None? || RemovedBefore(marks, |marks| - 1))
  {
    var n := |marks| - 1;
    var front := marks[..n];
    forall j | 0 <= j < n && marks[j].Adds?
      ensures exists k :: j < k < n && marks[k].Removes?
    {
      AbsenceNeedsRemoval(start, front, j);
      var k :| j < k < n && front[k].Removes?;
      assert marks[k].Removes?;
    }
    if start.Some? {
      if NeverRemoved(front) {
        ReplayKeepsStart(start, front);
      }
      var k :| 0 <= k < n && front[k].Removes?;
      assert marks[k].Removes?;
    }
  }

  lemma {:induction false} AbsenceNeedsRemoval(start: Option<Entry>, marks: seq<Mark>, j: nat)
    requires j < |marks| && marks[j].Adds? && Replay(start, marks).None?
    ensures exists k :: j < k < |marks| && marks[k].Removes?
  {
    var n := |marks| - 1;
    if !marks[n].Removes? {
      AbsenceNeedsRemoval(start, marks[..n], j);
      var k :| j < k < n && marks[..n][k].Removes?;
      assert marks[k].Removes?;
    }
  }

  // ---- Steady network ids ----

  /** A sender that is cached, or whose NetworkID property is absent or zero throughout. */
  ghost predicate Steady(m: Machine, actions: seq<Action>, sender: string) {
    sender in m.core.networkIDCache
    || forall i :: 0 <= i < |actions| && sender in Readings(actions[i]) ==> Readings(actions[i])[sender] == 0
  }

  ghost predicate SteadySenders(m: Machine, actions: seq<Action>) {
    forall i :: 0 <= i < |actions| && actions[i].Event? ==> Steady(m, actions, actions[i].signal.sender)
  }

  lemma {:induction false} SteadyNetworkId(su: Setup, m: Machine, actions: seq<Action>, sender: string)
    requires Steady(m, actions, sender)
    ensures NetworkIdOf(Run(su, m, actions).core.networkIDCache, sender) == NetworkIdOf(m.core.networkIDCache, sender)
    ensures sender in m.core.networkIDCache ==> sender in Run(su, m, actions).core.networkIDCache
  {
    hide CoreStep, MapStep, PendingStep, LogStep;
    if actions != [] {
      var n := |actions| - 1;
      var front, a := actions[..n], actions[n];
      assert Steady(m, front, sender) by {
        assert forall i :: 0 <= i < n ==> front[i] == actions[i];
      }
      SteadyNetworkId(su, m, front, sender);
      CacheEffect(su, Run(su, m, front).core, a);
    }
  }

  /** A device's key depends on the cache through the sender's network id alone. */
  lemma MarkDependsOnNetworkId(su: Setup, c: Core, cache: Cache, a: Action, d: DeviceID)
    requires a.Event? ==> NetworkIdOf(cache, a.signal.sender) == NetworkIdOf(c.networkIDCache, a.signal.sender)
    ensures MarkOf(su, c, cache, a, d) == MarkOf(su, c, c.networkIDCache, a, d)
  {
    hide Announces, Withdraws, Paths.IsBase, Paths.EventPathEid;
  }

  /** For a steady sender the mark by the initial cache is what the action really does. */
  lemma SteadyMark(su: Setup, m: Machine, actions: seq<Action>, i: nat, d: DeviceID)
    requires i < |actions| && (actions[i].Event? ==> Steady(m, actions, actions[i].signal.sender))
    ensures var c := At(su, m, actions, i).core;
      Marks(su, m, actions, d)[i] == MarkOf(su, c, c.networkIDCache, actions[i], d)
  {
    hide Run, MarkOf;
    if actions[i].Event? {
      assert Steady(m, actions[..i], actions[i].signal.sender);
      SteadyNetworkId(su, m, actions[..i], actions[i].signal.sender);
    }
    MarkDependsOnNetworkId(su, At(su, m, actions, i).core, m.core.networkIDCache, actions[i], d);
  }

  lemma MarksFront(su: Setup, m: Machine, actions: seq<Action>, d: DeviceID)
    requires actions != []
    ensures Marks(su, m, actions, d)[..|actions| - 1] == Marks(su, m, actions[..|actions| - 1], d)
  {
    hide Run, MarkOf;
    var n := |actions| - 1;
    forall i | 0 <= i < n
      ensures Marks(su, m, actions, d)[i] == Marks(su, m, actions[..n], d)[i]
    {
      assert actions[..n][..i] == actions[..i];
    }
  }

  // ---- The map follows the history ----

  /** The entry of d, or the one its waiting insertion will make, is the given one. */
  ghost predicate Foretells(m: Machine, d: DeviceID, entry: Option<Entry>) {
    && (d in m.endpointMap ==> entry == Some(m.endpointMap[d]))
    && (d !in m.endpointMap ==>
          forall service :: AddDevice(d, service) in m.pending ==> entry == Some(Entry(0, service)))
    && (d !in m.endpointMap && !Waiting(m, d) ==> entry == None)
  }

  function ReplayOne(entry: Option<Entry>, mark: Mark): Option<Entry> {
    match mark
    case Neutral => entry
    case Adds(service) => if entry.Some? then entry else Some(Entry(0, service))
    case Removes => None
  }

  lemma TaskForetells(su: Setup, m: Machine, task: Task, d: DeviceID, entry: Option<Entry>)
    requires Foretells(m, d, entry)
    ensures Foretells(Step(su, m, RunTask(task)), d, entry)
  {
    hide Step;
    if task in m.pending {
      TaskStep(su, m, task);
      var n := Step(su, m, RunTask(task));
      forall other | other in n.pending
        ensures other in m.pending
      {
      }
      if d !in n.endpointMap && Waiting(m, d) {
        var service :| AddDevice(d, service) in m.pending;
        assert task != AddDevice(d, service);
        assert AddDevice(d, service) in n.pending;
      }
    } else {
      IdleTask(su, m, task);
    }
  }

  lemma AnnouncementForetells(su: Setup, m: Machine, a: Action, d: DeviceID, entry: Option<Entry>)
    requires su.networkChange.Some? && AddedDevice(su, m.core, a).Some? && Foretells(m, d, entry)
    requires AddedDevice(su, m.core, a) == Some(d) ==> !Waiting(m, d)
    ensures Foretells(Step(su, m, a), d,
                      if AddedDevice(su, m.core, a) == Some(d) then ReplayOne(entry, Adds(a.signal.sender)) else entry)
  {
    AnnouncementStep(su, m, a);
    hide Step, AddedDevice;
    var task := AddDevice(AddedDevice(su, m.core, a).value, a.signal.sender);
    assert Step(su, m, a).pending == m.pending + multiset{task};
    assert task in Step(su, m, a).pending;
    forall other: Task | other != task
      ensures other in Step(su, m, a).pending <==> other in m.pending
    {
    }
  }

  lemma NoticeIsNoInsertion(su: Setup, m: Machine, a: Action, tasks: multiset<Task>, other: Task)
    requires other.AddDevice?
    ensures other in tasks + Bag(SpawnedNotice(su, m, a)) <==> other in tasks
  {
    hide RemovedDevice;
  }

  lemma WithdrawalForetells(su: Setup, m: Machine, a: Action, d: DeviceID, entry: Option<Entry>)
    requires RemovedDevice(su, m.core, a).Some? && Foretells(m, d, entry)
    requires RemovedDevice(su, m.core, a) == Some(d) ==> !Waiting(m, d)
    ensures Foretells(Step(su, m, a), d, if RemovedDevice(su, m.core, a) == Some(d) then None else entry)
  {
    WithdrawalStep(su, m, a);
    hide Step, RemovedDevice, SpawnedNotice, Bag;
    var n := Step(su, m, a);
    forall other: Task | other.AddDevice?
      ensures other in n.pending <==> other in m.pending
    {
      NoticeIsNoInsertion(su, m, a, m.pending, other);
    }
  }

  lemma AddOrRemove(su: Setup, c: Core, a: Action)
    ensures AddedDevice(su, c, a).Some? ==> RemovedDevice(su, c, a).None?
    ensures a.RunTask? ==> AddedDevice(su, c, a).None? && RemovedDevice(su, c, a).None?
  {
  }

  lemma MarkMeaning(su: Setup, c: Core, a: Action, d: DeviceID)
    ensures MarkOf(su, c, c.networkIDCache, a, d) ==
      if RemovedDevice(su, c, a) == Some(d) then Removes
      else if AddedDevice(su, c, a) == Some(d) then Adds(a.signal.sender)
      else Neutral
  {
    assert c.(networkIDCache := c.networkIDCache) == c;
    hide AddedDevice, RemovedDevice;
  }

  /** One action, seen from one device: the foretold entry changes by the action's mark. */
  lemma StepForetells(su: Setup, m: Machine, a: Action, d: DeviceID, entry: Option<Entry>)
    requires su.networkChange.Some? && Foretells(m, d, entry)
    requires Overwrites(su, m.core, a).None? && Inserts(su, m.core, a).None?
    requires Concerns(su, m.core, a, d) ==> !Waiting(m, d)
    ensures Foretells(Step(su, m, a), d, ReplayOne(entry, MarkOf(su, m.core, m.core.networkIDCache, a, d)))
  {
    AddOrRemove(su, m.core, a);
    MarkMeaning(su, m.core, a, d);
    hide Step, AddedDevice, RemovedDevice, Foretells, MarkOf, Overwrites, Inserts, Waiting;
    if a.RunTask? {
      TaskForetells(su, m, a.task, d, entry);
    } else if AddedDevice(su, m.core, a).Some? {
      AnnouncementForetells(su, m, a, d, entry);
    } else if RemovedDevice(su, m.core, a).Some? {
      WithdrawalForetells(su, m, a, d, entry);
    } else {
      UnconcernedForetells(su, m, a, d, entry);
    }
  }

  lemma UnconcernedForetells(su: Setup, m: Machine, a: Action, d: DeviceID, entry: Option<Entry>)
    requires Foretells(m, d, entry) && Overwrites(su, m.core, a).None? && Inserts(su, m.core, a).None?
    requires !a.RunTask? && AddedDevice(su, m.core, a).None? && RemovedDevice(su, m.core, a).None?
    ensures Foretells(Step(su, m, a), d, entry)
  {
    OtherStep(su, m, a);
    hide Step, AddedDevice, RemovedDevice, Overwrites, Inserts;
  }

  lemma ReplayLast(start: Option<Entry>, marks: seq<Mark>)
    requires marks != []
    ensures Replay(start, marks) == ReplayOne(Replay(start, marks[..|marks| - 1]), marks[|marks| - 1])
  {
  }

  lemma {:induction false} RunForetells(su: Setup, m: Machine, actions: seq<Action>, d: DeviceID)
    requires su.networkChange.Some? && NoScans(su, m, actions) && SteadySenders(m, actions) && !Waiting(m, d)
    requires forall i :: 0 <= i < |actions| && Concerns(su, At(su, m, actions, i).core, actions[i], d) ==>
               !Waiting(At(su, m, actions, i), d)
    ensures Foretells(Run(su, m, actions), d, Replay(Lookup(m.endpointMap, d), Marks(su, m, actions, d)))
  {
    hide Step, MarkOf, Overwrites, Inserts, Concerns;
    if actions != [] {
      var n := |actions| - 1;
      var front, a := actions[..n], actions[n];
      FrontHypotheses(su, m, actions, d);
      RunForetells(su, m, front, d);
      SteadyMark(su, m, actions, n, d);
      MarksFront(su, m, actions, d);
      ReplayLast(Lookup(m.endpointMap, d), Marks(su, m, actions, d));
      hide Foretells, Marks, Replay, ReplayOne;
      StepForetells(su, Run(su, m, front), a, d, Replay(Lookup(m.endpointMap, d), Marks(su, m, front, d)));
    }
  }

  lemma FrontHypotheses(su: Setup, m: Machine, actions: seq<Action>, d: DeviceID)
    requires actions != [] && NoScans(su, m, actions) && SteadySenders(m, actions)
    requires forall i :: 0 <= i < |actions| && Concerns(su, At(su, m, actions, i).core, actions[i], d) ==>
               !Waiting(At(su, m, actions, i), d)
    ensures var n := |actions| - 1; var front := actions[..n];
      && NoScans(su, m, front) && SteadySenders(m, front)
      && (forall i :: 0 <= i < n && Concerns(su, At(su, m, front, i).core, front[i], d) ==>
            !Waiting(At(su, m, front, i), d))
      && Overwrites(su, Run(su, m, front).core, actions[n]).None?
      && Inserts(su, Run(su, m, front).core, actions[n]).None?
      && (Concerns(su, Run(su, m, front).core, actions[n], d) ==> !Waiting(Run(su, m, front), d))
  {
    hide Run, Overwrites, Inserts, Concerns, Waiting;
    var n := |actions| - 1;
    var front := actions[..n];
    assert At(su, m, actions, n) == Run(su, m, front);
    forall i | 0 <= i < n
      ensures At(su, m, front, i) == At(su, m, actions, i)
    {
      assert front[..i] == actions[..i];
    }
    forall i | 0 <= i < n && front[i].Event?
      ensures Steady(m, front, front[i].signal.sender)
    {
      assert Steady(m, actions, actions[i].signal.sender);
      assert forall j :: 0 <= j < n ==> front[j] == actions[j];
    }
  }

  lemma MapIsReplay(su: Setup, m: Machine, actions: seq<Action>, d: DeviceID)
    requires su.networkChange.Some? && NoScans(su, m, actions) && SteadySenders(m, actions)
    requires Timely(su, m, actions, d)
    ensures Lookup(Run(su, m, actions).endpointMap, d) == Replay(Lookup(m.endpointMap, d), Marks(su, m, actions, d))
  {
    hide Run, Marks, Replay, Overwrites, Inserts, Concerns;
    RunForetells(su, m, actions, d);
  }

  /**
   The index agrees with history. In every run with a callback, steady senders and no scan, in which each
   insertion of d runs at some point before the next event about d, d is in the map at the end exactly
   when its last relevant event was an addition, or it had none and was there at the start. Its entry is
   the initial one as long as no removal came, and otherwise names the sender of the earliest addition
   since the last removal.
   */
  lemma IndexAgreesWithHistory(su: Setup, m: Machine, actions: seq<Action>, d: DeviceID)
    requires su.networkChange.Some? && NoScans(su, m, actions) && SteadySenders(m, actions)
    requires Timely(su, m, actions, d)
    ensures var marks := Marks(su, m, actions, d); var eids := Run(su, m, actions).endpointMap;
      && (d in eids <==>
            (exists i: nat :: LastRelevant(marks, i) && marks[i].Adds?)
            || (d in m.endpointMap && forall i :: 0 <= i < |marks| ==> marks[i].Neutral?))
      && (d in m.endpointMap && NeverRemoved(marks) ==> d in eids && eids[d] == m.endpointMap[d])
      && (forall i: nat :: EarliestAdd(marks, i) && (d !in m.endpointMap || RemovedBefore(marks, i)) ==>
            d in eids && eids[d] == Entry(0, marks[i].service))
      && (d in eids ==>
            (d in m.endpointMap && NeverRemoved(marks))
            || exists i: nat :: EarliestAdd(marks, i) && (d !in m.endpointMap || RemovedBefore(marks, i)))
  {
    hide Run, Marks, Timely, NoScans, SteadySenders;
    var marks, start := Marks(su, m, actions, d), Lookup(m.endpointMap, d);
    MapIsReplay(su, m, actions, d);
    ReplayPresence(start, marks);
    if d in m.endpointMap && NeverRemoved(marks) {
      ReplayKeepsStart(start, marks);
    }
    forall i: nat | EarliestAdd(marks, i) && (d !in m.endpointMap || RemovedBefore(marks, i))
      ensures Replay(start, marks) == Some(Entry(0, marks[i].service))
    {
      ReplaySource(start, marks, i);
    }
    if Replay(start, marks).Some? {
      ReplayOrigin(start, marks);
    }
  }
}

/**
 Who is listened to, and from when on: the matched services and the end of the initialisation as functions of
 what happened.
 */
module Matching {
  import opened Wrappers
  import opened Names
  import opened Dbus
  import opened Scan
  import opened Tracker
  import Coverage
  import Handlers
  import Paths
  import Provenance

  // ---- One action ----

  /** A detection is told that s owns a service, or asks for s and is told nothing; or s announces its binding. */
  predicate Joins(su: Setup, c: Core, a: Action, s: string) {
    match a
    case OwnerReply(id, owner, _) =>
      && id in c.jobs && c.jobs[id].AwaitOwner?
      && (owner == Some(s) || (owner.None? && c.jobs[id].service == s))
    case Event(signal, _) =>
      && c.initialised && signal.sender == s && signal.body.InterfacesAdded?
      && signal.body.path == BasePath.Text() && BindingInterface(su.filter.config.binding) in signal.body.values
    case _ => false
  }

  /** s withdraws its Base interface. */
  predicate Leaves(c: Core, a: Action, s: string) {
    && a.Event? && c.initialised && a.signal.sender == s && a.signal.body.InterfacesRemoved?
    && a.signal.body.path == BasePath.Text() && BaseInterface in a.signal.body.interfaces
  }

  lemma EventMatching(su: Setup, c: Core, signal: Signal, r: Replies, s: string)
    ensures s in EventCore(su, c, signal, r).matchedBuses <==>
      Joins(su, c, Event(signal, r), s) || (s in c.matchedBuses && !Leaves(c, Event(signal, r), s))
  {
    match signal.body {
      case InterfacesAdded(path, _) => Handlers.BaseIsNoEndpoint(path);
      case InterfacesRemoved(path, _) => Handlers.BaseIsNoEndpoint(path);
      case _ =>
    }
    hide Delivers, Paths.HasDeviceSlash, Paths.IsEndpoint, SupportFlag, BindingInterface, PathName.Text;
  }

  lemma ResumeMatching(su: Setup, c: Core, a: Action, job: Job, s: string)
    requires Resumed(c, a) == Some(job)
    ensures s in ResumeCore(su, c, a, job).matchedBuses <==> Joins(su, c, a, s) || s in c.matchedBuses
  {
    hide Resolve, Complete, ReplyEids, CacheAfter;
  }

  /** An action matches those who join and drops those who leave, and nobody else. */
  lemma StepMatching(su: Setup, c: Core, a: Action, s: string)
    ensures s in CoreStep(su, c, a).matchedBuses <==> Joins(su, c, a, s) || (s in c.matchedBuses && !Leaves(c, a, s))
  {
    hide EventCore, ResumeCore, RegisterVersions, InstallOwnEid;
    if a.Event? {
      EventMatching(su, c, a.signal, a.replies, s);
    } else if Resumed(c, a).Some? {
      ResumeMatching(su, c, a, Resumed(c, a).value, s);
    }
    hide PathName.Text, BindingInterface;
  }

  // ---- Every run ----

  /** Action i let s join, and s has not left since. */
  ghost predicate JoinedLast(su: Setup, actions: seq<Action>, s: string, i: nat) {
    && i < |actions| && Joins(su, At(su, INITIAL, actions, i).core, actions[i], s)
    && forall j :: i < j < |actions| ==> !Leaves(At(su, INITIAL, actions, j).core, actions[j], s)
  }

  lemma JoinedLastFront(su: Setup, actions: seq<Action>, s: string, i: nat)
    requires actions != [] && i < |actions| - 1
    ensures JoinedLast(su, actions, s, i) <==>
      JoinedLast(su, actions[..|actions| - 1], s, i)
      && !Leaves(Run(su, INITIAL, actions[..|actions| - 1]).core, actions[|actions| - 1], s)
  {
    hide Run, Joins, Leaves;
    var n := |actions| - 1;
    assert At(su, INITIAL, actions, n) == Run(su, INITIAL, actions[..n]);
    forall j | 0 <= j < n
      ensures At(su, INITIAL, actions[..n], j) == At(su, INITIAL, actions, j)
    {
      assert actions[..n][..j] == actions[..j];
    }
  }

  /**
   The matched services: in every reachable state, s is matched exactly when the latest of its joining and leaving
   was a joining.
   */
  lemma {:induction false} MatchedIff(su: Setup, actions: seq<Action>, s: string)
    ensures s in Run(su, INITIAL, actions).core.matchedBuses <==> exists i: nat :: JoinedLast(su, actions, s, i)
  {
    hide CoreStep, MapStep, PendingStep, LogStep, Joins, Leaves, JoinedLast;
    if actions == [] {
      NobodyJoined(su, s);
    } else {
      var n := |actions| - 1;
      var front, a := actions[..n], actions[n];
      MatchedIff(su, front, s);
      StepMatching(su, Run(su, INITIAL, front).core, a, s);
      LastJoin(su, actions, s);
      forall i: nat | i < n
        ensures JoinedLast(su, actions, s, i) <==>
          JoinedLast(su, front, s, i) && !Leaves(Run(su, INITIAL, front).core, a, s)
      {
        JoinedLastFront(su, actions, s, i);
      }
      forall i: nat | JoinedLast(su, actions, s, i) || JoinedLast(su, front, s, i)
        ensures i <= n && (JoinedLast(su, front, s, i) ==> i < n)
      {
        JoinedWithin(su, actions, s, i);
        JoinedWithin(su, front, s, i);
      }
    }
  }

  lemma NobodyJoined(su: Setup, s: string)
    ensures forall i: nat :: !JoinedLast(su, [], s, i)
  {
  }

  lemma JoinedWithin(su: Setup, actions: seq<Action>, s: string, i: nat)
    ensures JoinedLast(su, actions, s, i) ==> i < |actions|
  {
    hide Joins, Leaves, Run;
  }

  lemma LastJoin(su: Setup, actions: seq<Action>, s: string)
    requires actions != []
    ensures JoinedLast(su, actions, s, |actions| - 1)
      <==> Joins(su, Run(su, INITIAL, actions[..|actions| - 1]).core, actions[|actions| - 1], s)
  {
    hide Joins, Leaves, Run;
  }

  // ---- Initialisation ----

  /** A detection has come to the end of the services, or got none: it goes on to the scan, or ends. */
  predicate SearchEnds(c: Core, a: Action) {
    match a
    case ServicesReply(id, services, r) =>
      && id in c.jobs && c.jobs[id].AwaitServices?
      && (services.Some? ==> forall s :: s in services.value ==> s !in r.busIds)
    case OwnerReply(id, _, r) =>
      && id in c.jobs && c.jobs[id].AwaitOwner? && forall s :: s in c.jobs[id].rest ==> s !in r.busIds
    case _ => false
  }

  lemma NoneUsable(services: seq<string>, busIds: map<string, nat>)
    ensures FirstUsable(services, busIds) == |services| <==> forall s :: s in services ==> s !in busIds
  {
    var k := FirstUsable(services, busIds);
    if k < |services| {
      assert services[k] in services;
    } else {
      forall s | s in services
        ensures s !in busIds
      {
        var i :| 0 <= i < |services| && services[i] == s;
      }
    }
  }

  lemma ResolveInitialises(su: Setup, c: Core, id: nat, services: seq<string>, buses: seq<Entry>, resolved: set<string>,
                           r: Replies)
    ensures Complete(su, c, id, r).initialised
    ensures Resolve(su, c, id, services, buses, resolved, r).initialised
      <==> c.initialised || FirstUsable(services, r.busIds) == |services|
    ensures var n := Resolve(su, c, id, services, buses, resolved, r);
      id in n.jobs && n.jobs[id].AwaitObjects? ==> n.initialised || (id in c.jobs && c.jobs[id].AwaitObjects?)
  {
    hide RegisterVersions, InstallOwnEid;
  }

  /** Scans run only when initialisation is done. */
  ghost predicate ScansAreInitialised(c: Core) {
    forall id :: id in c.jobs && c.jobs[id].AwaitObjects? ==> c.initialised
  }

  lemma EventKeepsInitialised(su: Setup, c: Core, signal: Signal, r: Replies)
    ensures EventCore(su, c, signal, r).initialised == c.initialised && EventCore(su, c, signal, r).jobs == c.jobs
  {
    hide EndpointPath, Delivers, NewService, Paths.IsBase, Paths.HasDeviceSlash;
  }

  lemma ResumeInitialised(su: Setup, c: Core, a: Action, job: Job)
    requires Resumed(c, a) == Some(job) && ScansAreInitialised(c)
    ensures ResumeCore(su, c, a, job).initialised <==> c.initialised || SearchEnds(c, a)
  {
    hide Resolve, Complete, ReplyEids, FirstUsable, CacheAfter;
    match a
    case ServicesReply(id, services, r) =>
      var ss := if services.Some? then services.value else [];
      ResolveInitialises(su, c, id, ss, [], {}, r);
      NoneUsable(ss, r.busIds);
    case OwnerReply(id, owner, r) =>
      var name := OwnerName(job.service, owner);
      ResolveInitialises(su, c.(matchedBuses := c.matchedBuses + {name}), id, job.rest, job.buses,
                         job.resolved + {name}, r);
      NoneUsable(job.rest, r.busIds);
    case ObjectsReply(id, objects, r) =>
      var c1 := if objects.None? then c else Remember(c, RepliedBus(job).service, r);
      ResolveInitialises(su, c1, id, [], [], {}, r);
  }

  lemma StepInitialised(su: Setup, c: Core, a: Action)
    requires ScansAreInitialised(c)
    ensures CoreStep(su, c, a).initialised <==> c.initialised || SearchEnds(c, a)
  {
    hide EventCore, ResumeCore, RegisterVersions, InstallOwnEid, ScansAreInitialised;
    if a.Event? {
      EventKeepsInitialised(su, c, a.signal, a.replies);
    } else if Resumed(c, a).Some? {
      ResumeInitialised(su, c, a, Resumed(c, a).value);
    }
  }

  lemma ResumedJobIsInitialised(su: Setup, c: Core, a: Action, job: Job)
    requires Resumed(c, a) == Some(job) && ScansAreInitialised(c)
    ensures var n := ResumeCore(su, c, a, job);
      a.job in n.jobs && n.jobs[a.job].AwaitObjects? ==> n.initialised
  {
    hide Resolve, Complete, ReplyEids, FirstUsable, CacheAfter;
    match a
    case ServicesReply(id, services, r) =>
      Coverage.CompleteJobs(su, c, id, r);
      ResolveInitialises(su, c, id, if services.Some? then services.value else [], [], {}, r);
    case OwnerReply(id, owner, r) =>
      var name := OwnerName(job.service, owner);
      ResolveInitialises(su, c.(matchedBuses := c.matchedBuses + {name}), id, job.rest, job.buses,
                         job.resolved + {name}, r);
    case ObjectsReply(id, objects, r) =>
      var c1 := if objects.None? then c else Remember(c, RepliedBus(job).service, r);
      Coverage.CompleteJobs(su, c1, id, r);
  }

  lemma StepKeepsScansInitialised(su: Setup, c: Core, a: Action)
    requires ScansAreInitialised(c)
    ensures ScansAreInitialised(CoreStep(su, c, a))
  {
    var n := CoreStep(su, c, a);
    StepInitialised(su, c, a);
    hide EventCore, ResumeCore, RegisterVersions, InstallOwnEid, SearchEnds;
    if a.Event? {
      EventKeepsInitialised(su, c, a.signal, a.replies);
    } else if Resumed(c, a).Some? {
      var job := Resumed(c, a).value;
      ResumedJobIsInitialised(su, c, a, job);
      Provenance.ResumeOtherJobs(su, c, a, job);
      forall id | id in n.jobs && n.jobs[id].AwaitObjects?
        ensures n.initialised
      {
        if id != a.job {
          Provenance.UnchangedUnder(n.jobs, c.jobs, a.job, id);
        }
      }
    }
  }

  lemma {:induction false} ScansOfRun(su: Setup, actions: seq<Action>)
    ensures ScansAreInitialised(Run(su, INITIAL, actions).core)
  {
    hide CoreStep, MapStep, PendingStep, LogStep;
    if actions != [] {
      var front := actions[..|actions| - 1];
      ScansOfRun(su, front);
      StepKeepsScansInitialised(su, Run(su, INITIAL, front).core, actions[|actions| - 1]);
    }
  }

  /** Some action of the run came to the end of a detection's services. */
  ghost predicate SearchEnded(su: Setup, actions: seq<Action>) {
    exists i :: 0 <= i < |actions| && SearchEnds(At(su, INITIAL, actions, i).core, actions[i])
  }

  lemma SearchEndedFront(su: Setup, actions: seq<Action>)
    requires actions != []
    ensures SearchEnded(su, actions) <==>
      SearchEnded(su, actions[..|actions| - 1])
      || SearchEnds(Run(su, INITIAL, actions[..|actions| - 1]).core, actions[|actions| - 1])
  {
    hide Run, SearchEnds;
    var n := |actions| - 1;
    assert At(su, INITIAL, actions, n) == Run(su, INITIAL, actions[..n]);
    forall j | 0 <= j < n
      ensures At(su, INITIAL, actions[..n], j) == At(su, INITIAL, actions, j)
    {
      assert actions[..n][..j] == actions[..j];
    }
    if SearchEnded(su, actions[..n]) {
      var i :| 0 <= i < n && SearchEnds(At(su, INITIAL, actions[..n], i).core, actions[..n][i]);
      assert SearchEnds(At(su, INITIAL, actions, i).core, actions[i]);
    }
    if SearchEnds(Run(su, INITIAL, actions[..n]).core, actions[n]) {
      assert SearchEnds(At(su, INITIAL, actions, n).core, actions[n]);
    }
    if SearchEnded(su, actions) {
      var i :| 0 <= i <= n && SearchEnds(At(su, INITIAL, actions, i).core, actions[i]);
      assert i < n ==> SearchEnds(At(su, INITIAL, actions[..n], i).core, actions[..n][i]);
    }
  }

  /** Signals are handled exactly from the moment some detection has come to the end of its services. */
  lemma {:induction false} InitialisedIff(su: Setup, actions: seq<Action>)
    ensures Run(su, INITIAL, actions).core.initialised <==> SearchEnded(su, actions)
  {
    hide CoreStep, MapStep, PendingStep, LogStep, SearchEnds, SearchEnded;
    if actions == [] {
      NothingEnded(su);
    } else {
      var front := actions[..|actions| - 1];
      InitialisedIff(su, front);
      ScansOfRun(su, front);
      StepInitialised(su, Run(su, INITIAL, front).core, actions[|actions| - 1]);
      SearchEndedFront(su, actions);
    }
  }

  lemma NothingEnded(su: Setup)
    ensures !SearchEnded(su, [])
  {
  }
}

/** Which services have been told the responder versions, and which have been asked for their EID. */
module Coverage {
  import opened Wrappers
  import opened Versions
  import opened Dbus
  import opened Scan
  import opened Tracker
  import Paths

  /** The owners a detection still under way has put into the matched services. */
  function ResolvedBy(job: Job): set<string> {
    match job
    case AwaitOwner(_, _, _, resolved) => resolved
    case AwaitObjects(_, _, resolved) => resolved
    case _ => {}
  }

  ghost predicate InFlight(c: Core, service: string) {
    exists id :: id in c.jobs && service in ResolvedBy(c.jobs[id])
  }

  /** The last registration attempt on the service carried exactly the stored versions. */
  predicate Told(su: Setup, c: Core, service: string) {
    CanRegister(su.filter.config) ==>
      service in c.sent && c.sent[service] == ResponderMessage(su.filter.config, c.responderVersions)
  }

  ghost predicate ResponderCovered(su: Setup, c: Core) {
    c.responderVersions != [] ==>
      forall s :: s in c.matchedBuses ==> Told(su, c, s) || InFlight(c, s)
  }

  /** The service's EID was read since the present callback was installed. */
  ghost predicate Asked(c: Core, service: string) {
    exists reported :: OwnRead(service, c.installations, reported) in c.ownReads
  }

  ghost predicate OwnEidCovered(c: Core) {
    c.eidChange.Some? ==> forall s :: s in c.matchedBuses ==> Asked(c, s) || InFlight(c, s)
  }

  ghost predicate Covered(su: Setup, c: Core) {
    ResponderCovered(su, c) && OwnEidCovered(c)
  }

  /** Registering versions covers every matched service, detections under way or not. */
  lemma RegisterCovers(su: Setup, c: Core, versions: seq<VersionFields>)
    requires versions != []
    ensures ResponderCovered(su, RegisterVersions(su, c, versions))
  {
    hide ResponderMessage;
  }

  lemma InstallCovers(c: Core, callback: Option<Callback>, r: Replies)
    requires callback.Some?
    ensures OwnEidCovered(InstallOwnEid(c, callback, r))
  {
    var n := InstallOwnEid(c, callback, r);
    forall s | s in n.matchedBuses
      ensures Asked(n, s)
    {
      assert OwnRead(s, n.installations, Lookup(r.ownEids, s)) in n.ownReads;
    }
  }

  lemma SameInFlight(c: Core, c': Core)
    requires c'.jobs == c.jobs
    ensures forall s :: InFlight(c', s) == InFlight(c, s)
  {
  }

  lemma SendTells(su: Setup, c: Core, services: set<string>, s: string)
    requires c.responderVersions != [] && (s in services || Told(su, c, s))
    ensures Told(su, SendVersions(su, c, services), s)
  {
    hide ResponderMessage;
  }

  lemma ReadAsks(c: Core, services: set<string>, r: Replies, s: string)
    requires c.eidChange.Some? && (s in services || Asked(c, s))
    ensures Asked(ReadOwnEids(c, services, r), s)
  {
    var n := ReadOwnEids(c, services, r);
    if s in services {
      assert OwnRead(s, c.installations, Lookup(r.ownEids, s)) in n.ownReads;
    } else {
      var reported :| OwnRead(s, c.installations, reported) in c.ownReads;
      assert OwnRead(s, c.installations, reported) in n.ownReads;
    }
  }

  /** A service that joins by itself is served at once. */
  lemma NewServiceCovered(su: Setup, c: Core, service: string, r: Replies)
    requires Covered(su, c)
    ensures Covered(su, NewService(su, c, service, r))
  {
    var n := NewService(su, c, service, r);
    SameInFlight(c, n);
    var c1 := c.(matchedBuses := c.matchedBuses + {service});
    var c2 := SendVersions(su, c1, {service});
    assert n == ReadOwnEids(c2, {service}, r);
    hide InFlight, ResponderMessage, SendVersions, ReadOwnEids, NewService, OwnReadsOf;
    forall s | s in n.matchedBuses
      ensures c.responderVersions != [] ==> Told(su, n, s) || InFlight(n, s)
      ensures c.eidChange.Some? ==> Asked(n, s) || InFlight(n, s)
    {
      assert s == service || s in c.matchedBuses;
      if c.responderVersions != [] && !InFlight(c, s) {
        SendTells(su, c1, {service}, s);
      }
      if c.eidChange.Some? && !InFlight(c, s) {
        ReadAsks(c2, {service}, r, s);
      }
    }
  }

  /** The end of a detection serves every matched service. */
  lemma CompleteCovers(su: Setup, c: Core, id: nat, r: Replies)
    ensures Covered(su, Complete(su, c, id, r))
  {
    var c1 := c.(jobs := c.jobs - {id}, initialised := true);
    var c2 := RegisterVersions(su, c1, c1.responderVersions);
    var n := InstallOwnEid(c2, c2.eidChange, r);
    assert Complete(su, c, id, r) == n;
    if c.responderVersions != [] {
      RegisterCovers(su, c1, c1.responderVersions);
    }
    if c.eidChange.Some? {
      InstallCovers(c2, c2.eidChange, r);
    }
    SameInFlight(c2, n);
    hide InFlight, ResponderMessage, RegisterVersions, InstallOwnEid, Complete;
  }

  /** Suspending a job that has resolved at least as much as the one it replaces keeps services in flight. */
  lemma SuspendKeepsInFlight(c: Core, id: nat, job: Job, s: string)
    requires id in c.jobs ==> ResolvedBy(c.jobs[id]) <= ResolvedBy(job)
    ensures InFlight(c, s) ==> InFlight(Suspend(c, id, job), s)
    ensures s in ResolvedBy(job) ==> InFlight(Suspend(c, id, job), s)
  {
    var n := Suspend(c, id, job);
    if InFlight(c, s) {
      var k :| k in c.jobs && s in ResolvedBy(c.jobs[k]);
      assert k in n.jobs && s in ResolvedBy(n.jobs[k]);
    }
    if s in ResolvedBy(job) {
      assert id in n.jobs && n.jobs[id] == job;
    }
  }

  /** What is covered once the services in "resolved" are counted as covered too. */
  ghost predicate CoveredBut(su: Setup, c: Core, resolved: set<string>) {
    forall s :: s in c.matchedBuses ==>
      s in resolved || InFlight(c, s)
      || ((c.responderVersions != [] ==> Told(su, c, s)) && (c.eidChange.Some? ==> Asked(c, s)))
  }

  lemma SuspendCovered(su: Setup, c: Core, id: nat, job: Job)
    requires CoveredBut(su, c, ResolvedBy(job))
    requires id in c.jobs ==> ResolvedBy(c.jobs[id]) <= ResolvedBy(job)
    ensures Covered(su, Suspend(c, id, job))
  {
    forall s | s in c.matchedBuses
      ensures InFlight(Suspend(c, id, job), s)
        || ((c.responderVersions != [] ==> Told(su, c, s)) && (c.eidChange.Some? ==> Asked(c, s)))
    {
      SuspendKeepsInFlight(c, id, job, s);
    }
    hide InFlight, ResponderMessage;
  }

  // ---- Every step ----

  /** Job numbers in use lie below the next one, so a new coroutine disturbs none. */
  predicate JobsNumbered(c: Core) {
    forall id :: id in c.jobs ==> id < c.nextJob
  }

  ghost predicate Inv(su: Setup, c: Core) {
    Covered(su, c) && JobsNumbered(c)
  }

  /** Coverage speaks of these fields only. */
  lemma CoveredFrame(su: Setup, c: Core, n: Core)
    requires Covered(su, c)
    requires n.matchedBuses <= c.matchedBuses && n.responderVersions == c.responderVersions && n.sent == c.sent
    requires n.jobs == c.jobs && n.eidChange == c.eidChange && n.ownReads == c.ownReads
    requires n.installations == c.installations
    ensures Covered(su, n)
  {
    SameInFlight(c, n);
    hide InFlight, ResponderMessage;
  }

  lemma EventCovered(su: Setup, c: Core, signal: Signal, r: Replies)
    requires Inv(su, c)
    ensures Inv(su, EventCore(su, c, signal, r))
  {
    hide Covered, EndpointPath, Delivers, Paths.HasDeviceSlash, Paths.IsBase, NewService;
    var n := EventCore(su, c, signal, r);
    NewServiceCovered(su, c, signal.sender, r);
    if n != NewService(su, c, signal.sender, r) {
      CoveredFrame(su, c, n);
    }
  }

  lemma StartCovered(su: Setup, c: Core, job: Job)
    requires Inv(su, c) && ResolvedBy(job) == {}
    ensures Inv(su, Start(c, job))
  {
    SuspendCovered(su, c, c.nextJob, job);
    CoveredFrame(su, Suspend(c, c.nextJob, job), Start(c, job));
    hide Covered;
  }

  /** The search for buses, started from a state covered but for the owners just resolved. */
  lemma ResolveCovered(su: Setup, c: Core, id: nat, services: seq<string>, buses: seq<Entry>, resolved: set<string>,
                       r: Replies)
    requires CoveredBut(su, c, resolved) && JobsNumbered(c)
    requires id in c.jobs && ResolvedBy(c.jobs[id]) <= resolved
    ensures Inv(su, Resolve(su, c, id, services, buses, resolved, r))
  {
    hide Covered, CoveredBut, Complete;
    var k := FirstUsable(services, r.busIds);
    if k < |services| {
      SuspendCovered(su, c, id, AwaitOwner(services[k], services[k + 1..],
                                           buses + [Entry(r.busIds[services[k]], services[k])], resolved));
    } else if buses == [] {
      CompleteCovers(su, c, id, r);
      CompleteJobs(su, c, id, r);
    } else {
      var job := AwaitObjects(buses, map[], resolved);
      SuspendCovered(su, c, id, job);
      CoveredFrame(su, Suspend(c, id, job), Suspend(c.(initialised := true), id, job));
    }
  }

  lemma CompleteJobs(su: Setup, c: Core, id: nat, r: Replies)
    ensures Complete(su, c, id, r).jobs == c.jobs - {id}
  {
    hide RegisterVersions, InstallOwnEid;
  }

  lemma CoveredIsCoveredBut(su: Setup, c: Core, resolved: set<string>)
    requires Covered(su, c)
    ensures CoveredBut(su, c, resolved)
  {
    hide InFlight, ResponderMessage;
  }

  /** An owner that joins the matched services is covered by being resolved. */
  lemma OwnerCovered(su: Setup, c: Core, name: string, resolved: set<string>)
    requires Covered(su, c)
    ensures CoveredBut(su, c.(matchedBuses := c.matchedBuses + {name}), resolved + {name})
  {
    var n := c.(matchedBuses := c.matchedBuses + {name});
    SameInFlight(c, n);
    hide InFlight, ResponderMessage;
    forall s | s in n.matchedBuses && s != name
      ensures InFlight(n, s)
        || ((n.responderVersions != [] ==> Told(su, n, s)) && (n.eidChange.Some? ==> Asked(n, s)))
    {
      assert s in c.matchedBuses;
    }
  }

  lemma RemoveEmptyJob(su: Setup, c: Core, id: nat)
    requires Covered(su, c) && id in c.jobs && ResolvedBy(c.jobs[id]) == {}
    ensures Covered(su, c.(jobs := c.jobs - {id}))
  {
    var n := c.(jobs := c.jobs - {id});
    forall s | InFlight(c, s)
      ensures InFlight(n, s)
    {
      var k :| k in c.jobs && s in ResolvedBy(c.jobs[k]);
      assert k in n.jobs && s in ResolvedBy(n.jobs[k]);
    }
    hide InFlight, ResponderMessage;
  }

  lemma ObjectsCovered(su: Setup, c: Core, a: Action, job: Job)
    requires Inv(su, c)
    requires a.ObjectsReply? && Resumed(c, a) == Some(job)
    ensures Inv(su, ResumeCore(su, c, a, job))
  {
    hide Covered, Complete, ReplyEids;
    var c1 := if a.objects.None? then c else Remember(c, RepliedBus(job).service, a.replies);
    CoveredFrame(su, c, c1);
    if job.AwaitNewBus? {
      RemoveEmptyJob(su, c1, a.job);
    } else if |job.buses| == 1 {
      CompleteCovers(su, c1, a.job, a.replies);
      CompleteJobs(su, c1, a.job, a.replies);
    } else {
      CoveredIsCoveredBut(su, c1, job.resolved);
      SuspendCovered(su, c1, a.job,
        AwaitObjects(job.buses[1..], job.eids + ReplyEids(su, c, RepliedBus(job), a.objects), job.resolved));
    }
  }

  lemma ResumeCovered(su: Setup, c: Core, a: Action, job: Job)
    requires Inv(su, c) && Resumed(c, a) == Some(job)
    ensures Inv(su, ResumeCore(su, c, a, job))
  {
    hide Covered, CoveredBut, Complete, Resolve, ReplyEids;
    match a
    case ServicesReply(id, services, r) =>
      if services.None? {
        CompleteCovers(su, c, id, r);
        CompleteJobs(su, c, id, r);
      } else {
        CoveredIsCoveredBut(su, c, {});
        ResolveCovered(su, c, id, services.value, [], {}, r);
      }
    case OwnerReply(id, owner, r) =>
      var name := OwnerName(job.service, owner);
      OwnerCovered(su, c, name, job.resolved);
      ResolveCovered(su, c.(matchedBuses := c.matchedBuses + {name}), id, job.rest, job.buses,
                     job.resolved + {name}, r);
    case ObjectsReply(_, _, _) =>
      ObjectsCovered(su, c, a, job);
  }

  lemma RegisterKeepsOwn(su: Setup, c: Core, versions: seq<VersionFields>)
    requires OwnEidCovered(c)
    ensures OwnEidCovered(RegisterVersions(su, c, versions))
  {
    SameInFlight(c, RegisterVersions(su, c, versions));
    hide InFlight, RegisterVersions;
  }

  lemma InstallKeepsResponder(su: Setup, c: Core, callback: Option<Callback>, r: Replies)
    requires ResponderCovered(su, c)
    ensures ResponderCovered(su, InstallOwnEid(c, callback, r))
  {
    SameInFlight(c, InstallOwnEid(c, callback, r));
    hide InFlight, InstallOwnEid, ResponderMessage;
  }

  lemma StepCovered(su: Setup, c: Core, a: Action)
    requires Inv(su, c)
    ensures Inv(su, CoreStep(su, c, a))
  {
    hide ResponderCovered, OwnEidCovered, EventCore, ResumeCore, RegisterVersions, InstallOwnEid, Start;
    match a
    case Event(signal, r) => EventCovered(su, c, signal, r);
    case RunTask(_) =>
    case BeginDetection => StartCovered(su, c, AwaitServices);
    case BeginAddToEidMap(service, r) =>
      if service in r.busIds {
        StartCovered(su, c, AwaitNewBus(Entry(r.busIds[service], service)));
      }
    case CallRegisterResponder(versions) =>
      RegisterKeepsOwn(su, c, versions);
      if versions == [] {
        EmptyRegistration(su, c);
      } else {
        RegisterCovers(su, c, versions);
      }
    case CallGetOwnEIDs(callback, r) =>
      InstallKeepsResponder(su, c, callback, r);
      if callback.None? {
        EmptyInstallation(c, r);
      } else {
        InstallCovers(c, callback, r);
      }
    case CallSetExtendedReceive(_) =>
      CoveredFrame(su, c, CoreStep(su, c, a));
    case _ =>
      if Resumed(c, a).Some? {
        ResumeCovered(su, c, a, Resumed(c, a).value);
      }
  }

  lemma EmptyRegistration(su: Setup, c: Core)
    ensures RegisterVersions(su, c, []) == c
  {
  }

  lemma EmptyInstallation(c: Core, r: Replies)
    ensures InstallOwnEid(c, None, r) == c
  {
  }

  // ---- Whole runs ----

  lemma {:induction false} RunCovered(su: Setup, m: Machine, actions: seq<Action>)
    requires Inv(su, m.core)
    ensures Inv(su, Run(su, m, actions).core)
  {
    hide Inv, CoreStep, MapStep, PendingStep, LogStep;
    if actions != [] {
      var front := actions[..|actions| - 1];
      RunCovered(su, m, front);
      StepCovered(su, Run(su, m, front).core, actions[|actions| - 1]);
    }
  }

  /** No detection is waiting for a reply. */
  ghost predicate NoDetection(c: Core) {
    forall id :: id in c.jobs ==> c.jobs[id].AwaitNewBus?
  }

  /** What a registration message tells the service. */
  function ToldVersions(call: ResponderCall): seq<VersionFields> {
    Decode(call.version)
  }

  lemma NothingInFlight(c: Core, service: string)
    requires NoDetection(c)
    ensures !InFlight(c, service)
  {
  }

  lemma ToldMeaning(su: Setup, c: Core, service: string)
    requires Covered(su, c) && NoDetection(c) && CanRegister(su.filter.config)
    requires c.responderVersions != [] && service in c.matchedBuses
    ensures service in c.sent && c.sent[service] == ResponderMessage(su.filter.config, c.responderVersions)
    ensures ToldVersions(c.sent[service]) == c.responderVersions
  {
    NothingInFlight(c, service);
    VersionRoundTrip(c.responderVersions);
    hide InFlight, Encode, Decode;
  }

  lemma AskedMeaning(su: Setup, c: Core, service: string)
    requires Covered(su, c) && NoDetection(c) && c.eidChange.Some? && service in c.matchedBuses
    ensures Asked(c, service)
  {
    NothingInFlight(c, service);
    hide InFlight, ResponderCovered;
  }

  /**
   Responder coverage: whenever no detection is under way, the last registration attempt on every
   matched service carried exactly the stored versions, if there are any; however registrations,
   detections and new services came one after the other.
   */
  lemma ResponderCoverage(su: Setup, actions: seq<Action>)
    requires CanRegister(su.filter.config)
    ensures var c := Run(su, INITIAL, actions).core;
      NoDetection(c) && c.responderVersions != [] ==>
        forall service :: service in c.matchedBuses ==>
          && service in c.sent && c.sent[service] == ResponderMessage(su.filter.config, c.responderVersions)
          && ToldVersions(c.sent[service]) == c.responderVersions
  {
    RunCovered(su, INITIAL, actions);
    hide Run, Covered, NoDetection, ResponderMessage, ToldVersions;
    var c := Run(su, INITIAL, actions).core;
    if NoDetection(c) && c.responderVersions != [] {
      forall service | service in c.matchedBuses
        ensures service in c.sent && c.sent[service] == ResponderMessage(su.filter.config, c.responderVersions)
        ensures ToldVersions(c.sent[service]) == c.responderVersions
      {
        ToldMeaning(su, c, service);
      }
    }
  }

  /**
   Own-EID coverage: whenever no detection is under way and a callback is installed, the EID of every
   matched service has been read since that installation.
   */
  lemma OwnEidCoverage(su: Setup, actions: seq<Action>)
    ensures var c := Run(su, INITIAL, actions).core;
      NoDetection(c) && c.eidChange.Some? ==> forall service :: service in c.matchedBuses ==> Asked(c, service)
  {
    RunCovered(su, INITIAL, actions);
    hide Run, Covered, NoDetection;
    var c := Run(su, INITIAL, actions).core;
    if NoDetection(c) && c.eidChange.Some? {
      forall service | service in c.matchedBuses
        ensures Asked(c, service)
      {
        AskedMeaning(su, c, service);
      }
    }
  }

  /** While detections run, only services they have resolved themselves may still be uncovered. */
  lemma CoverageDuringDetection(su: Setup, actions: seq<Action>)
    ensures Covered(su, Run(su, INITIAL, actions).core)
  {
    RunCovered(su, INITIAL, actions);
    hide Run, Covered;
  }
}

/**
 The buses a detection scans: its replies come once each and in order from the services found whose bus
 id could be read. And what a single service adds when it is scanned into the present map.
 */
module Search {
  import opened Wrappers
  import opened DeviceIds
  import opened Scan
  import opened Tracker
  import opened Provenance
  import Coverage
  import Dbus
  import Handlers

  // ---- What a detection was told ----

  /** The action is the reply detection id waits for. */
  predicate Resumes(c: Core, a: Action, id: nat) {
    (a.ServicesReply? || a.OwnerReply? || a.ObjectsReply?) && a.job == id && Resumed(c, a).Some?
  }

  /** The services that were found for detection id. */
  function FoundServices(su: Setup, actions: seq<Action>, id: nat): Option<seq<string>> {
    if actions == [] then None
    else
      var front, a := actions[..|actions| - 1], actions[|actions| - 1];
      if a.ServicesReply? && Resumes(Run(su, INITIAL, front).core, a, id) then a.services
      else FoundServices(su, front, id)
  }

  /** What reading bus ids yielded, whenever the detection searched for the next bus. */
  function BusReadings(su: Setup, actions: seq<Action>, id: nat): seq<map<string, nat>> {
    if actions == [] then []
    else
      var front, a := actions[..|actions| - 1], actions[|actions| - 1];
      BusReadings(su, front, id)
        + if !a.ObjectsReply? && Resumes(Run(su, INITIAL, front).core, a, id) then [a.replies.busIds] else []
  }

  /** The buses whose objects the detection was sent, in the order of the replies. */
  function RepliedBuses(su: Setup, actions: seq<Action>, id: nat): seq<Entry> {
    if actions == [] then []
    else
      var front, a := actions[..|actions| - 1], actions[|actions| - 1];
      var c := Run(su, INITIAL, front).core;
      RepliedBuses(su, front, id)
        + if a.ObjectsReply? && Resumes(c, a, id) && Resumed(c, a).value.AwaitObjects?
          then [RepliedBus(Resumed(c, a).value)] else []
  }

  // ---- Searching the services ----

  /** The services a detection has not come to yet, and the buses it has picked. */
  datatype Progress = Progress(rest: seq<string>, buses: seq<Entry>)

  /** One search after the other: each takes the first service whose bus id it can read, and drops those before. */
  function Searched(readings: seq<map<string, nat>>, services: seq<string>): Progress {
    if readings == [] then Progress(services, [])
    else
      var p := Searched(readings[..|readings| - 1], services);
      var read := readings[|readings| - 1];
      var k := FirstUsable(p.rest, read);
      if k < |p.rest| then Progress(p.rest[k + 1..], p.buses + [Entry(read[p.rest[k]], p.rest[k])])
      else Progress([], p.buses)
  }

  lemma NextSearch(readings: seq<map<string, nat>>, read: map<string, nat>, services: seq<string>)
    ensures var p := Searched(readings, services); var k := FirstUsable(p.rest, read);
      Searched(readings + [read], services) ==
      if k < |p.rest| then Progress(p.rest[k + 1..], p.buses + [Entry(read[p.rest[k]], p.rest[k])])
      else Progress([], p.buses)
  {
    hide FirstUsable;
    assert (readings + [read])[..|readings|] == readings;
  }

  /** The first position a search starts from when these positions were picked. */
  function Next(at: seq<nat>): nat {
    if at == [] then 0 else at[|at| - 1] + 1
  }

  /**
   Bus i was picked by search i, which read its bus id for the service at position at[i] and for no service
   since the position picked before; a search that picked nothing read no bus id for any service left.
   */
  ghost predicate PickedAt(readings: seq<map<string, nat>>, services: seq<string>, buses: seq<Entry>, at: seq<nat>) {
    && |at| == |buses| <= |readings|
    && (forall i :: 0 <= i < |at| ==>
          && Next(at[..i]) <= at[i] < |services|
          && Lookup(readings[i], services[at[i]]) == Some(buses[i].bus) && buses[i].service == services[at[i]]
          && forall j :: Next(at[..i]) <= j < at[i] ==> services[j] !in readings[i])
    && (|buses| < |readings| ==>
          forall j :: Next(at) <= j < |services| ==> services[j] !in readings[|buses|])
  }

  /** A further search that picks the service at position p. */
  lemma PickOne(readings: seq<map<string, nat>>, services: seq<string>, buses: seq<Entry>, at: seq<nat>,
                read: map<string, nat>, p: nat)
    requires PickedAt(readings, services, buses, at) && |buses| == |readings|
    requires Next(at) <= p < |services| && services[p] in read
    requires forall j :: Next(at) <= j < p ==> services[j] !in read
    ensures PickedAt(readings + [read], services, buses + [Entry(read[services[p]], services[p])], at + [p])
  {
    var at' := at + [p];
    forall i | 0 <= i < |at|
      ensures at'[..i] == at[..i] && (readings + [read])[i] == readings[i]
    {
    }
    assert at'[..|at|] == at;
  }

  lemma PickNone(readings: seq<map<string, nat>>, services: seq<string>, buses: seq<Entry>, at: seq<nat>,
                 read: map<string, nat>)
    requires PickedAt(readings, services, buses, at)
    requires |buses| == |readings| ==> forall j :: Next(at) <= j < |services| ==> services[j] !in read
    ensures PickedAt(readings + [read], services, buses, at)
  {
    forall i | 0 <= i < |readings|
      ensures (readings + [read])[i] == readings[i]
    {
    }
  }

  /** These positions are what was picked, and what is left follows them until a search finds nothing. */
  ghost predicate Explains(readings: seq<map<string, nat>>, services: seq<string>, p: Progress, at: seq<nat>) {
    && PickedAt(readings, services, p.buses, at) && Next(at) <= |services|
    && p.rest == if |p.buses| == |readings| then services[Next(at)..] else []
  }

  lemma SearchTakes(front: seq<map<string, nat>>, read: map<string, nat>, services: seq<string>, p: Progress,
                    at: seq<nat>)
    requires Explains(front, services, p, at) && FirstUsable(p.rest, read) < |p.rest|
    ensures var k := FirstUsable(p.rest, read);
      Explains(front + [read], services, Progress(p.rest[k + 1..], p.buses + [Entry(read[p.rest[k]], p.rest[k])]),
               at + [Next(at) + k])
  {
    hide PickedAt;
    var k := FirstUsable(p.rest, read);
    forall j | Next(at) <= j < Next(at) + k
      ensures services[j] !in read
    {
      assert services[j] == p.rest[j - Next(at)];
    }
    assert p.rest[k] == services[Next(at) + k];
    PickOne(front, services, p.buses, at, read, Next(at) + k);
    assert p.rest[k + 1..] == services[Next(at) + k + 1..];
  }

  lemma SearchFails(front: seq<map<string, nat>>, read: map<string, nat>, services: seq<string>, p: Progress,
                    at: seq<nat>)
    requires Explains(front, services, p, at) && FirstUsable(p.rest, read) == |p.rest|
    ensures Explains(front + [read], services, Progress([], p.buses), at)
  {
    PickedLength(front, services, p.buses, at);
    hide PickedAt;
    forall j | |p.buses| == |front| && Next(at) <= j < |services|
      ensures services[j] !in read
    {
      assert services[j] == p.rest[j - Next(at)];
    }
    PickNone(front, services, p.buses, at, read);
  }

  /**
   What the searches pick: the services come in order and once each, every one is picked by its own search,
   and one is passed over only by a search that could not read its bus id.
   */
  lemma {:induction false} SearchedMeaning(readings: seq<map<string, nat>>, services: seq<string>)
    ensures exists at: seq<nat> :: Explains(readings, services, Searched(readings, services), at)
  {
    hide Explains;
    if readings == [] {
      NothingPicked(services);
    } else {
      var front, read := readings[..|readings| - 1], readings[|readings| - 1];
      assert front + [read] == readings;
      SearchedMeaning(front, services);
      var p := Searched(front, services);
      var at: seq<nat> :| Explains(front, services, p, at);
      NextSearch(front, read, services);
      hide Searched;
      if FirstUsable(p.rest, read) < |p.rest| {
        SearchTakes(front, read, services, p, at);
      } else {
        SearchFails(front, read, services, p, at);
      }
    }
  }

  lemma NothingPicked(services: seq<string>)
    ensures Explains([], services, Searched([], services), [])
  {
  }

  lemma PickedLength(readings: seq<map<string, nat>>, services: seq<string>, buses: seq<Entry>, at: seq<nat>)
    requires PickedAt(readings, services, buses, at)
    ensures |buses| <= |readings|
  {
  }

  // ---- Every step ----

  /** How far a detection has come: what the searches so far yield is what replied and what is still to come. */
  ghost predicate OnTrack(c: Core, id: nat, found: Option<seq<string>>, readings: seq<map<string, nat>>,
                          replied: seq<Entry>)
  {
    && (id >= c.nextJob ==> readings == [] && replied == [])
    && (id in c.jobs ==>
          match c.jobs[id]
          case AwaitServices => readings == [] && replied == []
          case AwaitOwner(_, rest, buses, _) =>
            replied == [] && buses != [] && found.Some? && Searched(readings, found.value) == Progress(rest, buses)
          case AwaitObjects(buses, _, _) =>
            found.Some? && Searched(readings, found.value) == Progress([], replied + buses)
          case AwaitNewBus(_) => true)
  }

  lemma SearchOnTrack(su: Setup, c: Core, id: nat, services: seq<string>, rest: seq<string>, buses: seq<Entry>,
                      resolved: set<string>, r: Dbus.Replies, readings: seq<map<string, nat>>)
    requires id in c.jobs && id < c.nextJob && Searched(readings, services) == Progress(rest, buses)
    ensures OnTrack(Resolve(su, c, id, rest, buses, resolved, r), id, Some(services), readings + [r.busIds], [])
  {
    hide Searched, Complete;
    Coverage.CompleteJobs(su, c, id, r);
    NextSearch(readings, r.busIds, services);
    assert [] + buses == buses;
  }

  lemma SameOnTrack(c: Core, n: Core, id: nat, found: Option<seq<string>>, readings: seq<map<string, nat>>,
                    replied: seq<Entry>)
    requires OnTrack(c, id, found, readings, replied) && c.nextJob <= n.nextJob && Coverage.JobsNumbered(c)
    requires id < c.nextJob ==> (id in n.jobs <==> id in c.jobs) && (id in c.jobs ==> n.jobs[id] == c.jobs[id])
    requires id in n.jobs && id >= c.nextJob ==> n.jobs[id].AwaitServices? || n.jobs[id].AwaitNewBus?
    ensures OnTrack(n, id, found, readings, replied)
  {
    hide Searched;
  }

  lemma IdleOnTrack(su: Setup, c: Core, a: Action, id: nat, found: Option<seq<string>>,
                    readings: seq<map<string, nat>>, replied: seq<Entry>)
    requires OnTrack(c, id, found, readings, replied) && Coverage.JobsNumbered(c) && !Resumes(c, a, id)
    ensures OnTrack(CoreStep(su, c, a), id, found, readings, replied)
  {
    hide EventCore, ResumeCore, RegisterVersions, InstallOwnEid, OnTrack;
    var n := CoreStep(su, c, a);
    if a.Event? {
      EventKeepsJobs(su, c, a.signal, a.replies);
    } else if Resumed(c, a).Some? {
      ResumeOtherJobs(su, c, a, Resumed(c, a).value);
      UnchangedUnder(n.jobs, c.jobs, a.job, id);
    }
    SameOnTrack(c, n, id, found, readings, replied);
  }

  lemma ServicesOnTrack(su: Setup, c: Core, a: Action, id: nat)
    requires Coverage.JobsNumbered(c) && a.ServicesReply? && Resumes(c, a, id)
    ensures OnTrack(CoreStep(su, c, a), id, a.services, [a.replies.busIds], [])
  {
    hide Resolve, Complete;
    if a.services.None? {
      Coverage.CompleteJobs(su, c, id, a.replies);
    } else {
      var services := a.services.value;
      SearchOnTrack(su, c, id, services, services, [], {}, a.replies, []);
      assert [] + [a.replies.busIds] == [a.replies.busIds];
    }
  }

  lemma OwnerOnTrack(su: Setup, c: Core, a: Action, id: nat, found: Option<seq<string>>,
                     readings: seq<map<string, nat>>, replied: seq<Entry>)
    requires Coverage.JobsNumbered(c) && a.OwnerReply? && Resumes(c, a, id)
    requires OnTrack(c, id, found, readings, replied)
    ensures OnTrack(CoreStep(su, c, a), id, found, readings + [a.replies.busIds], replied)
  {
    hide Resolve, Searched, OwnerName;
    var job := c.jobs[id];
    var name := OwnerName(job.service, a.owner);
    SearchOnTrack(su, c.(matchedBuses := c.matchedBuses + {name}), id, found.value, job.rest, job.buses,
                  job.resolved + {name}, a.replies, readings);
  }

  /** The bus whose objects came moves from the buses to come to those that replied. */
  lemma ObjectsOnTrack(su: Setup, c: Core, a: Action, id: nat, found: Option<seq<string>>,
                       readings: seq<map<string, nat>>, replied: seq<Entry>)
    requires Coverage.JobsNumbered(c) && a.ObjectsReply? && Resumes(c, a, id) && Resumed(c, a).value.AwaitObjects?
    requires OnTrack(c, id, found, readings, replied)
    ensures OnTrack(CoreStep(su, c, a), id, found, readings, replied + [c.jobs[id].buses[0]])
  {
    hide Complete, Searched, ReplyEids, Remember;
    var job := c.jobs[id];
    var c1 := if a.objects.None? then c else Remember(c, RepliedBus(job).service, a.replies);
    RememberKeepsJobs(c, RepliedBus(job).service, a.replies);
    Coverage.CompleteJobs(su, c1, id, a.replies);
    assert replied + job.buses == replied + [job.buses[0]] + job.buses[1..];
  }

  lemma NewBusOnTrack(su: Setup, c: Core, a: Action, id: nat, found: Option<seq<string>>,
                      readings: seq<map<string, nat>>, replied: seq<Entry>)
    requires Coverage.JobsNumbered(c) && a.ObjectsReply? && Resumes(c, a, id) && Resumed(c, a).value.AwaitNewBus?
    ensures OnTrack(CoreStep(su, c, a), id, found, readings, replied)
  {
    RememberKeepsJobs(c, RepliedBus(c.jobs[id]).service, a.replies);
    hide Searched, Remember;
  }

  // ---- Every run ----

  lemma {:induction false} RunOnTrack(su: Setup, actions: seq<Action>, id: nat)
    ensures OnTrack(Run(su, INITIAL, actions).core, id, FoundServices(su, actions, id), BusReadings(su, actions, id),
                    RepliedBuses(su, actions, id))
  {
    hide CoreStep, MapStep, PendingStep, LogStep, OnTrack;
    if actions == [] {
      NothingStarted(id);
    } else {
      var front, a := actions[..|actions| - 1], actions[|actions| - 1];
      RunOnTrack(su, front, id);
      JobsStayNumbered(su, front);
      StepOnTrack(su, Run(su, INITIAL, front).core, a, id, FoundServices(su, front, id), BusReadings(su, front, id),
                  RepliedBuses(su, front, id));
      assert BusReadings(su, front, id) + [] == BusReadings(su, front, id);
      assert RepliedBuses(su, front, id) + [] == RepliedBuses(su, front, id);
    }
  }

  lemma NothingStarted(id: nat)
    ensures OnTrack(INITIAL_CORE, id, None, [], [])
  {
  }

  lemma StepOnTrack(su: Setup, c: Core, a: Action, id: nat, found: Option<seq<string>>,
                    readings: seq<map<string, nat>>, replied: seq<Entry>)
    requires Coverage.JobsNumbered(c) && OnTrack(c, id, found, readings, replied)
    ensures OnTrack(CoreStep(su, c, a), id,
                    if a.ServicesReply? && Resumes(c, a, id) then a.services else found,
                    if !a.ObjectsReply? && Resumes(c, a, id) then readings + [a.replies.busIds] else readings,
                    if a.ObjectsReply? && Resumes(c, a, id) && Resumed(c, a).value.AwaitObjects?
                    then replied + [RepliedBus(Resumed(c, a).value)] else replied)
  {
    if Resumes(c, a, id) && a.ServicesReply? {
      assert readings == [] && replied == [];
    }
    hide CoreStep, OnTrack;
    if !Resumes(c, a, id) {
      IdleOnTrack(su, c, a, id, found, readings, replied);
    } else if a.ServicesReply? {
      ServicesOnTrack(su, c, a, id);
      assert readings + [a.replies.busIds] == [a.replies.busIds];
    } else if a.OwnerReply? {
      OwnerOnTrack(su, c, a, id, found, readings, replied);
    } else if Resumed(c, a).value.AwaitObjects? {
      ObjectsOnTrack(su, c, a, id, found, readings, replied);
    } else {
      NewBusOnTrack(su, c, a, id, found, readings, replied);
    }
  }

  /** A detection ends with everything searched and every bus it picked having replied. */
  lemma EndOnTrack(su: Setup, c: Core, a: Action, id: nat, found: Option<seq<string>>,
                   readings: seq<map<string, nat>>, replied: seq<Entry>)
    requires EndsDetection(su, c, a, id) && OnTrack(c, id, found, readings, replied)
    ensures Resumes(c, a, id) && !a.OwnerReply?
    ensures a.ServicesReply? ==>
      a.services.Some? && replied == [] && Searched(readings + [a.replies.busIds], a.services.value) == Progress([], [])
    ensures a.ObjectsReply? ==>
      Resumed(c, a).value.AwaitObjects? && found.Some?
      && Searched(readings, found.value) == Progress([], replied + [RepliedBus(Resumed(c, a).value)])
  {
    if a.ServicesReply? {
      NextSearch(readings, a.replies.busIds, a.services.value);
      assert Searched([], a.services.value) == Progress(a.services.value, []);
    }
    hide Searched;
    if a.ObjectsReply? {
      assert c.jobs[id].buses == [RepliedBus(c.jobs[id])];
    }
  }

  /** The reply with an owner never ends a detection: there is always a bus to scan by then. */
  lemma OwnerReplyEndsNothing(su: Setup, actions: seq<Action>, a: Action)
    requires a.OwnerReply?
    ensures Overwrites(su, Run(su, INITIAL, actions).core, a).None?
  {
    hide Run, Overwrites, OnTrack;
    RunOnTrack(su, actions, a.job);
    var c := Run(su, INITIAL, actions).core;
    if Overwrites(su, c, a).Some? {
      EndOnTrack(su, c, a, a.job, FoundServices(su, actions, a.job), BusReadings(su, actions, a.job),
                 RepliedBuses(su, actions, a.job));
    }
  }

  /**
   Where a detection's replies come from: when it ends, the buses that replied are exactly those its
   searches picked from the services found for it, in order and once each; a service is left out only
   where the search that came to it could not read its bus id, and none is left to come to.
   */
  lemma DetectionVisitsFoundBuses(su: Setup, actions: seq<Action>, id: nat)
    requires actions != []
    requires EndsDetection(su, Run(su, INITIAL, actions[..|actions| - 1]).core, actions[|actions| - 1], id)
    ensures var found, readings := FoundServices(su, actions, id), BusReadings(su, actions, id);
      && found.Some?
      && Searched(readings, found.value) == Progress([], RepliedBuses(su, actions, id))
      && exists at: seq<nat> :: PickedAt(readings, found.value, RepliedBuses(su, actions, id), at)
  {
    hide Step, Searched, Overwrites, OnTrack, PickedAt;
    var front, a := actions[..|actions| - 1], actions[|actions| - 1];
    var c := Run(su, INITIAL, front).core;
    RunOnTrack(su, front, id);
    EndOnTrack(su, c, a, id, FoundServices(su, front, id), BusReadings(su, front, id), RepliedBuses(su, front, id));
    hide Run;
    assert BusReadings(su, front, id) + [] == BusReadings(su, front, id);
    assert RepliedBuses(su, front, id) + [] == RepliedBuses(su, front, id);
    SearchedMeaning(BusReadings(su, actions, id), FoundServices(su, actions, id).value);
    var at: seq<nat> :| Explains(BusReadings(su, actions, id), FoundServices(su, actions, id).value,
                                 Progress([], RepliedBuses(su, actions, id)), at);
  }

  /** The layers of a detection are those of its replies: no other action gives it a device. */
  lemma LayersComeFromReplies(su: Setup, c: Core, a: Action, id: nat)
    ensures LayerAt(su, c, a, id).devices != {} ==>
      a.ObjectsReply? && Resumes(c, a, id) && Resumed(c, a).value.AwaitObjects?
      && LayerAt(su, c, a, id).bus == RepliedBus(Resumed(c, a).value)
  {
    hide Devices;
  }

  lemma {:induction false} AnswerReplied(su: Setup, actions: seq<Action>, id: nat, d: DeviceID, i: nat, bus: Entry)
    requires Answers(su, actions, id, d, i)
    requires bus == LayerAt(su, At(su, INITIAL, actions, i).core, actions[i], id).bus
    ensures bus in RepliedBuses(su, actions, id)
  {
    hide Step, LayerAt, Resumes;
    var n := |actions| - 1;
    if i < n {
      assert actions[..n][..i] == actions[..i];
      AnswerReplied(su, actions[..n], id, d, i, bus);
    } else {
      LayersComeFromReplies(su, Run(su, INITIAL, actions[..n]).core, actions[n], id);
    }
  }

  /** The entry is the i-th bus picked: by search i, from the services found, with the bus id that search read. */
  ghost predicate PickedBy(readings: seq<map<string, nat>>, services: seq<string>, buses: seq<Entry>, i: nat,
                           entry: Entry)
  {
    && i < |buses| && i < |readings| && buses[i] == entry
    && entry.service in services && Lookup(readings[i], entry.service) == Some(entry.bus)
  }

  lemma PickedEntry(readings: seq<map<string, nat>>, services: seq<string>, buses: seq<Entry>, at: seq<nat>,
                    entry: Entry)
    requires PickedAt(readings, services, buses, at) && entry in buses
    ensures exists i: nat :: PickedBy(readings, services, buses, i, entry)
  {
    var i: nat :| i < |buses| && buses[i] == entry;
    assert services[at[i]] in services;
    assert PickedBy(readings, services, buses, i, entry);
  }

  /**
   After a detection every entry of the map names a service that was found for it, with the bus id that the
   search which picked this service read.
   */
  lemma EntriesComeFromFoundServices(su: Setup, actions: seq<Action>, id: nat, d: DeviceID)
    requires actions != []
    requires EndsDetection(su, Run(su, INITIAL, actions[..|actions| - 1]).core, actions[|actions| - 1], id)
    ensures var eids, found := Run(su, INITIAL, actions).endpointMap, FoundServices(su, actions, id);
      d in eids ==>
        found.Some? && exists i: nat ::
          PickedBy(BusReadings(su, actions, id), found.value, RepliedBuses(su, actions, id), i, eids[d])
  {
    DetectionResult(su, actions, id, d);
    DetectionVisitsFoundBuses(su, actions, id);
    hide Run, LayerAt, Searched, PickedAt, PickedBy, FoundServices, BusReadings, RepliedBuses, EndsDetection;
    var eids, found := Run(su, INITIAL, actions).endpointMap, FoundServices(su, actions, id);
    var readings, buses := BusReadings(su, actions, id), RepliedBuses(su, actions, id);
    if d in eids {
      var i: nat :| LastAnswer(su, actions, id, d, i, eids[d]);
      AnswerReplied(su, actions, id, d, i, eids[d]);
      var at: seq<nat> :| PickedAt(readings, found.value, buses, at);
      PickedEntry(readings, found.value, buses, at, eids[d]);
    }
  }

  /** A detection that has ended waits for nothing more. */
  lemma EndedIsOver(su: Setup, m: Machine, a: Action, id: nat)
    requires EndsDetection(su, m.core, a, id)
    ensures id !in Step(su, m, a).core.jobs
  {
    hide MapStep, PendingStep, LogStep, Complete, ReplyEids, FirstUsable, CacheAfter;
    var r := a.replies;
    Coverage.CompleteJobs(su, m.core, id, r);
    match a
    case OwnerReply(_, owner, _) =>
      var name := OwnerName(m.core.jobs[id].service, owner);
      Coverage.CompleteJobs(su, m.core.(matchedBuses := m.core.matchedBuses + {name}), id, r);
    case ObjectsReply(_, objects, _) =>
      Coverage.CompleteJobs(su, Remember(m.core, RepliedBus(m.core.jobs[id]).service, r), id, r);
    case _ =>
  }

  // ---- A single service ----

  lemma WaitingBusStays(su: Setup, c: Core, a: Action, id: nat, bus: Entry)
    requires Coverage.JobsNumbered(c) && id in c.jobs && c.jobs[id] == AwaitNewBus(bus)
    requires !(a.ObjectsReply? && a.job == id)
    ensures id in CoreStep(su, c, a).jobs && CoreStep(su, c, a).jobs[id] == AwaitNewBus(bus)
  {
    hide EventCore, ResumeCore, RegisterVersions, InstallOwnEid;
    if a.Event? {
      EventKeepsJobs(su, c, a.signal, a.replies);
    } else if Resumed(c, a).Some? {
      ResumeOtherJobs(su, c, a, Resumed(c, a).value);
      UnchangedUnder(CoreStep(su, c, a).jobs, c.jobs, a.job, id);
    }
  }

  lemma {:induction false} WaitingBusOfRun(su: Setup, m: Machine, work: seq<Action>, id: nat, bus: Entry)
    requires Coverage.JobsNumbered(m.core) && id in m.core.jobs && m.core.jobs[id] == AwaitNewBus(bus)
    requires forall a :: a in work ==> !(a.ObjectsReply? && a.job == id)
    ensures var c := Run(su, m, work).core;
      Coverage.JobsNumbered(c) && id in c.jobs && c.jobs[id] == AwaitNewBus(bus)
  {
    hide CoreStep, MapStep, PendingStep, LogStep;
    if work != [] {
      var front, a := work[..|work| - 1], work[|work| - 1];
      assert a in work && forall b :: b in front ==> b in work;
      WaitingBusOfRun(su, m, front, id, bus);
      WaitingBusStays(su, Run(su, m, front).core, a, id, bus);
      StepNumbered(su, Run(su, m, front).core, a);
    }
  }

  lemma InsertingStep(su: Setup, m: Machine, id: nat, objects: Option<seq<Dbus.ManagedObject>>, r: Dbus.Replies,
                      bus: Entry)
    requires id in m.core.jobs && m.core.jobs[id] == AwaitNewBus(bus)
    ensures Step(su, m, ObjectsReply(id, objects, r)).endpointMap
      == ReplyEids(su, m.core, bus, objects) + m.endpointMap
    ensures id !in Step(su, m, ObjectsReply(id, objects, r)).core.jobs
  {
    hide PendingStep, LogStep, ReplyEids, SignalDevice, CacheAfter;
  }

  /**
   What addToEidMap comes to, whatever happens before its bus replies: the devices of the reply join the map
   of that moment under the network id then known, and entries already there stay as they are.
   */
  lemma AddToEidMapResult(su: Setup, m: Machine, service: string, r: Dbus.Replies, work: seq<Action>,
                          objects: Option<seq<Dbus.ManagedObject>>, r': Dbus.Replies, d: DeviceID)
    requires Coverage.JobsNumbered(m.core) && service in r.busIds
    requires forall a :: a in work ==> !(a.ObjectsReply? && a.job == m.core.nextJob)
    ensures var before := Run(su, Step(su, m, BeginAddToEidMap(service, r)), work);
      var after := Step(su, before, ObjectsReply(m.core.nextJob, objects, r'));
      var nwid := NetworkIdOf(before.core.networkIDCache, service);
      && (d in after.endpointMap <==>
            d in before.endpointMap
            || (objects.Some? && exists obj, eid ::
                  obj in objects.value && Admissible(su.filter, obj, eid) && d == MakeDeviceID(eid, nwid)))
      && (d in before.endpointMap ==> after.endpointMap[d] == before.endpointMap[d])
      && (d in after.endpointMap && d !in before.endpointMap ==>
            after.endpointMap[d] == Entry(r.busIds[service], service))
      && m.core.nextJob !in after.core.jobs
  {
    var start := Step(su, m, BeginAddToEidMap(service, r));
    var bus := Entry(r.busIds[service], service);
    BeginStarts(su, m, service, r);
    hide Run, Step;
    WaitingBusOfRun(su, start, work, m.core.nextJob, bus);
    var before := Run(su, start, work);
    InsertingStep(su, before, m.core.nextJob, objects, r', bus);
    if objects.Some? {
      DeviceHasObject(su.filter, NetworkIdOf(before.core.networkIDCache, service), objects.value, d);
    }
    hide Devices, Admissible;
  }

  lemma BeginStarts(su: Setup, m: Machine, service: string, r: Dbus.Replies)
    requires Coverage.JobsNumbered(m.core) && service in r.busIds
    ensures var c := Step(su, m, BeginAddToEidMap(service, r)).core;
      && Coverage.JobsNumbered(c) && m.core.nextJob in c.jobs
      && c.jobs[m.core.nextJob] == AwaitNewBus(Entry(r.busIds[service], service))
  {
    hide MapStep, PendingStep, LogStep;
  }

  /** A service whose bus id cannot be read is left alone. */
  lemma UnreadableIsNotScanned(su: Setup, m: Machine, service: string, r: Dbus.Replies)
    requires service !in r.busIds
    ensures Step(su, m, BeginAddToEidMap(service, r)) == m
  {
    Handlers.CallStep(su, m, BeginAddToEidMap(service, r));
    hide Step;
  }
}

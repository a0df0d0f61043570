/**
 What the user asked for and what became of it: which versions are stored and which callbacks are set, which
 services are sent which message, and which are asked for their EID.
 */
module Registration {
  import opened Wrappers
  import opened Names
  import opened Vendor
  import opened Versions
  import opened Dbus
  import opened Scan
  import opened Tracker
  import Coverage
  import Handlers
  import Matching
  import Paths
  import Provenance

  // ---- The last call counts ----

  /** The versions of the last registration that was not refused. */
  function LastRegistered(actions: seq<Action>): seq<VersionFields> {
    if actions == [] then []
    else match actions[|actions| - 1]
      case CallRegisterResponder(versions) =>
        if versions == [] then LastRegistered(actions[..|actions| - 1]) else versions
      case _ => LastRegistered(actions[..|actions| - 1])
  }

  /** The own-EID callback of the last call that gave one. */
  function LastOwnEidCallback(actions: seq<Action>): Option<Callback> {
    if actions == [] then None
    else match actions[|actions| - 1]
      case CallGetOwnEIDs(Some(callback), _) => Some(callback)
      case _ => LastOwnEidCallback(actions[..|actions| - 1])
  }

  /** What the extended callback was last set to, unless a plain one rules it out. */
  function LastExtendedCallback(su: Setup, actions: seq<Action>): Option<Callback> {
    if su.receive.Some? || actions == [] then None
    else match actions[|actions| - 1]
      case CallSetExtendedReceive(callback) => callback
      case _ => LastExtendedCallback(su, actions[..|actions| - 1])
  }

  lemma EventKeepsSettings(su: Setup, c: Core, signal: Signal, r: Replies)
    ensures var n := EventCore(su, c, signal, r);
      n.responderVersions == c.responderVersions && n.eidChange == c.eidChange && n.extReceive == c.extReceive
  {
    hide EndpointPath, Delivers, NewService, Paths.IsBase, Paths.HasDeviceSlash;
  }

  lemma CompleteKeepsSettings(su: Setup, c: Core, id: nat, r: Replies)
    ensures var n := Complete(su, c, id, r);
      n.responderVersions == c.responderVersions && n.eidChange == c.eidChange && n.extReceive == c.extReceive
  {
    hide SendVersions, ReadOwnEids;
  }

  lemma ResumeKeepsSettings(su: Setup, c: Core, a: Action, job: Job)
    requires Resumed(c, a) == Some(job)
    ensures var n := ResumeCore(su, c, a, job);
      n.responderVersions == c.responderVersions && n.eidChange == c.eidChange && n.extReceive == c.extReceive
  {
    hide Complete, ReplyEids, CacheAfter, FirstUsable;
    match a
    case ServicesReply(id, _, r) => CompleteKeepsSettings(su, c, id, r);
    case OwnerReply(id, owner, r) =>
      CompleteKeepsSettings(su, c.(matchedBuses := c.matchedBuses + {OwnerName(job.service, owner)}), id, r);
    case ObjectsReply(id, objects, r) =>
      CompleteKeepsSettings(su, if objects.None? then c else Remember(c, RepliedBus(job).service, r), id, r);
  }

  lemma StepSettings(su: Setup, c: Core, a: Action)
    ensures var n := CoreStep(su, c, a);
      && n.responderVersions
         == (if a.CallRegisterResponder? && a.versions != [] then a.versions else c.responderVersions)
      && n.eidChange == (if a.CallGetOwnEIDs? && a.callback.Some? then a.callback else c.eidChange)
      && n.extReceive == (if a.CallSetExtendedReceive? && su.receive.None? then a.callback else c.extReceive)
  {
    hide EventCore, ResumeCore, SendVersions, ReadOwnEids;
    if a.Event? {
      EventKeepsSettings(su, c, a.signal, a.replies);
    } else if Resumed(c, a).Some? {
      ResumeKeepsSettings(su, c, a, Resumed(c, a).value);
    }
  }

  /**
   The settings: in every reachable state the stored versions are those of the last registration that was not
   refused, and the callbacks are those last set.
   */
  lemma {:induction false} SettingsAreTheLast(su: Setup, actions: seq<Action>)
    ensures var c := Run(su, INITIAL, actions).core;
      && c.responderVersions == LastRegistered(actions)
      && c.eidChange == LastOwnEidCallback(actions)
      && c.extReceive == LastExtendedCallback(su, actions)
  {
    hide CoreStep, MapStep, PendingStep, LogStep;
    if actions != [] {
      var front := actions[..|actions| - 1];
      SettingsAreTheLast(su, front);
      StepSettings(su, Run(su, INITIAL, front).core, actions[|actions| - 1]);
    }
  }

  // ---- The message sent ----

  /** A VDPCI responder needs both vendor settings. */
  predicate Registrable(config: Config) {
    config.msgType == Vdpci ==> config.vendorId.Some? && config.vendorMessageType.Some?
  }

  /** The call registers exactly these versions for what the configuration says. */
  predicate Registers(config: Config, call: ResponderCall, versions: seq<VersionFields>) {
    && |call.version| == 4 * |versions| && Decode(call.version) == versions
    && if config.msgType == Vdpci then
         && call.RegisterVdpciResponder? && Some(call.vendorId) == config.vendorId && config.vendorMessageType.Some?
         && call.cmdSetType == config.vendorMessageType.value.CmdSetType()
       else call.RegisterResponder? && call.messageType == TypeCode(config.msgType)
  }

  lemma MessageRegisters(config: Config, versions: seq<VersionFields>)
    ensures CanRegister(config) <==> Registrable(config)
    ensures Registrable(config) ==> Registers(config, ResponderMessage(config, versions), versions)
  {
    VersionRoundTrip(versions);
    hide Encode, Decode, TypeCode, VendorMessageType.CmdSetType;
    EncodedLength(versions);
  }

  lemma EncodedLength(versions: seq<VersionFields>)
    ensures |Encode(versions)| == 4 * |versions|
  {
    EncodeConcat(versions, []);
  }

  /**
   Responder coverage in the user's terms: whenever no detection is under way, the last registration attempt on every
   matched service was the message of the configuration with exactly the versions the user registered last.
   */
  lemma RegistrationReachesAll(su: Setup, actions: seq<Action>)
    requires Registrable(su.filter.config)
    ensures var c := Run(su, INITIAL, actions).core;
      Coverage.NoDetection(c) && LastRegistered(actions) != [] ==>
        forall service :: service in c.matchedBuses ==>
          service in c.sent && Registers(su.filter.config, c.sent[service], LastRegistered(actions))
  {
    MessageRegisters(su.filter.config, LastRegistered(actions));
    SettingsAreTheLast(su, actions);
    Coverage.ResponderCoverage(su, actions);
    hide Run, LastRegistered, Registers, Coverage.NoDetection, ResponderMessage, Decode;
  }

  // ---- Who is sent what, and who is asked ----

  /** A detection ends: without services, with none to scan, or with its last bus. */
  predicate Finishes(c: Core, a: Action) {
    match a
    case ServicesReply(id, services, r) =>
      && id in c.jobs && c.jobs[id].AwaitServices?
      && (services.Some? ==> forall s :: s in services.value ==> s !in r.busIds)
    case OwnerReply(id, _, r) =>
      && id in c.jobs && c.jobs[id].AwaitOwner? && c.jobs[id].buses == []
      && forall s :: s in c.jobs[id].rest ==> s !in r.busIds
    case ObjectsReply(id, _, _) => id in c.jobs && c.jobs[id].AwaitObjects? && |c.jobs[id].buses| == 1
    case _ => false
  }

  /** The reply that ends a detection which replaces the map is one of these, and the services were got. */
  lemma EndsDetectionMeaning(su: Setup, c: Core, a: Action, id: nat)
    ensures Provenance.EndsDetection(su, c, a, id) <==>
      && (a.ServicesReply? || a.OwnerReply? || a.ObjectsReply?) && a.job == id && Finishes(c, a)
      && (a.ServicesReply? ==> a.services.Some?)
  {
    hide ReplyEids, FirstUsable;
    match a
    case ServicesReply(_, services, r) => Matching.NoneUsable(if services.Some? then services.value else [], r.busIds);
    case OwnerReply(id, _, r) =>
      if id in c.jobs && c.jobs[id].AwaitOwner? {
        Matching.NoneUsable(c.jobs[id].rest, r.busIds);
      }
    case _ =>
  }

  /** s announces the binding interface on the base object. */
  predicate AnnouncesItself(su: Setup, c: Core, a: Action, s: string) {
    a.Event? && Matching.Joins(su, c, a, s)
  }

  /** The replies an action comes with. */
  function RepliesOf(a: Action): Replies {
    match a
    case Event(_, r) => r
    case ServicesReply(_, _, r) => r
    case OwnerReply(_, _, r) => r
    case ObjectsReply(_, _, r) => r
    case BeginAddToEidMap(_, r) => r
    case CallGetOwnEIDs(_, r) => r
    case _ => Replies(map[], map[], map[], {})
  }

  /** The reads of the given services, with what the callback is told. */
  function ReadsOf(services: set<string>, installation: nat, r: Replies): multiset<OwnRead> {
    multiset(set s | s in services :: OwnRead(s, installation, if s in r.ownEids then Some(r.ownEids[s]) else None))
  }

  /** These services were told the versions, those were asked for their EID, under a new installation or not. */
  ghost predicate Served(su: Setup, c: Core, n: Core, told: set<string>, asked: set<string>, again: bool, r: Replies) {
    && (forall s :: Lookup(n.sent, s)
          == if s in told && n.responderVersions != [] && CanRegister(su.filter.config)
             then Some(ResponderMessage(su.filter.config, n.responderVersions)) else Lookup(c.sent, s))
    && n.installations == c.installations + (if again && n.eidChange.Some? then 1 else 0)
    && n.ownReads == c.ownReads + (if n.eidChange.Some? then ReadsOf(asked, n.installations, r) else multiset{})
  }

  lemma SendEffect(su: Setup, c: Core, services: set<string>, s: string)
    ensures Lookup(SendVersions(su, c, services).sent, s)
      == if s in services && c.responderVersions != [] && CanRegister(su.filter.config)
         then Some(ResponderMessage(su.filter.config, c.responderVersions)) else Lookup(c.sent, s)
  {
    hide ResponderMessage;
  }

  lemma ReadEffect(c: Core, services: set<string>, r: Replies)
    ensures ReadOwnEids(c, services, r).ownReads
      == c.ownReads + (if c.eidChange.Some? then ReadsOf(services, c.installations, r) else multiset{})
  {
    assert OwnReadsOf(c, services, r) == ReadsOf(services, c.installations, r) by {
      assert (set s | s in services :: OwnRead(s, c.installations, Lookup(r.ownEids, s)))
        == set s | s in services :: OwnRead(s, c.installations, if s in r.ownEids then Some(r.ownEids[s]) else None);
    }
    hide OwnReadsOf, ReadsOf;
    assert c.ownReads + multiset{} == c.ownReads;
  }

  lemma ReadsOfNone(installation: nat, r: Replies)
    ensures ReadsOf({}, installation, r) == multiset{}
  {
  }

  lemma NotServed(su: Setup, c: Core, n: Core, r: Replies)
    requires n.sent == c.sent && n.ownReads == c.ownReads && n.installations == c.installations
    ensures Served(su, c, n, {}, {}, false, r)
  {
    ReadsOfNone(n.installations, r);
    assert c.ownReads + multiset{} == c.ownReads;
    hide ReadsOf, ResponderMessage;
  }

  lemma NewServiceServed(su: Setup, c: Core, service: string, r: Replies)
    ensures Served(su, c, NewService(su, c, service, r), {service}, {service}, false, r)
  {
    var c1 := c.(matchedBuses := c.matchedBuses + {service});
    forall s {
      SendEffect(su, c1, {service}, s);
    }
    ReadEffect(SendVersions(su, c1, {service}), {service}, r);
    hide SendVersions, ReadOwnEids, ReadsOf, ResponderMessage;
  }

  lemma RegisterServed(su: Setup, c: Core, versions: seq<VersionFields>)
    ensures Served(su, c, RegisterVersions(su, c, versions), if versions == [] then {} else c.matchedBuses, {}, false,
                   Replies(map[], map[], map[], {}))
  {
    if versions == [] {
      NotServed(su, c, c, Replies(map[], map[], map[], {}));
    } else {
      forall s {
        SendEffect(su, c.(responderVersions := versions), c.matchedBuses, s);
      }
      ReadsOfNone(c.installations, Replies(map[], map[], map[], {}));
      assert c.ownReads + multiset{} == c.ownReads;
      hide SendVersions, ReadsOf, ResponderMessage;
    }
  }

  lemma InstallServed(su: Setup, c: Core, callback: Option<Callback>, r: Replies)
    ensures callback.Some? ==> Served(su, c, InstallOwnEid(c, callback, r), {}, c.matchedBuses, true, r)
    ensures callback.None? ==> InstallOwnEid(c, callback, r) == c
  {
    hide ReadOwnEids, ReadsOf, ResponderMessage, Served;
    if callback.Some? {
      var c1 := c.(eidChange := callback, installations := c.installations + 1);
      ReadEffect(c1, c.matchedBuses, r);
      OnlyAsked(su, c, ReadOwnEids(c1, c.matchedBuses, r), c.matchedBuses, r);
    }
  }

  lemma OnlyAsked(su: Setup, c: Core, n: Core, asked: set<string>, r: Replies)
    requires n.sent == c.sent && n.eidChange.Some? && n.installations == c.installations + 1
    requires n.ownReads == c.ownReads + ReadsOf(asked, n.installations, r)
    ensures Served(su, c, n, {}, asked, true, r)
  {
    hide ReadsOf, ResponderMessage;
  }

  lemma CompleteServed(su: Setup, c: Core, id: nat, r: Replies)
    ensures Served(su, c, Complete(su, c, id, r), c.matchedBuses, c.matchedBuses, true, r)
  {
    var c1 := c.(jobs := c.jobs - {id}, initialised := true);
    var c2 := RegisterVersions(su, c1, c1.responderVersions);
    RegisterServed(su, c1, c1.responderVersions);
    InstallServed(su, c2, c2.eidChange, r);
    assert c2.responderVersions == c1.responderVersions by { hide SendVersions; }
    hide RegisterVersions, InstallOwnEid, ReadsOf, ResponderMessage;
    assert c.ownReads + multiset{} == c.ownReads;
  }

  /** Whom an action sends the versions: a service that announces itself, all after a detection or a registration. */
  ghost function ToldBy(su: Setup, c: Core, n: Core, a: Action): set<string> {
    set s | s in n.matchedBuses
      && (AnnouncesItself(su, c, a, s) || Finishes(c, a) || (a.CallRegisterResponder? && a.versions != []))
  }

  /** Whom an action asks for an EID: a service that announces itself, and all after a detection or an installation. */
  ghost function AskedBy(su: Setup, c: Core, n: Core, a: Action): set<string> {
    set s | s in n.matchedBuses
      && (AnnouncesItself(su, c, a, s) || Finishes(c, a) || (a.CallGetOwnEIDs? && a.callback.Some?))
  }

  predicate Reinstalls(c: Core, a: Action) {
    Finishes(c, a) || (a.CallGetOwnEIDs? && a.callback.Some?)
  }

  lemma EventServed(su: Setup, c: Core, a: Action)
    requires a.Event?
    ensures var n := EventCore(su, c, a.signal, a.replies);
      Served(su, c, n, ToldBy(su, c, n, a), AskedBy(su, c, n, a), false, a.replies)
  {
    var n := EventCore(su, c, a.signal, a.replies);
    var s := a.signal.sender;
    if AnnouncesItself(su, c, a, s) {
      Handlers.BaseIsNoEndpoint(a.signal.body.path);
      assert n == NewService(su, c, s, a.replies) by { hide SupportFlag, BindingInterface, PathName.Text, NewService; }
      NewServiceServed(su, c, s, a.replies);
      hide EventCore, NewService, Served, Paths.IsBase;
      Matching.StepMatching(su, c, a, s);
      assert ToldBy(su, c, n, a) == {s} == AskedBy(su, c, n, a);
    } else {
      SilentEvent(su, c, a);
      NotServed(su, c, n, a.replies);
      hide EventCore, Served;
      assert ToldBy(su, c, n, a) == {} == AskedBy(su, c, n, a);
    }
  }

  lemma SilentEvent(su: Setup, c: Core, a: Action)
    requires a.Event? && !AnnouncesItself(su, c, a, a.signal.sender)
    ensures var n := EventCore(su, c, a.signal, a.replies);
      n.sent == c.sent && n.ownReads == c.ownReads && n.installations == c.installations
  {
    hide EndpointPath, Delivers, Paths.HasDeviceSlash, NewService, BindingInterface, PathName.Text;
  }

  lemma ResolveServed(su: Setup, c: Core, id: nat, services: seq<string>, buses: seq<Entry>, resolved: set<string>,
                      r: Replies)
    ensures var n := Resolve(su, c, id, services, buses, resolved, r);
      if buses == [] && FirstUsable(services, r.busIds) == |services|
      then Served(su, c, n, c.matchedBuses, c.matchedBuses, true, r) && n.matchedBuses == c.matchedBuses
      else Served(su, c, n, {}, {}, false, r)
  {
    var n := Resolve(su, c, id, services, buses, resolved, r);
    if buses == [] && FirstUsable(services, r.busIds) == |services| {
      CompleteServed(su, c, id, r);
      hide Complete, Served;
    } else {
      NotServed(su, c, n, r);
      hide Complete, Served;
    }
  }

  /** What is served does not depend on the other fields. */
  lemma ServedFrame(su: Setup, c: Core, c': Core, n: Core, told: set<string>, asked: set<string>, again: bool,
                    r: Replies)
    requires Served(su, c', n, told, asked, again, r)
    requires c'.sent == c.sent && c'.ownReads == c.ownReads && c'.installations == c.installations
    ensures Served(su, c, n, told, asked, again, r)
  {
    hide ReadsOf, ResponderMessage;
  }

  lemma ResumeServed(su: Setup, c: Core, a: Action, job: Job)
    requires Resumed(c, a) == Some(job)
    ensures var n := ResumeCore(su, c, a, job);
      if Finishes(c, a) then Served(su, c, n, n.matchedBuses, n.matchedBuses, true, a.replies)
      else Served(su, c, n, {}, {}, false, a.replies)
  {
    hide Served, Complete, Resolve, ReplyEids, CacheAfter;
    match a
    case ServicesReply(id, services, r) =>
      if services.None? {
        CompleteServed(su, c, id, r);
        CompleteMatched(su, c, id, r);
      } else {
        ResolveServed(su, c, id, services.value, [], {}, r);
        Matching.NoneUsable(services.value, r.busIds);
      }
    case OwnerReply(id, owner, r) =>
      var name := OwnerName(job.service, owner);
      var c1 := c.(matchedBuses := c.matchedBuses + {name});
      ResolveServed(su, c1, id, job.rest, job.buses, job.resolved + {name}, r);
      Matching.NoneUsable(job.rest, r.busIds);
      var n := ResumeCore(su, c, a, job);
      if Finishes(c, a) {
        ServedFrame(su, c, c1, n, n.matchedBuses, n.matchedBuses, true, r);
      } else {
        ServedFrame(su, c, c1, n, {}, {}, false, r);
      }
    case ObjectsReply(id, objects, r) =>
      var c1 := if objects.None? then c else Remember(c, RepliedBus(job).service, r);
      var n := ResumeCore(su, c, a, job);
      if Finishes(c, a) {
        CompleteServed(su, c1, id, r);
        CompleteMatched(su, c1, id, r);
        ServedFrame(su, c, c1, n, n.matchedBuses, n.matchedBuses, true, r);
      } else {
        NotServed(su, c, n, r);
      }
  }

  lemma CompleteMatched(su: Setup, c: Core, id: nat, r: Replies)
    ensures Complete(su, c, id, r).matchedBuses == c.matchedBuses
  {
    hide RegisterVersions, InstallOwnEid;
  }

  /**
   Exactly who is served by an action: the versions stored after it are sent to the services it tells and to no other,
   one read is made of each service it asks, and of no other, with the callback set after it being told what was read.
   */
  lemma StepServed(su: Setup, c: Core, a: Action)
    ensures var n := CoreStep(su, c, a);
      Served(su, c, n, ToldBy(su, c, n, a), AskedBy(su, c, n, a), Reinstalls(c, a), RepliesOf(a))
  {
    var n := CoreStep(su, c, a);
    hide Served, EventCore, ResumeCore, RegisterVersions, InstallOwnEid;
    if a.Event? {
      EventServed(su, c, a);
    } else if Resumed(c, a).Some? {
      ResumeServed(su, c, a, Resumed(c, a).value);
      assert Finishes(c, a) ==> ToldBy(su, c, n, a) == n.matchedBuses == AskedBy(su, c, n, a);
      assert !Finishes(c, a) ==> ToldBy(su, c, n, a) == {} == AskedBy(su, c, n, a);
    } else if a.CallRegisterResponder? {
      RegisterServed(su, c, a.versions);
      assert RegisterVersions(su, c, a.versions).matchedBuses == c.matchedBuses;
      assert ToldBy(su, c, n, a) == if a.versions == [] then {} else c.matchedBuses;
      assert AskedBy(su, c, n, a) == {};
    } else if a.CallGetOwnEIDs? {
      InstallServed(su, c, a.callback, a.replies);
      NotServed(su, c, c, a.replies);
      assert ToldBy(su, c, n, a) == {};
      assert AskedBy(su, c, n, a) == if a.callback.None? then {} else c.matchedBuses;
    } else {
      NotServed(su, c, n, RepliesOf(a));
      assert ToldBy(su, c, n, a) == {} == AskedBy(su, c, n, a);
    }
  }
}

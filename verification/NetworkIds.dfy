/** The network-id cache over calls and over runs. */
module NetworkIds {
  import opened Wrappers
  import opened DeviceIds
  import opened Dbus
  import opened Scan
  import opened Tracker
  import Paths

  // ---- Sequences of calls ----

  /** A call of getNetworkID with what reading the property yields, if it comes to that. */
  datatype Call = Call(service: string, reading: Option<byte>)

  function CallReadings(call: Call): map<string, byte> {
    if call.reading.Some? then map[call.service := call.reading.value] else map[]
  }

  function CacheAfterCalls(cache: Cache, calls: seq<Call>): Cache {
    if calls == [] then cache
    else
      var last := calls[|calls| - 1];
      CacheAfter(CacheAfterCalls(cache, calls[..|calls| - 1]), last.service, CallReadings(last))
  }

  /** The result of the i-th call. */
  function ResultAt(cache: Cache, calls: seq<Call>, i: nat): byte
    requires i < |calls|
  {
    NetworkIdOf(CacheAfterCalls(cache, calls[..i]), calls[i].service)
  }

  /** Call j is the first one for this service whose read succeeds. */
  ghost predicate FirstReading(calls: seq<Call>, service: string, j: nat) {
    && j < |calls| && calls[j].service == service && calls[j].reading.Some?
    && forall k :: 0 <= k < j && calls[k].service == service ==> calls[k].reading.None?
  }

  lemma {:induction false} CacheOfCalls(calls: seq<Call>, cache: Cache, service: string)
    ensures service in cache ==>
      service in CacheAfterCalls(cache, calls) && CacheAfterCalls(cache, calls)[service] == cache[service]
    ensures service !in cache ==>
      forall j: nat | FirstReading(calls, service, j) ::
        service in CacheAfterCalls(cache, calls) && CacheAfterCalls(cache, calls)[service] == calls[j].reading.value
    ensures service !in cache && service in CacheAfterCalls(cache, calls) ==>
      exists j: nat :: FirstReading(calls, service, j)
  {
    if calls != [] {
      var n := |calls| - 1;
      var front := calls[..n];
      CacheOfCalls(front, cache, service);
      forall j: nat | j < n
        ensures FirstReading(calls, service, j) <==> FirstReading(front, service, j)
      {
      }
      if service !in CacheAfterCalls(cache, front) && service in CacheAfterCalls(cache, calls) {
        FirstReadingExists(front, service);
        assert FirstReading(calls, service, n);
      }
    }
  }

  /** Either some read for the service succeeded, and then there is a first one, or none did. */
  lemma {:induction false} FirstReadingExists(calls: seq<Call>, service: string)
    ensures (exists j: nat :: FirstReading(calls, service, j))
      || forall k :: 0 <= k < |calls| && calls[k].service == service ==> calls[k].reading.None?
  {
    if calls != [] {
      var n := |calls| - 1;
      var front := calls[..n];
      FirstReadingExists(front, service);
      if j: nat :| FirstReading(front, service, j) {
        assert FirstReading(calls, service, j);
      } else if calls[n].service == service && calls[n].reading.Some? {
        assert FirstReading(calls, service, n);
      }
    }
  }

  /**
   The results for a service that is not cached are 0 up to and including the call whose read first
   succeeds, and the value read there ever after; a cached service keeps its value.
   */
  lemma ResultsOfCalls(cache: Cache, calls: seq<Call>, i: nat)
    requires i < |calls|
    ensures calls[i].service in cache ==> ResultAt(cache, calls, i) == cache[calls[i].service]
    ensures calls[i].service !in cache ==>
      forall j: nat | FirstReading(calls, calls[i].service, j) ::
        ResultAt(cache, calls, i) == if i <= j then 0 else calls[j].reading.value
    ensures calls[i].service !in cache && (forall j: nat :: !FirstReading(calls, calls[i].service, j)) ==>
      ResultAt(cache, calls, i) == 0
  {
    var s := calls[i].service;
    var before := calls[..i];
    CacheOfCalls(before, cache, s);
    forall j: nat | j < i
      ensures FirstReading(before, s, j) <==> FirstReading(calls, s, j)
    {
    }
  }

  // ---- Runs ----

  /** Cached network ids stay as they are. */
  predicate Extends(before: Cache, after: Cache) {
    forall s :: s in before ==> s in after && after[s] == before[s]
  }

  /** A new cache entry is what was read for it. */
  predicate Learns(before: Cache, after: Cache, readings: map<string, byte>) {
    forall s :: s in after ==> (s in before && after[s] == before[s]) || (s in readings && after[s] == readings[s])
  }

  /** The NetworkID readings offered to an action. */
  function Readings(a: Action): map<string, byte> {
    match a
    case Event(_, r) => r.networkIds
    case ObjectsReply(_, _, r) => r.networkIds
    case _ => map[]
  }

  lemma RememberEffect(c: Core, service: string, r: Replies)
    ensures Extends(c.networkIDCache, Remember(c, service, r).networkIDCache)
    ensures Learns(c.networkIDCache, Remember(c, service, r).networkIDCache, r.networkIds)
  {
  }

  lemma EventCache(su: Setup, c: Core, signal: Signal, r: Replies)
    ensures EventCore(su, c, signal, r).networkIDCache == c.networkIDCache
      || EventCore(su, c, signal, r).networkIDCache == Remember(c, signal.sender, r).networkIDCache
  {
    hide EndpointPath, NewService, Delivers, Paths.HasDeviceSlash, Paths.IsBase;
  }

  lemma ResumeCache(su: Setup, c: Core, a: Action, job: Job)
    requires Resumed(c, a) == Some(job)
    ensures ResumeCore(su, c, a, job).networkIDCache == c.networkIDCache
      || (a.ObjectsReply? && ResumeCore(su, c, a, job).networkIDCache
                             == Remember(c, RepliedBus(job).service, a.replies).networkIDCache)
  {
    hide Resolve, Complete, ReplyEids;
  }

  /** No step changes or drops a cache entry, and a new one is what was read. */
  lemma CacheEffect(su: Setup, c: Core, a: Action)
    ensures Extends(c.networkIDCache, CoreStep(su, c, a).networkIDCache)
    ensures Learns(c.networkIDCache, CoreStep(su, c, a).networkIDCache, Readings(a))
  {
    hide EventCore, ResumeCore, RegisterVersions, InstallOwnEid, Remember;
    if a.Event? {
      EventCache(su, c, a.signal, a.replies);
      RememberEffect(c, a.signal.sender, a.replies);
    } else if Resumed(c, a).Some? {
      var job := Resumed(c, a).value;
      ResumeCache(su, c, a, job);
      if a.ObjectsReply? {
        RememberEffect(c, RepliedBus(job).service, a.replies);
      }
    }
  }

  /** Once known, a network id is the same at every later point of every run. */
  lemma {:induction false} CacheOfRun(su: Setup, m: Machine, actions: seq<Action>, i: nat)
    requires i <= |actions|
    ensures Extends(At(su, m, actions, i).core.networkIDCache, Run(su, m, actions).core.networkIDCache)
  {
    hide CoreStep, MapStep, PendingStep, LogStep;
    if i == |actions| {
      assert actions[..i] == actions;
    } else {
      var n := |actions| - 1;
      assert actions[..n][..i] == actions[..i];
      CacheOfRun(su, m, actions[..n], i);
      CacheEffect(su, Run(su, m, actions[..n]).core, actions[n]);
    }
  }

  // ---- The calls a run makes ----

  /** The call of getNetworkID an action makes, if it makes one; no action makes two. */
  function CallOf(su: Setup, c: Core, a: Action): Option<Call> {
    match a
    case Event(signal, r) =>
      var path := EndpointPath(su, c, signal);
      if (path.Some? && Paths.HasDeviceSlash(path.value)) || (Delivers(su, c, signal) && c.extReceive.Some?)
      then Some(Call(signal.sender, Lookup(r.networkIds, signal.sender))) else None
    case ObjectsReply(_, objects, r) =>
      var job := Resumed(c, a);
      if job.Some? && objects.Some?
      then Some(Call(RepliedBus(job.value).service, Lookup(r.networkIds, RepliedBus(job.value).service))) else None
    case _ => None
  }

  function CallsOf(su: Setup, m: Machine, actions: seq<Action>): seq<Call> {
    if actions == [] then []
    else
      var front := actions[..|actions| - 1];
      var call := CallOf(su, Run(su, m, front).core, actions[|actions| - 1]);
      CallsOf(su, m, front) + if call.Some? then [call.value] else []
  }

  lemma CacheAfterOwnReading(cache: Cache, service: string, readings: map<string, byte>)
    ensures CacheAfter(cache, service, CallReadings(Call(service, Lookup(readings, service))))
      == CacheAfter(cache, service, readings)
  {
  }

  lemma EventCall(su: Setup, c: Core, signal: Signal, r: Replies)
    ensures EventCore(su, c, signal, r).networkIDCache ==
      if CallOf(su, c, Event(signal, r)).Some? then Remember(c, signal.sender, r).networkIDCache else c.networkIDCache
  {
    if EndpointPath(su, c, signal).Some? {
      assert !signal.body.MessageReceivedSignal?;
    }
    hide EndpointPath, NewService, Delivers, Paths.HasDeviceSlash, Paths.IsBase, CacheAfter;
    assert Delivers(su, c, signal) ==> c.initialised && signal.body.MessageReceivedSignal? by {
      DeliveredIsMessage(su, c, signal);
    }
  }

  lemma DeliveredIsMessage(su: Setup, c: Core, signal: Signal)
    ensures Delivers(su, c, signal) ==> c.initialised && signal.body.MessageReceivedSignal?
  {
  }

  lemma ReplyCall(su: Setup, c: Core, a: Action, job: Job)
    requires Resumed(c, a) == Some(job)
    ensures ResumeCore(su, c, a, job).networkIDCache ==
      if a.ObjectsReply? && a.objects.Some? then Remember(c, RepliedBus(job).service, a.replies).networkIDCache
      else c.networkIDCache
  {
    hide Resolve, Complete, ReplyEids, CacheAfter;
  }

  /** An action changes the cache by the call it makes, and not otherwise. */
  lemma StepCall(su: Setup, c: Core, a: Action)
    ensures var call := CallOf(su, c, a);
      CoreStep(su, c, a).networkIDCache ==
      if call.Some? then CacheAfter(c.networkIDCache, call.value.service, CallReadings(call.value))
      else c.networkIDCache
  {
    hide EventCore, ResumeCore, RegisterVersions, InstallOwnEid, EndpointPath, Delivers, CacheAfter, CallReadings;
    if a.Event? {
      EventCall(su, c, a.signal, a.replies);
      CacheAfterOwnReading(c.networkIDCache, a.signal.sender, a.replies.networkIds);
    } else if Resumed(c, a).Some? {
      var job := Resumed(c, a).value;
      ReplyCall(su, c, a, job);
      if a.ObjectsReply? {
        CacheAfterOwnReading(c.networkIDCache, RepliedBus(job).service, a.replies.networkIds);
      }
    }
  }

  /** The cache of a run is that of the calls the run makes. */
  lemma {:induction false} CacheIsThatOfCalls(su: Setup, m: Machine, actions: seq<Action>)
    ensures Run(su, m, actions).core.networkIDCache == CacheAfterCalls(m.core.networkIDCache, CallsOf(su, m, actions))
  {
    hide CoreStep, MapStep, PendingStep, LogStep, CallOf, CacheAfter;
    if actions != [] {
      var front, a := actions[..|actions| - 1], actions[|actions| - 1];
      CacheIsThatOfCalls(su, m, front);
      StepCall(su, Run(su, m, front).core, a);
      var before := CallsOf(su, m, front);
      var call := CallOf(su, Run(su, m, front).core, a);
      if call.Some? {
        assert (before + [call.value])[..|before|] == before;
      } else {
        assert before + [] == before;
      }
    }
  }

  /** The calls made before an action come first, and its own call comes next. */
  lemma {:induction false} CallsUpTo(su: Setup, m: Machine, actions: seq<Action>, i: nat)
    requires i < |actions| && CallOf(su, At(su, m, actions, i).core, actions[i]).Some?
    ensures var before, calls := CallsOf(su, m, actions[..i]), CallsOf(su, m, actions);
      && |before| < |calls| && calls[..|before|] == before
      && calls[|before|] == CallOf(su, At(su, m, actions, i).core, actions[i]).value
  {
    hide Step, CallOf;
    var n := |actions| - 1;
    if i < n {
      assert actions[..n][..i] == actions[..i];
      CallsUpTo(su, m, actions[..n], i);
    }
  }

  /**
   The network ids a run uses. What getNetworkID answers at action i is the cached value for a service
   cached at the start; for any other service it is 0 up to and including the first successful read among
   the calls of the run, and the value read there ever after.
   */
  lemma ResultsOfRun(su: Setup, m: Machine, actions: seq<Action>, i: nat)
    requires i < |actions| && CallOf(su, At(su, m, actions, i).core, actions[i]).Some?
    ensures var s := CallOf(su, At(su, m, actions, i).core, actions[i]).value.service;
      var result := NetworkIdOf(At(su, m, actions, i).core.networkIDCache, s);
      var calls, k := CallsOf(su, m, actions), |CallsOf(su, m, actions[..i])|;
      && k < |calls| && calls[k].service == s
      && (s in m.core.networkIDCache ==> result == m.core.networkIDCache[s])
      && (s !in m.core.networkIDCache ==>
            forall j: nat | FirstReading(calls, s, j) :: result == if k <= j then 0 else calls[j].reading.value)
      && (s !in m.core.networkIDCache && (forall j: nat :: !FirstReading(calls, s, j)) ==> result == 0)
  {
    hide Run, CallOf;
    CallsUpTo(su, m, actions, i);
    CacheIsThatOfCalls(su, m, actions[..i]);
    hide CallsOf;
    ResultsOfCalls(m.core.networkIDCache, CallsOf(su, m, actions), |CallsOf(su, m, actions[..i])|);
  }
}

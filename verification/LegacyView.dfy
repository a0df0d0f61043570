/**
 getEndpointMap's view of the endpoints by EID alone. One static map serves every wrapper of the
 process; each call adds what the wrapper's own map has and the view lacks.
 */
module LegacyView {
  import opened Wrappers
  import opened DeviceIds
  import opened Scan
  import opened Tracker

  type View = map<byte, Entry>

  function EidsOf(extended: EndpointMap): set<byte> {
    set d | d in extended :: d.MctpEID()
  }

  /** One call: entries stay, the missing EIDs join, each with the entry of some device of that EID. */
  ghost predicate Merged(before: View, extended: EndpointMap, after: View) {
    && after.Keys == before.Keys + EidsOf(extended)
    && (forall e :: e in before ==> after[e] == before[e])
    && (forall e :: e in after && e !in before ==>
          exists d :: d in extended && d.MctpEID() == e && extended[d] == after[e])
  }

  class SharedView {
    var localEidMap: View

    constructor ()
      ensures localEidMap == map[]
    {
      localEidMap := map[];
    }

    /** The order in which an unordered_map is walked is not fixed, so the winner among equal EIDs is open. */
    method GetEndpointMap(extendedMap: EndpointMap) returns (view: View)
      modifies this
      ensures view == localEidMap
      ensures Merged(old(localEidMap), extendedMap, localEidMap)
    {
      var rest := extendedMap.Keys;
      while rest != {}
        invariant rest <= extendedMap.Keys
        invariant localEidMap.Keys == old(localEidMap).Keys + set d | d in extendedMap && d !in rest :: d.MctpEID()
        invariant forall e :: e in old(localEidMap) ==> localEidMap[e] == old(localEidMap)[e]
        invariant forall e :: e in localEidMap && e !in old(localEidMap) ==>
          exists d :: d in extendedMap && d.MctpEID() == e && extendedMap[d] == localEidMap[e]
        decreases rest
      {
        var deviceId :| deviceId in rest;
        if deviceId.MctpEID() !in localEidMap {
          localEidMap := localEidMap[deviceId.MctpEID() := extendedMap[deviceId]];
        }
        rest := rest - {deviceId};
      }
      view := localEidMap;
    }
  }

  // ---- Any number of calls ----

  /** views[i + 1] results from views[i] by a call with extended map calls[i], of whichever wrapper. */
  ghost predicate Calls(views: seq<View>, calls: seq<EndpointMap>) {
    |views| == |calls| + 1 && forall i :: 0 <= i < |calls| ==> Merged(views[i], calls[i], views[i + 1])
  }

  /** Entries are never removed or changed by later calls. */
  lemma {:induction false} EntriesStay(views: seq<View>, calls: seq<EndpointMap>, i: nat, j: nat, e: byte)
    requires Calls(views, calls) && i <= j < |views| && e in views[i]
    ensures e in views[j] && views[j][e] == views[i][e]
  {
    if i < j {
      EntriesStay(views, calls, i, j - 1, e);
      assert Merged(views[j - 1], calls[j - 1], views[j]);
    }
  }

  /** The keys are those of the start and all EIDs of the extended maps seen at the calls, and no others. */
  lemma {:induction false} KeysAreAllSeen(views: seq<View>, calls: seq<EndpointMap>, j: nat, e: byte)
    requires Calls(views, calls) && j < |views|
    ensures e in views[j] <==> e in views[0] || exists i :: 0 <= i < j && e in EidsOf(calls[i])
  {
    if j > 0 {
      KeysAreAllSeen(views, calls, j - 1, e);
      assert Merged(views[j - 1], calls[j - 1], views[j]);
    }
  }

  // ---- Network 0 ----

  predicate OnNetworkZero(extended: EndpointMap) {
    forall d :: d in extended ==> d == MakeDeviceID(d.MctpEID(), 0)
  }

  /** The view agrees with looking EIDs up as the EID overloads do, by DeviceID(eid, 0). */
  ghost predicate AgreesWith(view: View, extended: EndpointMap) {
    forall e: byte :: Lookup(view, e) == Lookup(extended, MakeDeviceID(e, 0))
  }

  /** The prior view has no entry that the extended map lacks or contradicts. */
  ghost predicate NothingStale(view: View, extended: EndpointMap) {
    forall e :: e in view ==> MakeDeviceID(e, 0) in extended && extended[MakeDeviceID(e, 0)] == view[e]
  }

  /**
   With all devices on network 0, a call's result agrees with the extended map exactly when the view
   held nothing stale before the call: a removed or moved endpoint stays in the view.
   */
  lemma ViewAgreesIffNothingStale(before: View, extended: EndpointMap, after: View)
    requires Merged(before, extended, after) && OnNetworkZero(extended)
    ensures AgreesWith(after, extended) <==> NothingStale(before, extended)
  {
    if NothingStale(before, extended) {
      forall e: byte
        ensures Lookup(after, e) == Lookup(extended, MakeDeviceID(e, 0))
      {
        PackRoundTrip(e, 0);
        if e in after && e !in before {
          var d :| d in extended && d.MctpEID() == e && extended[d] == after[e];
        }
        if MakeDeviceID(e, 0) in extended {
          assert e in EidsOf(extended);
        }
      }
    }
    if AgreesWith(after, extended) {
      forall e | e in before
        ensures MakeDeviceID(e, 0) in extended && extended[MakeDeviceID(e, 0)] == before[e]
      {
        assert Lookup(after, e) == Some(before[e]);
      }
    }
  }

  // ---- Any networks ----

  /** Devices of one EID are all there under network 0 too, and a new EID has only one entry to choose from. */
  ghost predicate ZeroSpeaksForAll(before: View, extended: EndpointMap) {
    forall d :: d in extended ==>
      && MakeDeviceID(d.MctpEID(), 0) in extended
      && (d.MctpEID() !in before ==> extended[d] == extended[MakeDeviceID(d.MctpEID(), 0)])
  }

  /** A view that a call may produce, in which the device d lends its entry to its EID if that is new. */
  ghost function PossibleView(before: View, extended: EndpointMap, d: DeviceID): (after: View)
    requires d in extended
    ensures Merged(before, extended, after)
    ensures d.MctpEID() !in before ==> after[d.MctpEID()] == extended[d]
  {
    map e | e in before.Keys + EidsOf(extended) ::
      if e in before then before[e]
      else if e == d.MctpEID() then extended[d]
      else extended[SomeDevice(extended, e)]
  }

  ghost function SomeDevice(extended: EndpointMap, e: byte): (d: DeviceID)
    requires e in EidsOf(extended)
    ensures d in extended && d.MctpEID() == e
  {
    var d :| d in extended && d.MctpEID() == e;
    d
  }

  /**
   When every call agrees with the EID overloads: whatever order the extended map is walked in, the view
   and the lookups by DeviceID(eid, 0) agree after a call if and only if the view held nothing stale
   before it and network 0 speaks for all devices. An EID known on another network only is in the view
   while the overloads miss it.
   */
  lemma EveryViewAgreesIff(before: View, extended: EndpointMap)
    ensures (forall after :: Merged(before, extended, after) ==> AgreesWith(after, extended))
      <==> NothingStale(before, extended) && ZeroSpeaksForAll(before, extended)
  {
    if NothingStale(before, extended) && ZeroSpeaksForAll(before, extended) {
      forall after | Merged(before, extended, after)
        ensures AgreesWith(after, extended)
      {
        SoundViewAgrees(before, extended, after);
      }
    }
    if forall after :: Merged(before, extended, after) ==> AgreesWith(after, extended) {
      PlainViewIsPossible(before, extended);
      forall d | d in extended
        ensures MakeDeviceID(d.MctpEID(), 0) in extended
        ensures d.MctpEID() !in before ==> extended[d] == extended[MakeDeviceID(d.MctpEID(), 0)]
      {
        var after := PossibleView(before, extended, d);
        assert AgreesWith(after, extended);
        assert Lookup(after, d.MctpEID()) == Lookup(extended, MakeDeviceID(d.MctpEID(), 0));
      }
    }
  }

  lemma SoundViewAgrees(before: View, extended: EndpointMap, after: View)
    requires Merged(before, extended, after)
    requires NothingStale(before, extended) && ZeroSpeaksForAll(before, extended)
    ensures AgreesWith(after, extended)
  {
    forall e: byte
      ensures Lookup(after, e) == Lookup(extended, MakeDeviceID(e, 0))
    {
      PackRoundTrip(e, 0);
      if e in after && e !in before {
        var d :| d in extended && d.MctpEID() == e && extended[d] == after[e];
      }
      if MakeDeviceID(e, 0) in extended {
        assert e in EidsOf(extended);
      }
    }
  }

  /** If all possible views agree, nothing is stale. */
  lemma PlainViewIsPossible(before: View, extended: EndpointMap)
    requires forall after :: Merged(before, extended, after) ==> AgreesWith(after, extended)
    ensures NothingStale(before, extended)
  {
    var after := if extended == map[] then before else PossibleView(before, extended, AnyKey(extended));
    assert Merged(before, extended, after);
    forall e | e in before
      ensures MakeDeviceID(e, 0) in extended && extended[MakeDeviceID(e, 0)] == before[e]
    {
      assert Lookup(after, e) == Lookup(extended, MakeDeviceID(e, 0));
    }
  }

  ghost function AnyKey(extended: EndpointMap): (d: DeviceID)
    requires extended != map[]
    ensures d in extended
  {
    assert extended.Keys != {};
    var d :| d in extended.Keys;
    d
  }

  /** No removals and no reassignments between the calls. */
  ghost predicate Growing(calls: seq<EndpointMap>) {
    forall i :: 0 < i < |calls| ==>
      forall d :: d in calls[i - 1] ==> d in calls[i] && calls[i][d] == calls[i - 1][d]
  }

  /**
   The legacy view is right under its own assumptions: starting empty, with one wrapper whose devices
   are all on network 0 and whose map only grows, it equals the extended map re-keyed at every call.
   */
  lemma {:induction false} ViewOfGrowingMap(views: seq<View>, calls: seq<EndpointMap>, j: nat)
    requires Calls(views, calls) && views[0] == map[] && Growing(calls) && j < |calls|
    requires forall i :: 0 <= i < |calls| ==> OnNetworkZero(calls[i])
    ensures AgreesWith(views[j + 1], calls[j])
  {
    assert Merged(views[j], calls[j], views[j + 1]);
    if j > 0 {
      ViewOfGrowingMap(views, calls, j - 1);
      forall e | e in views[j]
        ensures MakeDeviceID(e, 0) in calls[j] && calls[j][MakeDeviceID(e, 0)] == views[j][e]
      {
        assert Lookup(views[j], e) == Lookup(calls[j - 1], MakeDeviceID(e, 0));
      }
    }
    ViewAgreesIffNothingStale(views[j], calls[j], views[j + 1]);
  }
}

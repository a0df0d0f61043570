/**
 What signals mean, said in terms of their contents: which announce or withdraw a device, which are
 delivered, which end in an exception and which ask for a network id.
 */
module Signals {
  import opened Wrappers
  import opened DeviceIds
  import opened Names
  import opened Vendor
  import opened Dbus
  import opened Scan
  import opened Tracker
  import opened NetworkIds
  import Handlers
  import Paths

  // ---- Endpoints ----

  /** The sender is listened to. */
  predicate Heeded(c: Core, a: Action) {
    a.Event? && c.initialised && a.signal.sender in c.matchedBuses
  }

  /** The endpoint says that it supports the configured message type. */
  predicate SaysSupported(config: Config, values: Interfaces) {
    && SupportedMessageTypes in values && Supports(config.msgType) in values[SupportedMessageTypes]
    && values[SupportedMessageTypes][Supports(config.msgType)] == Bool(true)
  }

  /** The endpoint has a flag for the configured message type. */
  predicate HasFlag(config: Config, values: Interfaces) {
    && SupportedMessageTypes in values && Supports(config.msgType) in values[SupportedMessageTypes]
    && values[SupportedMessageTypes][Supports(config.msgType)].Bool?
  }

  /** The path lies below the base object and ends in a number; the device is that EID on the sender's network. */
  predicate PathNames(c: Core, path: string, sender: string, d: DeviceID) {
    && EndpointPrefix.Text() <= path && Paths.ScanPathEid(path).Ok?
    && d == MakeDeviceID(Paths.ScanPathEid(path).value,
                         if sender in c.networkIDCache then c.networkIDCache[sender] else 0)
  }

  lemma EndpointPathHasSlash(path: string)
    requires EndpointPrefix.Text() <= path
    ensures Paths.HasDeviceSlash(path) && Paths.IsEndpoint(path) && !Paths.IsBase(path)
  {
    var k := |EndpointPrefix.Text()| - 1;
    assert path[k] == '/' && k >= 2;
    Handlers.BaseIsNoEndpoint(path);
  }

  lemma EndpointPathEid(path: string)
    requires EndpointPrefix.Text() <= path
    ensures Paths.EventPathEid(path).Ok? <==> Paths.ScanPathEid(path).Ok?
    ensures Paths.EventPathEid(path).Ok? ==> Paths.EventPathEid(path) == Paths.ScanPathEid(path)
  {
    EndpointPathHasSlash(path);
    Paths.ParsersAgree(path);
    hide Paths.EventPathEid, Paths.ScanPathEid, Paths.HasDeviceSlash;
  }

  lemma AnnouncesMeaning(config: Config, path: string, values: Interfaces)
    ensures Announces(config, path, values) == Ok(true)
      <==> EndpointPrefix.Text() <= path && SaysSupported(config, values)
    ensures Announces(config, path, values).Err?
      <==> EndpointPrefix.Text() <= path && SupportedMessageTypes in values && !HasFlag(config, values)
  {
  }

  /**
   A signal announces a device exactly when its sender is listened to, it adds interfaces on a path that names the
   device, and the flag for the configured message type is there and true.
   */
  lemma AddedDeviceMeaning(su: Setup, c: Core, a: Action, d: DeviceID)
    ensures AddedDevice(su, c, a) == Some(d) <==>
      && Heeded(c, a) && a.signal.body.InterfacesAdded?
      && PathNames(c, a.signal.body.path, a.signal.sender, d)
      && SaysSupported(su.filter.config, a.signal.body.values)
  {
    hide Announces, Paths.IsBase, Paths.IsEndpoint, Paths.EventPathEid, Paths.ScanPathEid, SaysSupported, MakeDeviceID;
    if a.Event? && a.signal.body.InterfacesAdded? {
      AnnouncesMeaning(su.filter.config, a.signal.body.path, a.signal.body.values);
      if EndpointPrefix.Text() <= a.signal.body.path {
        EndpointPathHasSlash(a.signal.body.path);
        EndpointPathEid(a.signal.body.path);
      }
    }
  }

  /** A signal withdraws a device exactly when it removes the list of supported types from a path that names it. */
  lemma RemovedDeviceMeaning(su: Setup, c: Core, a: Action, d: DeviceID)
    ensures RemovedDevice(su, c, a) == Some(d) <==>
      && Heeded(c, a) && a.signal.body.InterfacesRemoved?
      && PathNames(c, a.signal.body.path, a.signal.sender, d)
      && SupportedMessageTypes in a.signal.body.interfaces
  {
    hide Paths.EventPathEid, Paths.ScanPathEid, MakeDeviceID;
    if a.Event? && a.signal.body.InterfacesRemoved? && EndpointPrefix.Text() <= a.signal.body.path {
      EndpointPathEid(a.signal.body.path);
    }
  }

  // ---- Exceptions ----

  /**
   A handler ends in an exception exactly when an endpoint's flag is missing or no boolean, when a supporting endpoint
   has a path without a number, or when a reported EID is no byte.
   */
  lemma EscapingExceptionMeaning(su: Setup, c: Core, signal: Signal, r: Replies)
    ensures EscapingException(su, c, signal) <==>
      && Heeded(c, Event(signal, r))
      && match signal.body
         case InterfacesAdded(path, values) =>
           && EndpointPrefix.Text() <= path && SupportedMessageTypes in values
           && (!HasFlag(su.filter.config, values)
               || (SaysSupported(su.filter.config, values) && Paths.ScanPathEid(path).Err?))
         case PropertiesChanged(intf, changed) =>
           && c.eidChange.Some? && intf == BaseInterface && EidProperty in changed && !changed[EidProperty].Byte?
         case _ => false
  {
    hide Announces, Paths.IsBase, Paths.IsEndpoint, Paths.EventPathEid, Paths.ScanPathEid, SaysSupported, HasFlag;
    if signal.body.InterfacesAdded? {
      AnnouncesMeaning(su.filter.config, signal.body.path, signal.body.values);
      FlagOfSupported(su.filter.config, signal.body.values);
      if EndpointPrefix.Text() <= signal.body.path {
        EndpointPathHasSlash(signal.body.path);
        EndpointPathEid(signal.body.path);
      }
    }
  }

  lemma FlagOfSupported(config: Config, values: Interfaces)
    ensures SaysSupported(config, values) ==> HasFlag(config, values) && SupportedMessageTypes in values
  {
  }

  // ---- Messages and own EIDs ----

  /** A message that is handed on: from a heeded sender, with a callback to hand it to, fitting the configuration. */
  predicate Wanted(su: Setup, c: Core, a: Action) {
    && Heeded(c, a) && a.signal.body.MessageReceivedSignal? && (su.receive.Some? || c.extReceive.Some?)
    && MessageFits(su.filter.host, su.filter.config, a.signal.body.messageType, a.signal.body.payload)
  }

  lemma DeliversMeaning(su: Setup, c: Core, signal: Signal, r: Replies)
    ensures Delivers(su, c, signal) <==> Wanted(su, c, Event(signal, r))
  {
    if signal.body.MessageReceivedSignal? {
      var config := su.filter.config;
      if FilterDefined(config, signal.body.payload) {
        AcceptsMeaning(su.filter.host, config, signal.body.messageType, signal.body.payload);
        hide Accepts, MessageFits;
      } else {
        hide Accepts, HeaderFits, BigEndian16, HostToBig16;
      }
    }
  }

  /** A change of properties is reported exactly when it gives the Base interface's EID as a byte to a callback. */
  lemma OwnEidReport(su: Setup, m: Machine, signal: Signal, r: Replies)
    requires signal.body.PropertiesChanged?
    ensures Step(su, m, Event(signal, r)).log ==
      if Heeded(m.core, Event(signal, r)) && m.core.eidChange.Some? && signal.body.intf == BaseInterface
         && EidProperty in signal.body.changed && signal.body.changed[EidProperty].Byte?
      then m.log + [OwnEidChanged(m.core.eidChange.value, signal.sender, signal.body.changed[EidProperty].value)]
      else m.log
  {
    Handlers.QuietEvent(su, m, Event(signal, r));
    hide Step;
  }

  // ---- Network ids ----

  /**
   Which actions ask for a network id, of whom, and what they read: endpoint signals on a path below the base object,
   whether or not it ends in a number, messages for the extended callback, and buses that answer a scan.
   */
  lemma CallOfMeaning(su: Setup, c: Core, a: Action, service: string, reading: Option<byte>)
    ensures CallOf(su, c, a) == Some(Call(service, reading)) <==>
      match a
      case Event(signal, r) =>
        && Heeded(c, a) && service == signal.sender && reading == Lookup(r.networkIds, service)
        && (match signal.body
            case InterfacesAdded(path, values) =>
              EndpointPrefix.Text() <= path && SaysSupported(su.filter.config, values)
            case InterfacesRemoved(path, interfaces) =>
              EndpointPrefix.Text() <= path && SupportedMessageTypes in interfaces
            case MessageReceivedSignal(_, _, _, _, _) => Wanted(su, c, a) && c.extReceive.Some?
            case _ => false)
      case ObjectsReply(id, objects, r) =>
        && Resumed(c, a).Some? && objects.Some? && service == RepliedBus(Resumed(c, a).value).service
        && reading == Lookup(r.networkIds, service)
      case _ => false
  {
    hide Resumed;
    if a.Event? {
      EventCallMeaning(su, c, a.signal, a.replies);
    }
    hide EndpointPath, Delivers, Wanted, Paths.HasDeviceSlash, SaysSupported;
  }

  lemma EventCallMeaning(su: Setup, c: Core, signal: Signal, r: Replies)
    ensures CallOf(su, c, Event(signal, r)).Some? <==>
      && Heeded(c, Event(signal, r))
      && (match signal.body
          case InterfacesAdded(path, values) => EndpointPrefix.Text() <= path && SaysSupported(su.filter.config, values)
          case InterfacesRemoved(path, interfaces) =>
            EndpointPrefix.Text() <= path && SupportedMessageTypes in interfaces
          case MessageReceivedSignal(_, _, _, _, _) => Wanted(su, c, Event(signal, r)) && c.extReceive.Some?
          case _ => false)
  {
    DeliversMeaning(su, c, signal, r);
    DeliveredIsMessage(su, c, signal);
    hide Delivers, Announces, Paths.IsBase, Paths.HasDeviceSlash, MessageFits, SaysSupported;
    match signal.body {
      case InterfacesAdded(path, values) =>
        AnnouncesMeaning(su.filter.config, path, values);
        if EndpointPrefix.Text() <= path {
          EndpointPathHasSlash(path);
        }
      case InterfacesRemoved(path, _) =>
        if EndpointPrefix.Text() <= path {
          EndpointPathHasSlash(path);
        }
      case _ =>
    }
  }
}

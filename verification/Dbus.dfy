/** What the tracker receives from D-Bus: signals, and the replies to the calls it makes. */
module Dbus {
  import opened Wrappers
  import opened DeviceIds
  import opened Names
  import opened Vendor

  /** The property variant; only the alternatives the code asks for are told apart. */
  datatype Variant = Bool(flag: bool) | Byte(value: byte) | Other

  type Properties = map<PropertyName, Variant>
  type Interfaces = map<InterfaceName, Properties>

  /** An object of a GetManagedObjects reply, with what reading its vendor properties yields. */
  datatype ManagedObject = ManagedObject(path: string, interfaces: Interfaces, vendor: VendorProperties)

  datatype Body =
    | InterfacesAdded(path: string, values: Interfaces)
    | InterfacesRemoved(path: string, interfaces: seq<InterfaceName>)
    | MessageReceivedSignal(messageType: bv8, srcEid: byte, msgTag: bv8, tagOwner: bool, payload: seq<bv8>)
    | PropertiesChanged(intf: InterfaceName, changed: Properties)
    | OtherMember

  datatype Signal = Signal(sender: string, body: Body)

  /**
   Outcomes of the blocking calls a handler may make, by service. A service without an entry is one
   whose call throws; "accepted" holds the services that answer a registration with success.
   */
  datatype Replies = Replies(
    networkIds: map<string, byte>,
    ownEids: map<string, byte>,
    busIds: map<string, nat>,
    accepted: set<string>)

  /** msgIf.at(property), then std::get<bool>; Err when either throws. */
  function SupportFlag(config: Config, properties: Properties): Result<bool> {
    if Supports(config.msgType) !in properties then Err(OutOfRange)
    else match properties[Supports(config.msgType)]
      case Bool(flag) => Ok(flag)
      case _ => Err(RuntimeError)
  }
}

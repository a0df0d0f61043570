/**
 Message type configuration, vendor settings with their byte orders, and the two filters that use
 them: the receive filter on VDPCI payloads and the vendor test of the endpoint scan.
 */
module Vendor {
  import opened Wrappers
  import opened Names
  import Paths

  // ---- Byte order ----

  datatype Endian = Little | Big

  function Swap16(x: bv16): bv16 {
    (x << 8) | (x >> 8)
  }

  function HostToBig16(host: Endian, x: bv16): bv16 {
    if host.Little? then Swap16(x) else x
  }

  function BigToHost16(host: Endian, x: bv16): bv16 {
    if host.Little? then Swap16(x) else x
  }

  /** The number two consecutive bytes stand for in big-endian order. */
  function BigEndian16(b0: bv8, b1: bv8): bv16 {
    ((b0 as bv16) << 8) | (b1 as bv16)
  }

  /** What a 16-bit load of two consecutive bytes yields on this host. */
  function Load16(host: Endian, b0: bv8, b1: bv8): bv16 {
    if host.Little? then BigEndian16(b1, b0) else BigEndian16(b0, b1)
  }

  lemma SwapTwice(x: bv16)
    ensures Swap16(Swap16(x)) == x
  {
  }

  lemma SwapOfAnd(x: bv16, y: bv16)
    ensures Swap16(x & y) == Swap16(x) & Swap16(y)
  {
  }

  lemma SwapInjective(x: bv16, y: bv16)
    ensures Swap16(x) == Swap16(y) <==> x == y
  {
  }

  lemma LoadIsSwappedBigEndian(host: Endian, b0: bv8, b1: bv8)
    ensures Load16(host, b0, b1) == HostToBig16(host, BigEndian16(b0, b1))
  {
  }

  /** In big-endian order the first byte is the high one. */
  lemma HighByte(b0: bv8, b1: bv8)
    ensures BigEndian16(b0, b1) >> 8 == b0 as bv16
  {
  }

  lemma LowByte(b0: bv8, b1: bv8)
    ensures BigEndian16(b0, b1) & 0xFF == b1 as bv16
  {
  }

  /** A little-endian host takes the second byte for the high one. */
  lemma LoadOrder(b0: bv8, b1: bv8)
    ensures Load16(Big, b0, b1) == BigEndian16(b0, b1)
    ensures Load16(Little, b0, b1) == BigEndian16(b1, b0)
  {
    hide BigEndian16;
  }

  /** htobe16 and be16toh leave a value alone on a big-endian host and exchange its bytes on a little-endian one. */
  lemma ConversionsExchangeBytes(b0: bv8, b1: bv8)
    ensures HostToBig16(Big, BigEndian16(b0, b1)) == BigEndian16(b0, b1) == BigToHost16(Big, BigEndian16(b0, b1))
    ensures HostToBig16(Little, BigEndian16(b0, b1)) == BigEndian16(b1, b0) == BigToHost16(Little, BigEndian16(b0, b1))
  {
  }

  lemma BackAndForth(host: Endian, x: bv16, y: bv16)
    ensures x == BigToHost16(host, y) <==> HostToBig16(host, x) == y
  {
    if host.Little? {
      SwapTwice(x);
      SwapTwice(y);
    }
  }

  // ---- Configuration ----

  datatype VendorMessageType = VendorMessageType(value: bv16, mask: bv16) {
    function CmdSetType(): bv16 {
      value & mask
    }
  }

  datatype Config = Config(
    msgType: MessageType,
    binding: BindingType,
    vendorId: Option<bv16>,
    vendorMessageType: Option<VendorMessageType>)
  {
    /** Both vendor settings are present, as registering a VDPCI responder needs. */
    predicate VendorComplete() {
      vendorId.Some? && vendorMessageType.Some?
    }
  }

  /** The configuration structure, whose setters turn CPU byte order into big-endian order. */
  class MCTPConfiguration {
    const host: Endian
    const msgType: MessageType
    const binding: BindingType
    var vendorId: Option<bv16>
    var vendorMessageType: Option<VendorMessageType>

    function Value(): Config
      reads this
    {
      Config(msgType, binding, vendorId, vendorMessageType)
    }

    constructor (host: Endian, msgType: MessageType, binding: BindingType)
      ensures this.host == host && Value() == Config(msgType, binding, None, None)
    {
      this.host := host;
      this.msgType := msgType;
      this.binding := binding;
      vendorId := None;
      vendorMessageType := None;
    }

    method SetVendorId(vid: bv16)
      modifies this`vendorId
      ensures Value() == old(Value()).(vendorId := Some(HostToBig16(host, vid)))
    {
      vendorId := Some(HostToBig16(host, vid));
    }

    method SetVendorMessageType(msgType: bv16, mask: bv16)
      modifies this`vendorMessageType
      ensures Value() == old(Value()).(
        vendorMessageType := Some(VendorMessageType(HostToBig16(host, msgType), HostToBig16(host, mask))))
    {
      vendorMessageType := Some(VendorMessageType(HostToBig16(host, msgType), HostToBig16(host, mask)));
    }

    /** The constructor with a vendor id refuses every message type but VDPCI. */
    static method WithVendorId(host: Endian, msgType: MessageType, binding: BindingType, vid: bv16)
      returns (r: Result<MCTPConfiguration>)
      ensures r.Ok? <==> msgType == Vdpci
      ensures r.Err? ==> r.error == InvalidArgument
      ensures r.Ok? ==> fresh(r.value) && r.value.host == host
      ensures r.Ok? ==> r.value.Value() == Config(msgType, binding, Some(HostToBig16(host, vid)), None)
    {
      var c := new MCTPConfiguration(host, msgType, binding);
      if Vdpci != msgType {
        return Err(InvalidArgument);
      }
      c.SetVendorId(vid);
      return Ok(c);
    }

    /** The constructor with all vendor settings: its configuration is the one the theorems speak of. */
    static method WithVendorType(host: Endian, msgType: MessageType, binding: BindingType, vid: bv16,
                                 vendorMsgType: bv16, vendorMsgTypeMask: bv16)
      returns (r: Result<MCTPConfiguration>)
      ensures r.Ok? <==> msgType == Vdpci
      ensures r.Err? ==> r.error == InvalidArgument
      ensures r.Ok? ==> fresh(r.value)
      ensures r.Ok? ==> r.value.Value() == VdpciConfig(host, binding, vid, vendorMsgType, vendorMsgTypeMask)
    {
      r := WithVendorId(host, msgType, binding, vid);
      if r.Ok? {
        r.value.SetVendorMessageType(vendorMsgType, vendorMsgTypeMask);
      }
    }
  }

  /** The stored form of vendor settings given in CPU order. */
  function VdpciConfig(host: Endian, binding: BindingType, vid: bv16, msgType: bv16, mask: bv16): Config {
    Config(Vdpci, binding, Some(HostToBig16(host, vid)),
           Some(VendorMessageType(HostToBig16(host, msgType), HostToBig16(host, mask))))
  }

  // ---- Receive filter ----

  /** The code reads five header bytes only when both vendor settings are present. */
  predicate FilterDefined(config: Config, payload: seq<bv8>) {
    config.msgType == Vdpci && config.VendorComplete() ==> |payload| >= 5
  }

  /** The vendor part of the test on given field values. */
  predicate VendorMatch(id: bv16, msgType: bv16, vid: bv16, value: bv16, mask: bv16) {
    id == vid && msgType & mask == value & mask
  }

  /** onMessageReceived's test: message type, then the raw vendor fields as the host loads them. */
  predicate Accepts(host: Endian, config: Config, messageType: bv8, payload: seq<bv8>)
    requires FilterDefined(config, payload)
  {
    && messageType == TypeCode(config.msgType)
    && (config.msgType == Vdpci ==>
      && config.vendorId.Some?
      && config.vendorMessageType.Some?
      && VendorMatch(Load16(host, payload[1], payload[2]), Load16(host, payload[3], payload[4]),
                     config.vendorId.value, config.vendorMessageType.value.value,
                     config.vendorMessageType.value.mask))
  }

  lemma SameId(host: Endian, id: bv16, vid: bv16)
    ensures HostToBig16(host, id) == HostToBig16(host, vid) <==> id == vid
  {
    if host.Little? {
      SwapInjective(id, vid);
    }
  }

  lemma ConversionOfAnd(host: Endian, x: bv16, y: bv16)
    ensures HostToBig16(host, x & y) == HostToBig16(host, x) & HostToBig16(host, y)
  {
    if host.Little? {
      SwapOfAnd(x, y);
    }
  }

  lemma SameType(host: Endian, msgType: bv16, value: bv16, mask: bv16)
    ensures HostToBig16(host, msgType) & HostToBig16(host, mask) == HostToBig16(host, value) & HostToBig16(host, mask)
      <==> msgType & mask == value & mask
  {
    ConversionOfAnd(host, msgType, mask);
    ConversionOfAnd(host, value, mask);
    SameId(host, msgType & mask, value & mask);
  }

  lemma RawMatch(host: Endian, id: bv16, msgType: bv16, vid: bv16, value: bv16, mask: bv16)
    ensures VendorMatch(HostToBig16(host, id), HostToBig16(host, msgType),
                        HostToBig16(host, vid), HostToBig16(host, value), HostToBig16(host, mask))
      <==> VendorMatch(id, msgType, vid, value, mask)
  {
    SameId(host, id, vid);
    SameType(host, msgType, value, mask);
  }

  lemma FilterComparesHeader(host: Endian, binding: BindingType, vid: bv16, msgType: bv16, mask: bv16,
                             payload: seq<bv8>)
    requires |payload| >= 5
    ensures Accepts(host, VdpciConfig(host, binding, vid, msgType, mask), TypeCode(Vdpci), payload)
      <==> VendorMatch(BigEndian16(payload[1], payload[2]), BigEndian16(payload[3], payload[4]), vid, msgType, mask)
  {
    LoadIsSwappedBigEndian(host, payload[1], payload[2]);
    LoadIsSwappedBigEndian(host, payload[3], payload[4]);
    RawMatch(host, BigEndian16(payload[1], payload[2]), BigEndian16(payload[3], payload[4]), vid, msgType, mask);
  }

  /**
   Comparing raw loads with converted settings means comparing the big-endian header fields of the
   payload with the settings the caller gave, on either host.
   */
  lemma FilterIsByteOrderIndependent(host: Endian, binding: BindingType, vid: bv16, msgType: bv16, mask: bv16,
                                     payload: seq<bv8>)
    requires |payload| >= 5
    ensures Accepts(host, VdpciConfig(host, binding, vid, msgType, mask), TypeCode(Vdpci), payload)
      <==> BigEndian16(payload[1], payload[2]) == vid
           && BigEndian16(payload[3], payload[4]) & mask == msgType & mask
  {
    hide Accepts, BigEndian16, HostToBig16;
    FilterComparesHeader(host, binding, vid, msgType, mask, payload);
  }

  /** What the receive filter lets through, for every configuration and in terms of the header alone. */
  predicate MessageFits(host: Endian, config: Config, messageType: bv8, payload: seq<bv8>) {
    && messageType == TypeCode(config.msgType)
    && (config.msgType == Vdpci ==>
          && config.vendorId.Some? && config.vendorMessageType.Some? && |payload| >= 5
          && HeaderFits(HostToBig16(host, BigEndian16(payload[1], payload[2])),
                        HostToBig16(host, BigEndian16(payload[3], payload[4])),
                        config.vendorId.value, config.vendorMessageType.value.value,
                        config.vendorMessageType.value.mask))
  }

  /** The two header fields as stored settings, against the settings. */
  predicate HeaderFits(id: bv16, msgType: bv16, vid: bv16, value: bv16, mask: bv16) {
    id == vid && msgType & mask == value & mask
  }

  lemma FilterDefinedMeaning(config: Config, payload: seq<bv8>)
    ensures FilterDefined(config, payload)
      <==> (config.msgType == Vdpci && config.vendorId.Some? && config.vendorMessageType.Some? ==> |payload| >= 5)
  {
  }

  /** A message of another type than the configured one never passes, and other types than VDPCI ask for no more. */
  lemma AcceptsByType(host: Endian, config: Config, messageType: bv8, payload: seq<bv8>)
    requires FilterDefined(config, payload)
    ensures Accepts(host, config, messageType, payload) ==> messageType == TypeCode(config.msgType)
    ensures config.msgType != Vdpci ==>
      (Accepts(host, config, messageType, payload) <==> messageType == TypeCode(config.msgType))
  {
    hide TypeCode, VendorMatch, Load16;
  }

  lemma MatchOfHeader(id: bv16, msgType: bv16, vid: bv16, value: bv16, mask: bv16)
    ensures VendorMatch(id, msgType, vid, value, mask) <==> HeaderFits(id, msgType, vid, value, mask)
  {
  }

  lemma MatchOfLoads(host: Endian, b1: bv8, b2: bv8, b3: bv8, b4: bv8, vid: bv16, value: bv16, mask: bv16)
    ensures VendorMatch(Load16(host, b1, b2), Load16(host, b3, b4), vid, value, mask)
      <==> HeaderFits(HostToBig16(host, BigEndian16(b1, b2)), HostToBig16(host, BigEndian16(b3, b4)), vid, value, mask)
  {
    hide BigEndian16, HostToBig16, Load16, VendorMatch, HeaderFits;
    LoadIsSwappedBigEndian(host, b1, b2);
    LoadIsSwappedBigEndian(host, b3, b4);
    MatchOfHeader(Load16(host, b1, b2), Load16(host, b3, b4), vid, value, mask);
  }

  /**
   The receive filter for every configuration: the message type is the configured one and, for VDPCI, both vendor
   settings are there and match the header.
   */
  lemma AcceptsMeaning(host: Endian, config: Config, messageType: bv8, payload: seq<bv8>)
    requires FilterDefined(config, payload)
    ensures Accepts(host, config, messageType, payload) <==> MessageFits(host, config, messageType, payload)
  {
    hide BigEndian16, HostToBig16, Load16, TypeCode, VendorMatch, HeaderFits;
    if config.msgType == Vdpci && config.vendorId.Some? && config.vendorMessageType.Some? {
      MatchOfLoads(host, payload[1], payload[2], payload[3], payload[4], config.vendorId.value,
                   config.vendorMessageType.value.value, config.vendorMessageType.value.mask);
    }
  }

  // ---- Vendor test of the scan ----

  /** What reading the PCIVendorDefined properties of an object yields; None stands for an exception. */
  datatype VendorProperties = VendorProperties(vendorId: Option<string>, messageTypes: Option<seq<bv16>>)

  /** static_cast<uint16_t>(std::stoi(text, nullptr, 16)) */
  function ParseVendorId(text: string): Result<bv16> {
    match Paths.Stoi(text, 16)
    case Ok(n) => Ok((n % 0x1_0000) as bv16)
    case Err(e) => Err(e)
  }

  /** Whether the scan keeps an object for its vendor data; Err when a read or a parse throws. */
  function VendorAdmits(host: Endian, config: Config, props: VendorProperties): Result<bool> {
    if config.msgType != Vdpci then Ok(true)
    else if config.vendorId.None? then Ok(config.vendorMessageType.None?)
    else if props.vendorId.None? then Err(RuntimeError)
    else match ParseVendorId(props.vendorId.value)
      case Err(e) => Err(e)
      case Ok(id) =>
        if id != BigToHost16(host, config.vendorId.value) then Ok(false)
        else if config.vendorMessageType.None? then Ok(true)
        else if props.messageTypes.None? then Err(RuntimeError)
        else Ok(BigToHost16(host, config.vendorMessageType.value.value) in props.messageTypes.value)
  }

  /**
   What the scan demands of an object's vendor data, in terms of the configuration: nothing for other types than
   VDPCI; nothing without vendor settings; never anything with a message type alone; the id that was set; and if
   a message type was set too, that it is among those the object lists.
   */
  ghost predicate VendorFits(host: Endian, config: Config, props: VendorProperties) {
    config.msgType == Vdpci ==>
      if config.vendorId.None? then config.vendorMessageType.None?
      else
        && props.vendorId.Some?
        && (exists id ::
              ParseVendorId(props.vendorId.value) == Ok(id) && HostToBig16(host, id) == config.vendorId.value)
        && (config.vendorMessageType.Some? ==>
              && props.messageTypes.Some?
              && exists t ::
                   t in props.messageTypes.value && HostToBig16(host, t) == config.vendorMessageType.value.value)
  }

  lemma AdmitsMeaning(host: Endian, config: Config, props: VendorProperties)
    ensures VendorAdmits(host, config, props) == Ok(true) <==> VendorFits(host, config, props)
  {
    hide HostToBig16, BigToHost16, ParseVendorId;
    if config.vendorId.Some? {
      var v := BigToHost16(host, config.vendorId.value);
      BackAndForth(host, v, config.vendorId.value);
      if props.vendorId.Some? && ParseVendorId(props.vendorId.value).Ok? {
        BackAndForth(host, ParseVendorId(props.vendorId.value).value, config.vendorId.value);
      }
    }
    if config.vendorMessageType.Some? && props.messageTypes.Some? {
      var value := config.vendorMessageType.value.value;
      BackAndForth(host, BigToHost16(host, value), value);
      forall t | t in props.messageTypes.value
        ensures HostToBig16(host, t) == value <==> t == BigToHost16(host, value)
      {
        BackAndForth(host, t, value);
      }
    }
  }

  /** Types other than VDPCI have no vendor data to fit. */
  lemma AdmitsWithoutId(host: Endian, config: Config, props: VendorProperties)
    ensures config.msgType != Vdpci ==> VendorAdmits(host, config, props) == Ok(true)
    ensures config.msgType == Vdpci && config.vendorId.None? ==>
      (VendorAdmits(host, config, props) == Ok(true) <==> config.vendorMessageType.None?)
  {
  }

  /** The vendor id is a hexadecimal number in either case, with or without "0x"; its low sixteen bits count. */
  lemma ParsedVendorId(prefix: string, digits: string, n: nat)
    requires prefix in {"", "0x", "0X"} && Paths.Spells(digits, n, 16)
    ensures ParseVendorId(prefix + digits)
      == if n <= 0x7FFF_FFFF then Ok((n % 0x1_0000) as bv16) else Err(OutOfRange)
  {
    Paths.StoiMeaning("", "", prefix, digits, n, "", 16);
    assert "" + ("" + (prefix + (digits + ""))) == prefix + digits;
    hide Paths.Stoi, Paths.Spells;
  }

  /** With both settings given, the scan compares the CPU-order values of caller and device exactly. */
  lemma ScanFilterMeaning(host: Endian, binding: BindingType, vid: bv16, msgType: bv16, mask: bv16,
                          props: VendorProperties)
    ensures VendorAdmits(host, VdpciConfig(host, binding, vid, msgType, mask), props) == Ok(true)
      <==> props.vendorId.Some? && ParseVendorId(props.vendorId.value) == Ok(vid)
           && props.messageTypes.Some? && msgType in props.messageTypes.value
  {
    SwapTwice(vid);
    SwapTwice(msgType);
  }

  /**
   A device the scan admits may send what it declares: a payload with the vendor id it reported and
   the message type for which it was admitted passes the masked receive filter, for every mask.
   */
  lemma ScanFilterImpliesReceiveFilter(host: Endian, binding: BindingType, vid: bv16, msgType: bv16, mask: bv16,
                                       props: VendorProperties, payload: seq<bv8>)
    requires VendorAdmits(host, VdpciConfig(host, binding, vid, msgType, mask), props) == Ok(true)
    requires |payload| >= 5
    requires Ok(BigEndian16(payload[1], payload[2])) == ParseVendorId(props.vendorId.value)
    requires BigEndian16(payload[3], payload[4]) == msgType
    ensures Accepts(host, VdpciConfig(host, binding, vid, msgType, mask), TypeCode(Vdpci), payload)
  {
    ScanFilterMeaning(host, binding, vid, msgType, mask, props);
    SwapTwice(msgType);
    FilterIsByteOrderIndependent(host, binding, vid, msgType, mask, payload);
  }

  // ---- The two filters under every configuration ----

  /** The stored form of a vendor id given alone. */
  function VendorIdConfig(host: Endian, binding: BindingType, vid: bv16): Config {
    Config(Vdpci, binding, Some(HostToBig16(host, vid)), None)
  }

  /** With a vendor id alone, the scan admits every device that reports it. */
  lemma IdOnlyScan(host: Endian, binding: BindingType, vid: bv16, props: VendorProperties)
    ensures VendorAdmits(host, VendorIdConfig(host, binding, vid), props) == Ok(true)
      <==> props.vendorId.Some? && ParseVendorId(props.vendorId.value) == Ok(vid)
  {
    SwapTwice(vid);
  }

  /**
   The header carries the vendor id that the device reported and a message type that it reported, the
   configured one if there is one.
   */
  predicate Declares(host: Endian, config: Config, props: VendorProperties, payload: seq<bv8>) {
    && |payload| >= 5
    && props.vendorId.Some? && ParseVendorId(props.vendorId.value) == Ok(BigEndian16(payload[1], payload[2]))
    && props.messageTypes.Some? && BigEndian16(payload[3], payload[4]) in props.messageTypes.value
    && (config.vendorMessageType.Some? ==>
          BigEndian16(payload[3], payload[4]) == BigToHost16(host, config.vendorMessageType.value.value))
  }

  lemma StoredIsLoaded(host: Endian, stored: bv16, b0: bv8, b1: bv8)
    requires BigEndian16(b0, b1) == BigToHost16(host, stored)
    ensures Load16(host, b0, b1) == stored
  {
    LoadIsSwappedBigEndian(host, b0, b1);
    hide Swap16, BigEndian16, Load16;
    SwapTwice(stored);
  }

  /** Without a message type no VDPCI payload is ever accepted. */
  lemma NoTypeNoMessage(host: Endian, config: Config, messageType: bv8, payload: seq<bv8>)
    requires config.msgType == Vdpci && !config.VendorComplete()
    ensures FilterDefined(config, payload) && !Accepts(host, config, messageType, payload)
  {
  }

  lemma AdmittedIsReceived(host: Endian, config: Config, props: VendorProperties, payload: seq<bv8>)
    requires config.msgType == Vdpci && VendorAdmits(host, config, props) == Ok(true)
    requires Declares(host, config, props, payload) && config.vendorMessageType.Some?
    ensures Accepts(host, config, TypeCode(Vdpci), payload)
  {
    hide BigEndian16, Load16, BigToHost16, ParseVendorId, TypeCode;
    StoredIsLoaded(host, config.vendorId.value, payload[1], payload[2]);
    StoredIsLoaded(host, config.vendorMessageType.value.value, payload[3], payload[4]);
  }

  /**
   When the scan's filter implies the receive filter, for every configuration: a device that the scan admits
   may send what it declared if and only if, for VDPCI, a message type is configured. Without one the scan
   admits devices none of whose messages is ever delivered.
   */
  lemma AdmittingImpliesReceivingIff(host: Endian, config: Config, props: VendorProperties, payload: seq<bv8>)
    requires VendorAdmits(host, config, props) == Ok(true) && Declares(host, config, props, payload)
    ensures FilterDefined(config, payload)
    ensures Accepts(host, config, TypeCode(config.msgType), payload)
      <==> (config.msgType == Vdpci ==> config.vendorMessageType.Some?)
  {
    if config.msgType == Vdpci {
      if config.vendorMessageType.Some? {
        AdmittedIsReceived(host, config, props, payload);
      } else {
        NoTypeNoMessage(host, config, TypeCode(config.msgType), payload);
      }
    }
    hide BigEndian16, Load16, BigToHost16, ParseVendorId, TypeCode, VendorMatch, Declares;
  }

  /** The command set type sent for given settings is the masked message type, in network order. */
  lemma CmdSetTypeOfSettings(host: Endian, msgType: bv16, mask: bv16)
    ensures VendorMessageType(HostToBig16(host, msgType), HostToBig16(host, mask)).CmdSetType()
      == HostToBig16(host, msgType & mask)
  {
    ConversionOfAnd(host, msgType, mask);
    hide HostToBig16;
  }
}

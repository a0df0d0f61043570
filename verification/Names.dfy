/** The D-Bus names the library compares, told apart by constructor; Text gives their spelling. */
module Names {
  datatype MessageType =
    | Pldm | Ncsi | Ethernet | NvmeMgmtMsg | Spdm | SecuredMsg | CxlFmApi | CxlCci | Vdpci | Vdiana

  datatype BindingType =
    | OverSmBus | OverPcieVdm | OverUsb | OverKcs | OverSerial | OverI3C | VendorDefined

  datatype InterfaceName =
    | EndpointInterface
    | SupportedMessageTypes
    | BaseInterface
    | SmBusInterface
    | PcieInterface
    | I3CInterface
    | NoInterface
    | OtherInterface(name: string)
  {
    function Text(): string {
      match this
      case EndpointInterface => "xyz.openbmc_project.MCTP.Endpoint"
      case SupportedMessageTypes => "xyz.openbmc_project.MCTP.SupportedMessageTypes"
      case BaseInterface => "xyz.openbmc_project.MCTP.Base"
      case SmBusInterface => "xyz.openbmc_project.MCTP.Binding.SMBus"
      case PcieInterface => "xyz.openbmc_project.MCTP.Binding.PCIe"
      case I3CInterface => "xyz.openbmc_project.MCTP.Binding.I3C"
      case NoInterface => ""
      case OtherInterface(name) => name
    }
  }

  datatype PropertyName = Supports(msgType: MessageType) | EidProperty | OtherProperty(name: string) {
    function Text(): string {
      match this
      case Supports(Pldm) => "PLDM"
      case Supports(Ncsi) => "NCSI"
      case Supports(Ethernet) => "Ethernet"
      case Supports(NvmeMgmtMsg) => "NVMeMgmtMsg"
      case Supports(Spdm) => "SPDM"
      case Supports(SecuredMsg) => "SECUREDMSG"
      case Supports(CxlFmApi) => "CXLFMAPI"
      case Supports(CxlCci) => "CXLCCI"
      case Supports(Vdpci) => "VDPCI"
      case Supports(Vdiana) => "VDIANA"
      case EidProperty => "Eid"
      case OtherProperty(name) => name
    }
  }

  datatype PathName = BasePath | EndpointPrefix | DevicePrefix {
    function Text(): string {
      match this
      case BasePath => "/xyz/openbmc_project/mctp"
      case EndpointPrefix => "/xyz/openbmc_project/mctp/"
      case DevicePrefix => "/xyz/openbmc_project/mctp/device/"
    }
  }

  /** bindingToInterface: four bindings share the empty name. */
  function BindingInterface(b: BindingType): InterfaceName {
    match b
    case OverSmBus => SmBusInterface
    case OverPcieVdm => PcieInterface
    case OverI3C => I3CInterface
    case _ => NoInterface
  }

  function TypeCode(t: MessageType): bv8 {
    match t
    case Pldm => 0x01
    case Ncsi => 0x02
    case Ethernet => 0x03
    case NvmeMgmtMsg => 0x04
    case Spdm => 0x05
    case SecuredMsg => 0x06
    case CxlFmApi => 0x07
    case CxlCci => 0x08
    case Vdpci => 0x7E
    case Vdiana => 0x7F
  }

  // ---- The tables ----

  /** The codes of the message types, which tell them apart. */
  lemma CodesOfTypes(t: MessageType, u: MessageType)
    ensures [TypeCode(Pldm), TypeCode(Ncsi), TypeCode(Ethernet), TypeCode(NvmeMgmtMsg), TypeCode(Spdm)]
      == [0x01, 0x02, 0x03, 0x04, 0x05]
    ensures [TypeCode(SecuredMsg), TypeCode(CxlFmApi), TypeCode(CxlCci), TypeCode(Vdpci), TypeCode(Vdiana)]
      == [0x06, 0x07, 0x08, 0x7E, 0x7F]
    ensures TypeCode(t) == TypeCode(u) <==> t == u
  {
  }

  const BINDING := "xyz.openbmc_project.MCTP.Binding."

  /** The interface that announces each binding; bindings without one share the empty name. */
  lemma InterfacesOfBindings()
    ensures BindingInterface(OverSmBus).Text() == BINDING + "SMBus"
    ensures BindingInterface(OverPcieVdm).Text() == BINDING + "PCIe"
    ensures BindingInterface(OverI3C).Text() == BINDING + "I3C"
    ensures forall b :: b !in {OverSmBus, OverPcieVdm, OverI3C} ==> BindingInterface(b).Text() == ""
  {
  }

  /** The property that says whether an endpoint supports a message type. */
  lemma PropertiesOfTypes()
    ensures Supports(Pldm).Text() == "PLDM" && Supports(Ncsi).Text() == "NCSI"
    ensures Supports(Ethernet).Text() == "Ethernet" && Supports(NvmeMgmtMsg).Text() == "NVMeMgmtMsg"
    ensures Supports(Spdm).Text() == "SPDM" && Supports(SecuredMsg).Text() == "SECUREDMSG"
    ensures Supports(CxlFmApi).Text() == "CXLFMAPI" && Supports(CxlCci).Text() == "CXLCCI"
    ensures Supports(Vdpci).Text() == "VDPCI" && Supports(Vdiana).Text() == "VDIANA"
    ensures EidProperty.Text() == "Eid"
  {
  }

  const MCTP_PATH := "/xyz/openbmc_project/mctp"
  const MCTP_NAME := "xyz.openbmc_project.MCTP."

  lemma PathsAndInterfaces()
    ensures BasePath.Text() == MCTP_PATH
    ensures EndpointPrefix.Text() == MCTP_PATH + "/"
    ensures DevicePrefix.Text() == MCTP_PATH + "/device/"
    ensures EndpointInterface.Text() == MCTP_NAME + "Endpoint"
    ensures SupportedMessageTypes.Text() == MCTP_NAME + "SupportedMessageTypes"
    ensures BaseInterface.Text() == MCTP_NAME + "Base"
  {
  }

  /** What the constructors tell apart differs in spelling. */
  lemma SpellingsDiffer(t: MessageType, u: MessageType, x: InterfaceName, y: InterfaceName)
    requires !x.OtherInterface? && !y.OtherInterface?
    ensures Supports(t).Text() == Supports(u).Text() <==> t == u
    ensures Supports(t).Text() != EidProperty.Text()
    ensures x.Text() == y.Text() <==> x == y
  {
  }
}

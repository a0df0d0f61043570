/** The packed device identifier: local EID in the low byte, network id above it. */
module DeviceIds {
  type byte = x: int | 0 <= x < 0x100
  type uint32 = x: int | 0 <= x < 0x1_0000_0000

  datatype DeviceID = DeviceID(id: uint32) {
    // id & 0xFF
    function MctpEID(): byte {
      id % 0x100
    }

    // id >> 8, returned as an 8-bit value
    function Network(): byte {
      id / 0x100 % 0x100
    }

    // operator<
    predicate Less(rhs: DeviceID) {
      id < rhs.id
    }
  }

  // (nwid << 8) | eid; both parts are bytes, so the bits do not overlap and "or" is a sum.
  function MakeDeviceID(eid: byte, nwid: byte): DeviceID {
    DeviceID(nwid * 0x100 + eid)
  }

  /** Packing loses nothing: both parts are read back. */
  lemma PackRoundTrip(eid: byte, nwid: byte)
    ensures MakeDeviceID(eid, nwid).MctpEID() == eid
    ensures MakeDeviceID(eid, nwid).Network() == nwid
  {
  }

  lemma PackInjective(e1: byte, n1: byte, e2: byte, n2: byte)
    ensures MakeDeviceID(e1, n1) == MakeDeviceID(e2, n2) <==> e1 == e2 && n1 == n2
  {
    PackRoundTrip(e1, n1);
    PackRoundTrip(e2, n2);
  }

  /** An identifier is rebuilt from its two parts exactly when nothing sits above bit 15. */
  lemma UnpackRoundTrip(d: DeviceID)
    ensures MakeDeviceID(d.MctpEID(), d.Network()) == d <==> d.id < 0x1_0000
  {
    assert d.id == d.id / 0x100 * 0x100 + d.id % 0x100;
  }

  /** operator< orders packed identifiers by network first, then by EID. */
  lemma OrderIsLexicographic(e1: byte, n1: byte, e2: byte, n2: byte)
    ensures MakeDeviceID(e1, n1).Less(MakeDeviceID(e2, n2)) <==> n1 < n2 || (n1 == n2 && e1 < e2)
  {
  }
}

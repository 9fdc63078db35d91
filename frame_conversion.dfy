/** Conversion between the host's gs_host_frame and the driver's
    twai_message_t, in both directions, as the two tasks of
    gsusb_device.cpp perform it. can_id follows the SocketCAN convention:
    bit 31 marks an extended identifier, bit 30 a remote frame, and the low
    29 bits hold the identifier. The single-bit masks and ORs of the code
    are written here with division and remainder by the bit's weight. */
module FrameConversion {
  import opened GsUsb
  import opened Twai

  const CAN_EFF_FLAG: uint32 := 0x8000_0000
  const CAN_RTR_FLAG: uint32 := 0x4000_0000
  const CAN_EFF_MASK: uint32 := 0x1FFF_FFFF

  /** echo_id of a frame received from the bus rather than echoed. */
  const ECHO_ID_RX: uint32 := 0xFFFF_FFFF

  const MAX_DLC: uint8 := 8

  /** can_id & CAN_EFF_FLAG is non-zero: bit 31 is set. */
  function HasEff(id: uint32): (b: bool)
    ensures b <==> (id / CAN_EFF_FLAG) % 2 == 1
  {
    id >= CAN_EFF_FLAG
  }

  /** can_id & CAN_RTR_FLAG is non-zero: bit 30 is set, whatever bit 31 is. */
  function HasRtr(id: uint32): (b: bool)
    ensures b <==> id % CAN_EFF_FLAG >= CAN_RTR_FLAG
  {
    (id / CAN_RTR_FLAG) % 2 == 1
  }

  /** Bit 29, the one bit of can_id that neither the mask nor the flags keep. */
  predicate HasBit29(id: uint32) {
    (id / 0x2000_0000) % 2 == 1
  }

  /** can_id & CAN_EFF_MASK. */
  function IdentifierOf(id: uint32): (r: uint32)
    ensures r <= CAN_EFF_MASK
  {
    id % 0x2000_0000
  }

  /** can_id | CAN_EFF_FLAG. */
  function SetEff(id: uint32): (r: uint32)
    ensures HasEff(r)
  {
    if HasEff(id) then id else id + CAN_EFF_FLAG
  }

  /** can_id | CAN_RTR_FLAG. */
  function SetRtr(id: uint32): (r: uint32)
    ensures HasRtr(r)
  {
    if HasRtr(id) then id else id + CAN_RTR_FLAG
  }

  /** A length code above 8 is cut to 8. */
  function ClampDlc(dlc: uint8): (r: uint8)
    ensures r <= MAX_DLC
    ensures dlc <= MAX_DLC ==> r == dlc
    ensures dlc > MAX_DLC ==> r == MAX_DLC
  {
    if dlc > MAX_DLC then MAX_DLC else dlc
  }

  /** A zero-filled payload with the first n bytes copied from src: the
      memset followed by the memcpy of n bytes. */
  function CopyPrefix(src: Bytes8, n: uint8): (r: Bytes8)
    requires n <= MAX_DLC
    ensures forall i :: 0 <= i < 8 ==> r[i] == if i < n then src[i] else 0
  {
    src[..n] + seq(8 - n, _ => 0)
  }

  /** A payload in which the bytes past the length code are zero. */
  predicate ZeroPadded(data: Bytes8, dlc: uint8) {
    forall i :: dlc <= i < 8 ==> data[i] == 0
  }

  /** usb_tx_task, host frame to bus message: the flags are taken from bits
      31 and 30, the identifier is the low 29 bits, the length code is
      clamped and only that many payload bytes are copied. */
  function HostToTwai(f: HostFrame): (m: TwaiMessage)
    ensures m.identifier <= CAN_EFF_MASK && m.dataLengthCode <= MAX_DLC
    ensures ZeroPadded(m.data, m.dataLengthCode)
  {
    var dlc := ClampDlc(f.canDlc);
    TwaiMessage(HasEff(f.canId), HasRtr(f.canId), IdentifierOf(f.canId), dlc, CopyPrefix(f.data, dlc))
  }

  /** can_rx_task, bus message to host frame: echo_id 0xFFFFFFFF, channel,
      flags and reserved zero, the identifier with the two flag bits ORed
      in, the length code clamped and only that many payload bytes copied. */
  function TwaiToHost(m: TwaiMessage): (f: HostFrame)
    ensures f.echoId == ECHO_ID_RX && f.channel == 0 && f.flags == 0 && f.reserved == 0
    ensures f.canDlc <= MAX_DLC && ZeroPadded(f.data, f.canDlc)
    ensures m.extd ==> HasEff(f.canId)
  {
    var id1 := if m.extd then SetEff(m.identifier) else m.identifier;
    var id2 := if m.rtr then SetRtr(id1) else id1;
    var dlc := ClampDlc(m.dataLengthCode);
    HostFrame(ECHO_ID_RX, id2, dlc, 0, 0, 0, CopyPrefix(m.data, dlc))
  }

  /** A message as the driver can carry it: at most 8 bytes, nothing
      past the length code. */
  function Normalized(m: TwaiMessage): (n: TwaiMessage)
    ensures n.dataLengthCode <= MAX_DLC && ZeroPadded(n.data, n.dataLengthCode)
    ensures m.dataLengthCode <= MAX_DLC && ZeroPadded(m.data, m.dataLengthCode) ==> n == m
  {
    var dlc := ClampDlc(m.dataLengthCode);
    var n := m.(dataLengthCode := dlc, data := CopyPrefix(m.data, dlc));
    assert m.dataLengthCode <= MAX_DLC && ZeroPadded(m.data, m.dataLengthCode) ==> n.data == m.data;
    n
  }

  /** can_id is rebuilt from its parts: the low 29 bits plus the two flags,
      when bit 29 is clear. */
  lemma CanIdParts(id: uint32)
    requires !HasBit29(id)
    ensures id == IdentifierOf(id) + (if HasEff(id) then CAN_EFF_FLAG else 0)
                                   + (if HasRtr(id) then CAN_RTR_FLAG else 0)
  {
    var q := id / 0x2000_0000;
    assert id == q * 0x2000_0000 + IdentifierOf(id);
    assert q < 8 && q % 2 == 0;
    assert id / CAN_RTR_FLAG == q / 2;
  }

  /** The flags ORed into an identifier of at most 29 bits are read back
      unchanged, and so is the identifier. */
  lemma FlagsOrIntoIdentifier(id: uint32, extd: bool, rtr: bool)
    requires id <= CAN_EFF_MASK
    ensures var id1 := if extd then SetEff(id) else id;
      var id2 := if rtr then SetRtr(id1) else id1;
      && id2 == id + (if extd then CAN_EFF_FLAG else 0) + (if rtr then CAN_RTR_FLAG else 0)
      && HasEff(id2) == extd && HasRtr(id2) == rtr && IdentifierOf(id2) == id && !HasBit29(id2)
  {
    var e := if extd then 1 else 0;
    var r := if rtr then 1 else 0;
    var id1 := if extd then SetEff(id) else id;
    assert id1 / CAN_RTR_FLAG == 2 * e;
    var id2 := id + e * CAN_EFF_FLAG + r * CAN_RTR_FLAG;
    assert id2 / 0x2000_0000 == 4 * e + 2 * r;
    assert id2 % 0x2000_0000 == id;
    assert id2 / CAN_RTR_FLAG == 2 * e + r;
  }

  lemma CopyPrefixIdempotent(src: Bytes8, n: uint8)
    requires n <= MAX_DLC
    ensures CopyPrefix(CopyPrefix(src, n), n) == CopyPrefix(src, n)
  {
  }

  /** Bus to host to bus: a received message with a 29-bit identifier comes
      back as the same message, up to clamping its length code and zeroing
      the bytes past it. */
  lemma BusHostBusRoundTrip(m: TwaiMessage)
    requires m.identifier <= CAN_EFF_MASK
    ensures HostToTwai(TwaiToHost(m)) == Normalized(m)
  {
    FlagsOrIntoIdentifier(m.identifier, m.extd, m.rtr);
    var dlc := ClampDlc(m.dataLengthCode);
    CopyPrefixIdempotent(m.data, dlc);
  }

  /** Host to bus to host: a frame whose can_id has bit 29 clear comes back
      with the same can_id, a clamped length code, the payload past it
      zeroed, and echo_id, channel, flags and reserved replaced by the
      received-frame values. */
  lemma HostBusHostRoundTrip(f: HostFrame)
    requires !HasBit29(f.canId)
    ensures var dlc := ClampDlc(f.canDlc);
      TwaiToHost(HostToTwai(f)) == HostFrame(ECHO_ID_RX, f.canId, dlc, 0, 0, 0, CopyPrefix(f.data, dlc))
  {
    var m := HostToTwai(f);
    CanIdParts(f.canId);
    FlagsOrIntoIdentifier(m.identifier, m.extd, m.rtr);
    CopyPrefixIdempotent(f.data, ClampDlc(f.canDlc));
  }

  /** Bit 29 of a host can_id is lost on the way to the bus. */
  lemma Bit29Dropped(f: HostFrame)
    requires HasBit29(f.canId)
    ensures TwaiToHost(HostToTwai(f)).canId == f.canId - 0x2000_0000
  {
    var id := f.canId - 0x2000_0000;
    assert !HasBit29(id) && IdentifierOf(id) == IdentifierOf(f.canId);
    assert HasEff(id) == HasEff(f.canId) && HasRtr(id) == HasRtr(f.canId);
    CanIdParts(id);
    var m := HostToTwai(f);
    FlagsOrIntoIdentifier(m.identifier, m.extd, m.rtr);
  }

  /** A received extended data frame with identifier 0x18DA10F1 reaches the
      host with can_id 0x98DA10F1 and echo_id 0xFFFFFFFF. */
  lemma ExampleExtendedRx()
    ensures var d: Bytes8 := [1, 2, 3, 0, 0, 0, 0, 0];
      TwaiToHost(TwaiMessage(true, false, 0x18DA10F1, 3, d))
        == HostFrame(0xFFFF_FFFF, 0x98DA10F1, 3, 0, 0, 0, d)
  {
  }

  /** A host frame with echo_id 7, standard identifier 0x1A3, length 4 and
      a payload with bytes past the length becomes a standard data message
      carrying only the first four bytes. */
  lemma ExampleStandardTx()
    ensures var d: Bytes8 := [0x11, 0x22, 0x33, 0x44, 0x55, 0x66, 0x77, 0x88];
      HostToTwai(HostFrame(7, 0x1A3, 4, 0, 0, 0, d))
        == TwaiMessage(false, false, 0x1A3, 4, [0x11, 0x22, 0x33, 0x44, 0, 0, 0, 0])
  {
  }

  /** A length code of 15 from the host is sent as 8. */
  lemma ExampleDlcClamped(f: HostFrame)
    requires f.canDlc == 15
    ensures HostToTwai(f).dataLengthCode == 8 && HostToTwai(f).data == f.data
  {
  }
}

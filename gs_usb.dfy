/** Wire-level definitions of the gs_usb ("candleLight") class protocol:
    the control request codes, the mode values and the packed little-endian
    structures exchanged with the host, with their encoders and decoders. */
module GsUsb {

  /** C's uint8_t and uint32_t. */
  type uint8 = x: int | 0 <= x < 0x100
  type uint32 = x: int | 0 <= x < 0x1_0000_0000

  type Bytes = seq<uint8>

  /** The eight payload bytes of a classic CAN frame. */
  type Bytes8 = s: seq<uint8> | |s| == 8 witness [0, 0, 0, 0, 0, 0, 0, 0]

  // Control request codes (the bRequest field of the setup packet)
  const BREQ_HOST_FORMAT: uint8 := 0
  const BREQ_BITTIMING: uint8 := 1
  const BREQ_MODE: uint8 := 2
  const BREQ_BERR: uint8 := 3
  const BREQ_BT_CONST: uint8 := 4
  const BREQ_DEVICE_CONFIG: uint8 := 5
  const BREQ_TIMESTAMP: uint8 := 6
  const BREQ_IDENTIFY: uint8 := 7

  // Values of gs_device_mode.mode
  const CAN_MODE_RESET: uint32 := 0
  const CAN_MODE_START: uint32 := 1

  // Sizes of the packed structures, in bytes
  const DEVICE_CONFIG_SIZE: nat := 12
  const BT_CONST_SIZE: nat := 40
  const BITTIMING_SIZE: nat := 20
  const MODE_SIZE: nat := 8
  const HOST_FRAME_SIZE: nat := 20
  const HOST_CONFIG_SIZE: nat := 4

  /** The request codes as a list, in numeric order. */
  const REQUEST_CODES: seq<uint8> :=
    [BREQ_HOST_FORMAT, BREQ_BITTIMING, BREQ_MODE, BREQ_BERR,
     BREQ_BT_CONST, BREQ_DEVICE_CONFIG, BREQ_TIMESTAMP, BREQ_IDENTIFY]

  lemma RequestCodesDistinct()
    ensures forall i, j :: 0 <= i < j < |REQUEST_CODES| ==> REQUEST_CODES[i] != REQUEST_CODES[j]
    ensures forall i :: 0 <= i < |REQUEST_CODES| ==> REQUEST_CODES[i] as int == i
  {
  }

  // ---------------------------------------------------------------------
  // Little-endian 32-bit words

  function EncodeU32(x: uint32): (r: Bytes)
    ensures |r| == 4
  {
    var q1 := x / 0x100;
    var q2 := q1 / 0x100;
    var q3 := q2 / 0x100;
    [x % 0x100, q1 % 0x100, q2 % 0x100, q3]
  }

  /** Reads four bytes as a word, least significant byte first; encoding
      the word gives the same four bytes back. */
  function DecodeU32(b: Bytes): (r: uint32)
    requires |b| == 4
    ensures EncodeU32(r) == b
  {
    DivModByte(b[0], b[1] as int + 0x100 * (b[2] as int + 0x100 * b[3] as int));
    DivModByte(b[1], b[2] as int + 0x100 * b[3] as int);
    DivModByte(b[2], b[3]);
    b[0] as int + 0x100 * (b[1] as int + 0x100 * (b[2] as int + 0x100 * b[3] as int))
  }

  /** Splitting lo + 256 * hi into its low byte and the rest. */
  lemma DivModByte(lo: int, hi: int)
    requires 0 <= lo < 0x100
    ensures (lo + 0x100 * hi) % 0x100 == lo && (lo + 0x100 * hi) / 0x100 == hi
  {
  }

  lemma DecodeEncodeU32(x: uint32)
    ensures DecodeU32(EncodeU32(x)) == x
  {
  }

  /** A run of 32-bit words laid out back to back, each little-endian. */
  function EncodeWords(ws: seq<uint32>): (r: Bytes)
    ensures |r| == 4 * |ws|
  {
    if ws == [] then [] else EncodeU32(ws[0]) + EncodeWords(ws[1..])
  }

  /** Reads a byte run of a multiple-of-four length as words; encoding
      those words gives the same bytes back. */
  function DecodeWords(b: Bytes): (ws: seq<uint32>)
    requires |b| % 4 == 0
    ensures 4 * |ws| == |b|
    ensures EncodeWords(ws) == b
    decreases |b|
  {
    if b == [] then []
    else
      var ws := [DecodeU32(b[..4])] + DecodeWords(b[4..]);
      assert ws[1..] == DecodeWords(b[4..]);
      assert b == b[..4] + b[4..];
      ws
  }

  lemma {:induction false} DecodeEncodeWords(ws: seq<uint32>)
    ensures DecodeWords(EncodeWords(ws)) == ws
  {
    if ws != [] {
      var b := EncodeWords(ws);
      assert b[..4] == EncodeU32(ws[0]);
      assert b[4..] == EncodeWords(ws[1..]);
      DecodeEncodeU32(ws[0]);
      DecodeEncodeWords(ws[1..]);
    }
  }

  /** Word i of a run sits at byte offset 4 * i. */
  lemma {:induction false} EncodeWordsAt(ws: seq<uint32>, i: nat)
    requires i < |ws|
    ensures EncodeWords(ws)[4 * i .. 4 * i + 4] == EncodeU32(ws[i])
  {
    if i > 0 {
      EncodeWordsAt(ws[1..], i - 1);
      assert EncodeWords(ws) == EncodeU32(ws[0]) + EncodeWords(ws[1..]);
    }
  }

  // ---------------------------------------------------------------------
  // Packed structures

  datatype DeviceConfig = DeviceConfig(
    reserved1: uint8, reserved2: uint8, reserved3: uint8, icount: uint8,
    swVersion: uint32, hwVersion: uint32)

  datatype DeviceBtConst = DeviceBtConst(
    feature: uint32, fclkCan: uint32,
    tseg1Min: uint32, tseg1Max: uint32, tseg2Min: uint32, tseg2Max: uint32,
    sjwMax: uint32, brpMin: uint32, brpMax: uint32, brpInc: uint32)

  datatype DeviceBitTiming = DeviceBitTiming(
    propSeg: uint32, phaseSeg1: uint32, phaseSeg2: uint32, sjw: uint32, brp: uint32)

  datatype DeviceMode = DeviceMode(mode: uint32, flags: uint32)

  datatype HostFrame = HostFrame(
    echoId: uint32, canId: uint32, canDlc: uint8, channel: uint8, flags: uint8, reserved: uint8,
    data: Bytes8)

  datatype HostConfig = HostConfig(byteOrder: uint32)

  function EncodeDeviceConfig(c: DeviceConfig): (r: Bytes)
    ensures |r| == DEVICE_CONFIG_SIZE
  {
    [c.reserved1, c.reserved2, c.reserved3, c.icount] + EncodeU32(c.swVersion) + EncodeU32(c.hwVersion)
  }

  /** Any 12 bytes read as a gs_device_config re-encode to themselves. */
  function DecodeDeviceConfig(b: Bytes): (c: DeviceConfig)
    requires |b| == DEVICE_CONFIG_SIZE
    ensures EncodeDeviceConfig(c) == b
  {
    assert b == [b[0], b[1], b[2], b[3]] + b[4..8] + b[8..12];
    DeviceConfig(b[0], b[1], b[2], b[3], DecodeU32(b[4..8]), DecodeU32(b[8..12]))
  }

  function BtConstWords(c: DeviceBtConst): seq<uint32> {
    [c.feature, c.fclkCan, c.tseg1Min, c.tseg1Max, c.tseg2Min,
     c.tseg2Max, c.sjwMax, c.brpMin, c.brpMax, c.brpInc]
  }

  function EncodeBtConst(c: DeviceBtConst): (r: Bytes)
    ensures |r| == BT_CONST_SIZE
  {
    EncodeWords(BtConstWords(c))
  }

  /** Any 40 bytes read as a gs_device_bt_const re-encode to themselves. */
  function DecodeBtConst(b: Bytes): (c: DeviceBtConst)
    requires |b| == BT_CONST_SIZE
    ensures EncodeBtConst(c) == b
  {
    var w := DecodeWords(b);
    var c := DeviceBtConst(w[0], w[1], w[2], w[3], w[4], w[5], w[6], w[7], w[8], w[9]);
    assert BtConstWords(c) == w;
    c
  }

  function BitTimingWords(t: DeviceBitTiming): seq<uint32> {
    [t.propSeg, t.phaseSeg1, t.phaseSeg2, t.sjw, t.brp]
  }

  function EncodeBitTiming(t: DeviceBitTiming): (r: Bytes)
    ensures |r| == BITTIMING_SIZE
  {
    EncodeWords(BitTimingWords(t))
  }

  /** Any 20 bytes read as a gs_device_bittiming re-encode to themselves. */
  function DecodeBitTiming(b: Bytes): (t: DeviceBitTiming)
    requires |b| == BITTIMING_SIZE
    ensures EncodeBitTiming(t) == b
  {
    var w := DecodeWords(b);
    var t := DeviceBitTiming(w[0], w[1], w[2], w[3], w[4]);
    assert BitTimingWords(t) == w;
    t
  }

  function EncodeMode(m: DeviceMode): (r: Bytes)
    ensures |r| == MODE_SIZE
  {
    EncodeU32(m.mode) + EncodeU32(m.flags)
  }

  /** Any 8 bytes read as a gs_device_mode re-encode to themselves. */
  function DecodeMode(b: Bytes): (m: DeviceMode)
    requires |b| == MODE_SIZE
    ensures EncodeMode(m) == b
  {
    assert b == b[..4] + b[4..];
    DeviceMode(DecodeU32(b[..4]), DecodeU32(b[4..]))
  }

  function EncodeHostConfig(c: HostConfig): (r: Bytes)
    ensures |r| == HOST_CONFIG_SIZE
  {
    EncodeU32(c.byteOrder)
  }

  /** Any 4 bytes read as a gs_host_config re-encode to themselves. */
  function DecodeHostConfig(b: Bytes): (c: HostConfig)
    requires |b| == HOST_CONFIG_SIZE
    ensures EncodeHostConfig(c) == b
  {
    HostConfig(DecodeU32(b))
  }

  function EncodeHostFrame(f: HostFrame): (r: Bytes)
    ensures |r| == HOST_FRAME_SIZE
  {
    EncodeU32(f.echoId) + EncodeU32(f.canId) + [f.canDlc, f.channel, f.flags, f.reserved] + f.data
  }

  /** Any 20 bytes read as a gs_host_frame re-encode to themselves. */
  function DecodeHostFrame(b: Bytes): (f: HostFrame)
    requires |b| == HOST_FRAME_SIZE
    ensures EncodeHostFrame(f) == b
  {
    assert b == b[0..4] + b[4..8] + [b[8], b[9], b[10], b[11]] + b[12..20];
    HostFrame(DecodeU32(b[0..4]), DecodeU32(b[4..8]), b[8], b[9], b[10], b[11], b[12..20])
  }

  // ---------------------------------------------------------------------
  // Layouts and round trips

  /** gs_host_frame: echo_id at 0, can_id at 4, can_dlc at 8, channel at 9,
      flags at 10, reserved at 11 and the payload at 12..19. */
  lemma HostFrameLayout(f: HostFrame)
    ensures var r := EncodeHostFrame(f);
      && DecodeU32(r[0..4]) == f.echoId && DecodeU32(r[4..8]) == f.canId
      && r[8] == f.canDlc && r[9] == f.channel && r[10] == f.flags && r[11] == f.reserved
      && r[12..20] == f.data
  {
    var r := EncodeHostFrame(f);
    assert r[0..4] == EncodeU32(f.echoId) && r[4..8] == EncodeU32(f.canId);
    DecodeEncodeU32(f.echoId);
    DecodeEncodeU32(f.canId);
  }

  lemma HostFrameRoundTrip(f: HostFrame)
    ensures DecodeHostFrame(EncodeHostFrame(f)) == f
  {
    HostFrameLayout(f);
  }

  /** gs_device_bittiming: prop_seg, phase_seg1, phase_seg2, sjw, brp at offsets 0, 4, 8, 12, 16. */
  lemma BitTimingLayout(t: DeviceBitTiming)
    ensures var r := EncodeBitTiming(t);
      && r[0..4] == EncodeU32(t.propSeg) && r[4..8] == EncodeU32(t.phaseSeg1)
      && r[8..12] == EncodeU32(t.phaseSeg2) && r[12..16] == EncodeU32(t.sjw)
      && r[16..20] == EncodeU32(t.brp)
  {
    var ws := BitTimingWords(t);
    EncodeWordsAt(ws, 0);
    EncodeWordsAt(ws, 1);
    EncodeWordsAt(ws, 2);
    EncodeWordsAt(ws, 3);
    EncodeWordsAt(ws, 4);
  }

  lemma BitTimingRoundTrip(t: DeviceBitTiming)
    ensures DecodeBitTiming(EncodeBitTiming(t)) == t
  {
    DecodeEncodeWords(BitTimingWords(t));
  }

  /** gs_device_bt_const: ten words in declared order, word i at offset 4 * i. */
  lemma BtConstLayout(c: DeviceBtConst, i: nat)
    requires i < 10
    ensures EncodeBtConst(c)[4 * i .. 4 * i + 4] == EncodeU32(BtConstWords(c)[i])
  {
    EncodeWordsAt(BtConstWords(c), i);
  }

  lemma BtConstRoundTrip(c: DeviceBtConst)
    ensures DecodeBtConst(EncodeBtConst(c)) == c
  {
    DecodeEncodeWords(BtConstWords(c));
  }

  /** gs_device_config on the wire: the four single bytes in declaration
      order at offsets 0 to 3, sw_version at 4 and hw_version at 8. */
  lemma DeviceConfigLayout(c: DeviceConfig)
    ensures var r := EncodeDeviceConfig(c);
      && r[..4] == [c.reserved1, c.reserved2, c.reserved3, c.icount]
      && r[4..8] == EncodeU32(c.swVersion) && r[8..12] == EncodeU32(c.hwVersion)
  {
    var head: Bytes := [c.reserved1, c.reserved2, c.reserved3, c.icount];
    assert EncodeDeviceConfig(c) == head + EncodeU32(c.swVersion) + EncodeU32(c.hwVersion);
  }

  lemma DeviceConfigRoundTrip(c: DeviceConfig)
    ensures DecodeDeviceConfig(EncodeDeviceConfig(c)) == c
  {
    DeviceConfigLayout(c);
    DecodeEncodeU32(c.swVersion);
    DecodeEncodeU32(c.hwVersion);
  }

  /** gs_device_mode on the wire: mode at offset 0, flags at offset 4. */
  lemma ModeLayout(m: DeviceMode)
    ensures var r := EncodeMode(m);
      r[..4] == EncodeU32(m.mode) && r[4..] == EncodeU32(m.flags)
  {
  }

  lemma ModeRoundTrip(m: DeviceMode)
    ensures DecodeMode(EncodeMode(m)) == m
  {
    ModeLayout(m);
    DecodeEncodeU32(m.mode);
    DecodeEncodeU32(m.flags);
  }

  lemma HostConfigRoundTrip(c: HostConfig)
    ensures DecodeHostConfig(EncodeHostConfig(c)) == c
  {
    DecodeEncodeU32(c.byteOrder);
  }
}

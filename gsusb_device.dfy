/** The gs_usb device of gsusb_device.cpp: the vendor control-request
    handler with its constant responses and staging buffers, its own copy
    of the bus flags, one pass of the bus-to-host receive task, and the
    host-to-bus drain of the transmit task. TinyUSB and the TWAI driver are
    outside the model: their results are parameters, and the calls the
    device makes into them are recorded. */
module GsUsbDevice {
  import opened GsUsb
  import opened Twai
  import opened BitTiming
  import opened BusState
  import opened FrameConversion

  // ---------------------------------------------------------------------
  // Constant responses

  /** The word the device answers IDENTIFY with. */
  const IDENTIFY_TOKEN: uint32 := 0xBEBA_FECA

  const CAN_CLOCK_SPEED: uint32 := 80_000_000

  /** One channel (icount 0), software version 2, hardware version 1. */
  const RESP_DEVICE_CONFIG: DeviceConfig := DeviceConfig(0, 0, 0, 0, 2, 1)

  /** The bit-timing limits advertised to the host. */
  const RESP_BT_CONST: DeviceBtConst :=
    DeviceBtConst(0, CAN_CLOCK_SPEED, 1, 16, 1, 8, 4, 1, 128, 1)

  /** The identify answer goes out as the bytes CA FE BA BE. */
  lemma IdentifyWireBytes()
    ensures EncodeU32(IDENTIFY_TOKEN) == [0xCA, 0xFE, 0xBA, 0xBE]
  {
  }

  /** The device-config answer on the wire. */
  lemma DeviceConfigWireBytes()
    ensures EncodeDeviceConfig(RESP_DEVICE_CONFIG) == [0, 0, 0, 0, 2, 0, 0, 0, 1, 0, 0, 0]
  {
  }

  /** Every timing within the advertised tseg ranges is accepted, whatever
      the width of the driver's fields. */
  lemma AdvertisedRangeAccepted(bt: DeviceBitTiming, w: FieldWidth)
    requires RESP_BT_CONST.tseg1Min <= bt.propSeg + bt.phaseSeg1 <= RESP_BT_CONST.tseg1Max
    requires RESP_BT_CONST.tseg2Min <= bt.phaseSeg2 <= RESP_BT_CONST.tseg2Max
    ensures Translate(bt, w).Accepted?
    ensures Translate(bt, w).config.tseg1 == bt.propSeg + bt.phaseSeg1
    ensures Translate(bt, w).config.tseg2 == bt.phaseSeg2
  {
    TranslateInRange(bt, w);
  }

  /** An accepted timing never exceeds the advertised maxima, but the
      advertised minima are not enforced: all-zero segments are accepted. */
  lemma AcceptedWithinAdvertisedMaxima(bt: DeviceBitTiming, w: FieldWidth)
    requires Translate(bt, w).Accepted?
    ensures Translate(bt, w).config.tseg1 <= RESP_BT_CONST.tseg1Max
    ensures Translate(bt, w).config.tseg2 <= RESP_BT_CONST.tseg2Max
  {
  }

  lemma ZeroSegmentsAccepted(w: FieldWidth)
    ensures Translate(DeviceBitTiming(0, 0, 0, 1, 1), w).Accepted?
    ensures Translate(DeviceBitTiming(0, 0, 0, 1, 1), w).config.tseg1 < RESP_BT_CONST.tseg1Min
  {
  }

  // ---------------------------------------------------------------------
  // Control requests

  /** The TinyUSB control stages the handler distinguishes. */
  datatype ControlStage = StageSetup | StageData | StageAck | StageOther

  /** The three static buffers an OUT request's data is received into. */
  datatype StagingBuffer = HostFormatBuffer | BitTimingBuffer | ModeBuffer

  function BufferSize(b: StagingBuffer): nat {
    match b
    case HostFormatBuffer => HOST_CONFIG_SIZE
    case BitTimingBuffer => BITTIMING_SIZE
    case ModeBuffer => MODE_SIZE
  }

  /** What the setup stage asks TinyUSB to do: send a payload to the host,
      receive the host's data into a buffer, or stall. */
  datatype SetupAction = RespondIn(payload: Bytes) | ReceiveOut(buffer: StagingBuffer) | Unsupported

  /** The setup-stage switch on bRequest. Only BERR, TIMESTAMP and codes
      beyond IDENTIFY are refused; each IN answer is one of the constant
      responses, encoded as its packed struct. */
  function SetupDispatch(bRequest: uint8): (a: SetupAction)
    ensures a.Unsupported? <==> bRequest == BREQ_BERR || bRequest == BREQ_TIMESTAMP || bRequest > BREQ_IDENTIFY
    ensures a.ReceiveOut? <==> bRequest <= BREQ_MODE
    ensures bRequest == BREQ_IDENTIFY ==>
      a.RespondIn? && |a.payload| == 4 && DecodeU32(a.payload) == IDENTIFY_TOKEN
    ensures bRequest == BREQ_DEVICE_CONFIG ==>
      a.RespondIn? && |a.payload| == DEVICE_CONFIG_SIZE && DecodeDeviceConfig(a.payload) == RESP_DEVICE_CONFIG
    ensures bRequest == BREQ_BT_CONST ==>
      a.RespondIn? && |a.payload| == BT_CONST_SIZE && DecodeBtConst(a.payload) == RESP_BT_CONST
    ensures bRequest == BREQ_HOST_FORMAT ==> a == ReceiveOut(HostFormatBuffer)
    ensures bRequest == BREQ_BITTIMING ==> a == ReceiveOut(BitTimingBuffer)
    ensures bRequest == BREQ_MODE ==> a == ReceiveOut(ModeBuffer)
  {
    if bRequest == BREQ_IDENTIFY then
      DecodeEncodeU32(IDENTIFY_TOKEN);
      RespondIn(EncodeU32(IDENTIFY_TOKEN))
    else if bRequest == BREQ_DEVICE_CONFIG then
      DeviceConfigRoundTrip(RESP_DEVICE_CONFIG);
      RespondIn(EncodeDeviceConfig(RESP_DEVICE_CONFIG))
    else if bRequest == BREQ_BT_CONST then
      BtConstRoundTrip(RESP_BT_CONST);
      RespondIn(EncodeBtConst(RESP_BT_CONST))
    else if bRequest == BREQ_HOST_FORMAT then ReceiveOut(HostFormatBuffer)
    else if bRequest == BREQ_BITTIMING then ReceiveOut(BitTimingBuffer)
    else if bRequest == BREQ_MODE then ReceiveOut(ModeBuffer)
    else Unsupported
  }

  /** The data stage: BITTIMING reconfigures the bus from the staged timing,
      MODE starts or resets it, and any other request, mode value or
      failure changes nothing beyond what those operations change. The
      handler answers true in every case. */
  function DataStage(f: Flags, bRequest: uint8, bt: DeviceBitTiming, mode: DeviceMode,
                     w: FieldWidth, installErr: EspErr, startErr: EspErr): (s: Step<()>)
    ensures Consistent(f) ==> Consistent(s.flags)
    ensures s.calls == [] ==> s.flags == f
    ensures bRequest != BREQ_BITTIMING && bRequest != BREQ_MODE ==> s == Step((), f, [])
    ensures bRequest == BREQ_BITTIMING ==>
      var r := Reconfigure(f, bt, w, installErr);
      s.flags == r.flags && s.calls == r.calls
    ensures bRequest == BREQ_MODE && mode.mode == CAN_MODE_START ==>
      var r := StartBus(f, startErr);
      s.flags == r.flags && s.calls == r.calls
    ensures bRequest == BREQ_MODE && mode.mode == CAN_MODE_RESET ==> s == StopBus(f)
  {
    if bRequest == BREQ_BITTIMING then
      var r := Reconfigure(f, bt, w, installErr);
      Step((), r.flags, r.calls)
    else if bRequest == BREQ_MODE then
      if mode.mode == CAN_MODE_START then
        var r := StartBus(f, startErr);
        Step((), r.flags, r.calls)
      else if mode.mode == CAN_MODE_RESET then
        StopBus(f)
      else
        Step((), f, [])
    else
      Step((), f, [])
  }

  /** MODE START before any BITTIMING is ignored: no driver call, no state change. */
  lemma StartBeforeBitTimingIgnored(bRequest: uint8, bt: DeviceBitTiming, mode: DeviceMode,
                                    w: FieldWidth, installErr: EspErr, startErr: EspErr)
    requires bRequest == BREQ_MODE && mode.mode == CAN_MODE_START
    ensures DataStage(INITIAL, bRequest, bt, mode, w, installErr, startErr) == Step((), INITIAL, [])
  {
  }

  /** Mode values other than RESET and START are ignored. */
  lemma UnknownModeIgnored(f: Flags, bt: DeviceBitTiming, mode: DeviceMode,
                           w: FieldWidth, installErr: EspErr, startErr: EspErr)
    requires mode.mode != CAN_MODE_START && mode.mode != CAN_MODE_RESET
    ensures DataStage(f, BREQ_MODE, bt, mode, w, installErr, startErr) == Step((), f, [])
  {
  }

  /** The host's usual sequence, BITTIMING then MODE START, with both
      driver calls succeeding, brings a fresh device up with exactly an
      install and a start; a MODE RESET then stops it with one more call. */
  lemma BringUpAndReset(bt: DeviceBitTiming, w: FieldWidth, start: DeviceMode, reset: DeviceMode, e: EspErr)
    requires Translate(bt, w).Accepted?
    requires start.mode == CAN_MODE_START && reset.mode == CAN_MODE_RESET
    ensures var s1 := DataStage(INITIAL, BREQ_BITTIMING, bt, start, w, EspOk, e);
      var s2 := DataStage(s1.flags, BREQ_MODE, bt, start, w, e, EspOk);
      var s3 := DataStage(s2.flags, BREQ_MODE, bt, reset, w, e, e);
      && s1.calls == [InstallCall(Translate(bt, w).config)] && s2.calls == [Twai.Start]
      && s2.flags == Flags(true, true)
      && s3.calls == [Twai.Stop] && s3.flags == Flags(true, false)
  {
  }

  // ---------------------------------------------------------------------
  // Bus to host

  /** What one pass of can_rx_task does: wait while the bus is down, write
      a converted frame, drop it when the host is not mounted or the USB
      buffer lacks room, go round again on a timeout, back off on another
      error. */
  datatype RxAction = Idle | Wrote(frame: Bytes) | DroppedFull | NotMounted | TimedOut | Backoff(err: EspErr)

  function RxStep(f: Flags, rxErr: EspErr, msg: TwaiMessage, mounted: bool, writeAvail: nat): (a: RxAction)
    ensures a == Idle <==> !Running(f)
    ensures a.Wrote? <==> Running(f) && rxErr == EspOk && mounted && writeAvail >= HOST_FRAME_SIZE
    ensures a.Wrote? ==> |a.frame| == HOST_FRAME_SIZE && DecodeHostFrame(a.frame) == TwaiToHost(msg)
    ensures a == DroppedFull <==> Running(f) && rxErr == EspOk && mounted && writeAvail < HOST_FRAME_SIZE
    ensures a == NotMounted <==> Running(f) && rxErr == EspOk && !mounted
    ensures a == TimedOut <==> Running(f) && rxErr == EspErrTimeout
    ensures a.Backoff? <==> Running(f) && rxErr != EspOk && rxErr != EspErrTimeout
  {
    if !Running(f) then Idle
    else if rxErr == EspOk then
      if !mounted then NotMounted
      else if writeAvail >= HOST_FRAME_SIZE then
        HostFrameRoundTrip(TwaiToHost(msg));
        Wrote(EncodeHostFrame(TwaiToHost(msg)))
      else DroppedFull
    else if rxErr == EspErrTimeout then TimedOut
    else Backoff(rxErr)
  }

  // ---------------------------------------------------------------------
  // Host to bus

  function FrameCount(fifo: Bytes): nat {
    |fifo| / HOST_FRAME_SIZE
  }

  /** The i-th whole frame in the receive FIFO. */
  function Chunk(fifo: Bytes, i: nat): (c: Bytes)
    requires i < FrameCount(fifo)
    ensures |c| == HOST_FRAME_SIZE
  {
    fifo[HOST_FRAME_SIZE * i .. HOST_FRAME_SIZE * i + HOST_FRAME_SIZE]
  }

  /** The messages handed to twai_transmit for the first k frames. */
  function TxMessages(fifo: Bytes, k: nat): (ms: seq<TwaiMessage>)
    requires k <= FrameCount(fifo)
    ensures |ms| == k
  {
    if k == 0 then [] else TxMessages(fifo, k - 1) + [HostToTwai(DecodeHostFrame(Chunk(fifo, k - 1)))]
  }

  /** Whether the i-th frame is echoed: its transmit succeeded and the USB
      buffer had room for a whole frame. */
  predicate Echoed(txErrs: seq<EspErr>, writeSpace: seq<nat>, i: nat)
    requires i < |txErrs| && i < |writeSpace|
  {
    txErrs[i] == EspOk && writeSpace[i] >= HOST_FRAME_SIZE
  }

  /** The bytes echoed to the host for the first k frames: each echoed
      frame's bytes exactly as the host sent them. */
  function Echoes(fifo: Bytes, txErrs: seq<EspErr>, writeSpace: seq<nat>, k: nat): (e: Bytes)
    requires k <= FrameCount(fifo) && k <= |txErrs| && k <= |writeSpace|
    ensures |e| % HOST_FRAME_SIZE == 0 && |e| <= HOST_FRAME_SIZE * k
  {
    if k == 0 then []
    else
      var prev := Echoes(fifo, txErrs, writeSpace, k - 1);
      if Echoed(txErrs, writeSpace, k - 1) then prev + Chunk(fifo, k - 1) else prev
  }

  /** The i-th message sent is frame i converted. */
  lemma {:induction false} TxMessagesAt(fifo: Bytes, k: nat, i: nat)
    requires i < k <= FrameCount(fifo)
    ensures TxMessages(fifo, k)[i] == HostToTwai(DecodeHostFrame(Chunk(fifo, i)))
    decreases k
  {
    if i < k - 1 {
      TxMessagesAt(fifo, k - 1, i);
    }
  }

  /** When every transmit succeeds and the USB side always has room, the
      host gets back every frame it sent, byte for byte and in order. */
  lemma {:induction false} EchoesAllWhenClear(fifo: Bytes, txErrs: seq<EspErr>, writeSpace: seq<nat>, k: nat)
    requires k <= FrameCount(fifo) && k <= |txErrs| && k <= |writeSpace|
    requires forall i :: 0 <= i < k ==> Echoed(txErrs, writeSpace, i)
    ensures Echoes(fifo, txErrs, writeSpace, k) == fifo[..HOST_FRAME_SIZE * k]
    decreases k
  {
    if k > 0 {
      EchoesAllWhenClear(fifo, txErrs, writeSpace, k - 1);
      assert fifo[..HOST_FRAME_SIZE * k] == fifo[..HOST_FRAME_SIZE * (k - 1)] + Chunk(fifo, k - 1);
    }
  }

  /** When no transmit succeeds, nothing is echoed. */
  lemma {:induction false} NoEchoWhenAllFail(fifo: Bytes, txErrs: seq<EspErr>, writeSpace: seq<nat>, k: nat)
    requires k <= FrameCount(fifo) && k <= |txErrs| && k <= |writeSpace|
    requires forall i :: 0 <= i < k ==> txErrs[i] != EspOk
    ensures Echoes(fifo, txErrs, writeSpace, k) == []
    decreases k
  {
    if k > 0 {
      NoEchoWhenAllFail(fifo, txErrs, writeSpace, k - 1);
    }
  }

  // ---------------------------------------------------------------------
  // The device

  function Min(a: nat, b: nat): nat {
    if a <= b then a else b
  }

  class Device {
    var canActive: bool
    var canInitialized: bool
    /** temp_bt, temp_mode and temp_host_format, as the bytes they hold. */
    var tempBt: Bytes
    var tempMode: Bytes
    var tempHostFormat: Bytes
    /** The width of the driver's timing fields, fixed by the build. */
    const width: FieldWidth
    /** Every driver call made, in order. */
    ghost var calls: seq<DriverCall>
    /** Every tud_control_xfer the setup stage made, in order. */
    ghost var transfers: seq<SetupAction>

    function State(): Flags
      reads this
    {
      Flags(canInitialized, canActive)
    }

    function Buffer(b: StagingBuffer): Bytes
      reads this
    {
      match b
      case HostFormatBuffer => tempHostFormat
      case BitTimingBuffer => tempBt
      case ModeBuffer => tempMode
    }

    ghost predicate Valid()
      reads this
    {
      && Consistent(State())
      && |tempBt| == BITTIMING_SIZE && |tempMode| == MODE_SIZE && |tempHostFormat| == HOST_CONFIG_SIZE
    }

    /** The static storage before anything runs: flags false, buffers zero. */
    constructor (width: FieldWidth)
      ensures Valid() && State() == INITIAL && this.width == width
      ensures tempBt == EncodeBitTiming(DeviceBitTiming(0, 0, 0, 0, 0))
      ensures tempMode == EncodeMode(DeviceMode(0, 0))
      ensures tempHostFormat == EncodeHostConfig(HostConfig(0))
      ensures calls == [] && transfers == []
    {
      canActive := false;
      canInitialized := false;
      tempBt := EncodeBitTiming(DeviceBitTiming(0, 0, 0, 0, 0));
      tempMode := EncodeMode(DeviceMode(0, 0));
      tempHostFormat := EncodeHostConfig(HostConfig(0));
      this.width := width;
      calls := [];
      transfers := [];
    }

    /** The OUT data of a control request landing in the buffer its setup
      stage named: at most the buffer's size is copied over its start, and
      the other buffers are untouched. */
    method ReceiveOutData(target: StagingBuffer, data: Bytes)
      requires Valid()
      modifies this`tempBt, this`tempMode, this`tempHostFormat
      ensures Valid() && State() == old(State())
      ensures var n := Min(|data|, BufferSize(target));
        Buffer(target) == data[..n] + old(Buffer(target))[n..]
      ensures forall b :: b != target ==> Buffer(b) == old(Buffer(b))
    {
      var n := Min(|data|, BufferSize(target));
      match target {
        case HostFormatBuffer => tempHostFormat := data[..n] + tempHostFormat[n..];
        case BitTimingBuffer => tempBt := data[..n] + tempBt[n..];
        case ModeBuffer => tempMode := data[..n] + tempMode[n..];
      }
    }

    /** set_can_bittiming, with installErr the result of twai_driver_install. */
    method SetCanBitTiming(bt: DeviceBitTiming, installErr: EspErr) returns (ok: bool)
      requires Valid()
      modifies this`canActive, this`canInitialized, this`calls
      ensures Valid()
      ensures var s := Reconfigure(old(State()), bt, width, installErr);
        ok == s.result && State() == s.flags && calls == old(calls) + s.calls
    {
      var t := TimingOf(bt, width);
      if t.tseg1 > TSEG1_LIMIT || t.tseg2 > TSEG2_LIMIT {
        return false;
      }
      if canInitialized {
        if canActive {
          calls := calls + [Twai.Stop];
          canActive := false;
        }
        calls := calls + [Uninstall];
      }
      calls := calls + [InstallCall(t)];
      if installErr != EspOk {
        canInitialized := false;
        return false;
      }
      canInitialized := true;
      return true;
    }

    /** stop_can: the outcome of twai_stop is only logged. */
    method StopCan()
      requires Valid()
      modifies this`canActive, this`calls
      ensures Valid()
      ensures var s := StopBus(old(State()));
        State() == s.flags && calls == old(calls) + s.calls
    {
      if !canInitialized {
        return;
      }
      if canActive {
        calls := calls + [Twai.Stop];
        canActive := false;
      }
    }

    /** tud_vendor_control_xfer_cb. xferOk is what tud_control_xfer
      returns, installErr and startErr what the driver returns to the data
      stage's calls. The setup stage changes no flag and answers false only
      for an unsupported request or a refused transfer; the data stage acts
      on the staged bytes and answers true; the other stages answer true. */
    method ControlXfer(stage: ControlStage, bRequest: uint8, xferOk: bool,
                       installErr: EspErr, startErr: EspErr) returns (r: bool)
      requires Valid()
      modifies this`canActive, this`canInitialized, this`calls, this`transfers
      ensures Valid()
      ensures stage == StageSetup ==>
        var a := SetupDispatch(bRequest);
        && r == (!a.Unsupported? && xferOk)
        && State() == old(State()) && calls == old(calls)
        && transfers == old(transfers) + (if a.Unsupported? then [] else [a])
      ensures stage == StageData ==>
        var s := DataStage(old(State()), bRequest, DecodeBitTiming(tempBt), DecodeMode(tempMode),
                           width, installErr, startErr);
        && r && State() == s.flags && calls == old(calls) + s.calls && transfers == old(transfers)
      ensures stage != StageSetup && stage != StageData ==>
        r && State() == old(State()) && calls == old(calls) && transfers == old(transfers)
    {
      match stage {
        case StageSetup =>
          var a := SetupDispatch(bRequest);
          if a.Unsupported? {
            return false;
          }
          transfers := transfers + [a];
          return xferOk;
        case StageData =>
          if bRequest == BREQ_BITTIMING {
            var ok := SetCanBitTiming(DecodeBitTiming(tempBt), installErr);
          } else if bRequest == BREQ_MODE {
            var mode := DecodeMode(tempMode);
            if mode.mode == CAN_MODE_START {
              if !canInitialized {
              } else if !canActive {
                calls := calls + [Twai.Start];
                if startErr == EspOk {
                  canActive := true;
                }
              }
            } else if mode.mode == CAN_MODE_RESET {
              StopCan();
            }
          }
          return true;
        case StageAck =>
          return true;
        case StageOther =>
          return true;
      }
    }

    /** One pass of can_rx_task's loop, with rxErr and msg what
      twai_receive hands back, mounted what tud_vendor_mounted says and
      writeAvail what tud_vendor_write_available says. */
    method CanRxPass(rxErr: EspErr, msg: TwaiMessage, mounted: bool, writeAvail: nat) returns (a: RxAction)
      ensures a == RxStep(State(), rxErr, msg, mounted, writeAvail)
    {
      if !canInitialized || !canActive {
        return Idle;
      }
      if rxErr == EspOk {
        if !mounted {
          return NotMounted;
        }
        var frame := TwaiToHost(msg);
        if writeAvail >= HOST_FRAME_SIZE {
          return Wrote(EncodeHostFrame(frame));
        }
        return DroppedFull;
      } else if rxErr == EspErrTimeout {
        return TimedOut;
      }
      return Backoff(rxErr);
    }

    /** The inner loop of usb_tx_task: while a whole frame is available,
      read it; while the bus is running, convert and transmit it and, when
      the transmit succeeded and the USB side has room, echo the frame's
      bytes unchanged. txErrs[i] and writeSpace[i] are the driver's answer
      and the free USB space for the i-th frame. Less than a frame stays in
      the FIFO. */
    method UsbTxDrain(fifo: Bytes, txErrs: seq<EspErr>, writeSpace: seq<nat>)
        returns (rest: Bytes, sent: seq<TwaiMessage>, echoed: Bytes)
      requires |txErrs| == FrameCount(fifo) && |writeSpace| == FrameCount(fifo)
      ensures rest == fifo[HOST_FRAME_SIZE * FrameCount(fifo)..] && |rest| < HOST_FRAME_SIZE
      ensures sent == (if Running(State()) then TxMessages(fifo, FrameCount(fifo)) else [])
      ensures echoed == (if Running(State()) then Echoes(fifo, txErrs, writeSpace, FrameCount(fifo)) else [])
    {
      rest := fifo;
      sent := [];
      echoed := [];
      var k := 0;
      while |rest| >= HOST_FRAME_SIZE
        invariant 0 <= k <= FrameCount(fifo)
        invariant rest == fifo[HOST_FRAME_SIZE * k..]
        invariant sent == (if Running(State()) then TxMessages(fifo, k) else [])
        invariant echoed == (if Running(State()) then Echoes(fifo, txErrs, writeSpace, k) else [])
        decreases |rest|
      {
        var frameBytes := rest[..HOST_FRAME_SIZE];
        rest := rest[HOST_FRAME_SIZE..];
        assert frameBytes == Chunk(fifo, k);
        if canInitialized && canActive {
          var msg := HostToTwai(DecodeHostFrame(frameBytes));
          sent := sent + [msg];
          if txErrs[k] == EspOk && writeSpace[k] >= HOST_FRAME_SIZE {
            echoed := echoed + frameBytes;
          }
        }
        k := k + 1;
      }
    }
  }

  /** Two frames from the host on a running bus, the first transmitted and
      echoed, the second refused by the driver: both are sent to the
      driver, only the first comes back, and nothing is left over. */
  method TwoFrameDrain(d: Device, f1: HostFrame, f2: HostFrame)
      returns (rest: Bytes, sent: seq<TwaiMessage>, echoed: Bytes)
    requires Running(d.State())
    ensures rest == [] && sent == [HostToTwai(f1), HostToTwai(f2)] && echoed == EncodeHostFrame(f1)
  {
    var fifo := EncodeHostFrame(f1) + EncodeHostFrame(f2);
    assert FrameCount(fifo) == 2;
    rest, sent, echoed := d.UsbTxDrain(fifo, [EspOk, EspErrTimeout], [64, 64]);
    assert Chunk(fifo, 0) == EncodeHostFrame(f1);
    assert Chunk(fifo, 1) == EncodeHostFrame(f2);
    HostFrameRoundTrip(f1);
    HostFrameRoundTrip(f2);
  }
}

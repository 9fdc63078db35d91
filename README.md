# candleLight gs_usb gateway for the ESP32 — Dafny model

The firmware makes an ESP32 look like a gs_usb ("candleLight") USB-to-CAN
adapter. A host sends vendor control requests to read the device's
constants, set the bit timing and start or reset the bus. It exchanges
20-byte `gs_host_frame` records with the device over bulk endpoints. The
device turns those records into TWAI (CAN) driver messages and back.

The model covers four parts:

- **Wire formats** (`GsUsb`, gs_usb.dfy). These are the request and mode
  codes and the six packed little-endian structs of `gs_usb.h`. Each struct
  has an encoder and a decoder. Every decoder's own contract is that
  re-encoding its result gives back the bytes read, and a lemma per struct
  proves decode(encode(x)) == x. Each struct's field offsets are stated by a
  layout lemma, except `gs_host_config`, which is a single word.
- **Bit-timing translation** (`BitTiming`, bit_timing.dfy).
  - `tseg_1 = prop_seg + phase_seg1` is computed modulo 2^32.
  - Each value is stored into a timing field of an assumed width (`Twai.FieldWidth`).
  - The timing is rejected only when `tseg_1 > 16` or `tseg_2 > 8`.
- **Bus state machine** (`BusState`, bus_state.dfy). These functions give
  the transitions of the two flags `can_initialized` and `can_active`.
  - They cover reconfigure, start and stop, and which driver calls each one makes.
  - The invariant `can_active ⇒ can_initialized` is proved over any sequence of operations.
  - The two copies of the state machine are separate classes, and each is proved to follow these functions:
    - `GsUsbCan.CanController` for gsusb_can.cpp, which also records LED status reports;
    - `GsUsbDevice.Device` for gsusb_device.cpp, which has its own flags and no LED reports.
- **Device protocol** (`GsUsbDevice`, gsusb_device.dfy; `FrameConversion`,
  frame_conversion.dfy).
  - The control handler covers three stages:
    - setup: a dispatch on `bRequest` to a constant IN answer, a staging buffer, or a stall;
    - data: BITTIMING or MODE is applied to the flags;
    - ack.
  - The two frame conversions use SocketCAN's `can_id` layout. Bit 31 marks an
    extended identifier, bit 30 a remote frame, and the low 29 bits hold the identifier.
  - One pass of the receive task either writes a frame or drops it.
  - The transmit task drains whole frames, transmits them and echoes them.

The TWAI driver and TinyUSB are not modelled. Each call whose outcome the
code acts on takes that outcome as a parameter. Results the code ignores are
not modelled: those of stop and uninstall during reconfigure, and that of stop
in `stop_can`. What is observed of the calls differs by operation:

- The driver calls that change the bus state (install, uninstall, start,
  stop) and the receive and transmit calls of `GsUsbCan.CanController` are
  recorded in a ghost sequence `calls`.
- The receive pass of `GsUsbDevice.Device` (`CanRxPass`) takes the outcome of
  `twai_receive` as a parameter and records no call. Its result is an action
  that says what is written to the host.
- The drain of `GsUsbDevice.Device` (`UsbTxDrain`) returns the messages
  passed to `twai_transmit` and the bytes echoed to the host.
- The TinyUSB transfers the setup stage starts are recorded in the ghost sequence
  `transfers`. Reads, writes and flushes of the vendor FIFOs are not recorded.

Notes on the code's behaviour:

- A `gs_host_frame` is 20 bytes (4 + 4 + 1 + 1 + 1 + 1 + 8).
- Fewer than 20 bytes left in the USB FIFO stay there: the drain loop simply
  stops. They are not discarded.
- The bit timing is checked only against the maxima 16 and 8. The advertised
  minima are not enforced (`GsUsbDevice.ZeroSegmentsAccepted`), and neither
  are `sjw_max` or the `brp` range (`BitTiming.SjwAndBrpUnchecked`).
- The control handler answers every data stage with success, even when the
  install fails or the timing is rejected.

## Model

| member | source | states |
|---|---|---|
| GsUsb.RequestCodesDistinct | definitions/gs_usb.h:4-11 | the eight request codes are 0..7 and pairwise distinct |
| GsUsb.EncodeU32 | definitions/gs_usb.h:22-23 | a uint32_t field occupies four bytes |
| GsUsb.DecodeU32 | definitions/gs_usb.h:22-23 | encoding the word read from four little-endian bytes gives the same four bytes |
| GsUsb.DecodeEncodeU32 | definitions/gs_usb.h:22-23 | decoding the four little-endian bytes of a word gives the word back |
| GsUsb.EncodeWords | definitions/gs_usb.h:26-38 | a run of n uint32_t fields occupies 4n bytes |
| GsUsb.DecodeWords | definitions/gs_usb.h:26-38 | 4n bytes read as n words, which re-encode to the same bytes |
| GsUsb.DecodeEncodeWords | definitions/gs_usb.h:26-38 | a packed run of words decodes to the same words |
| GsUsb.EncodeWordsAt | definitions/gs_usb.h:26-38 | word i of a packed run sits at byte offset 4i |
| GsUsb.EncodeDeviceConfig | definitions/gs_usb.h:16-24 | gs_device_config is 12 bytes |
| GsUsb.DecodeDeviceConfig | definitions/gs_usb.h:16-24 | any 12 bytes read as a gs_device_config re-encode to themselves |
| GsUsb.DeviceConfigLayout | definitions/gs_usb.h:16-24 | reserved1, reserved2, reserved3, icount at offsets 0 to 3, sw_version at 4, hw_version at 8 |
| GsUsb.DeviceConfigRoundTrip | definitions/gs_usb.h:16-24 | decode(encode(c)) == c |
| GsUsb.EncodeBtConst | definitions/gs_usb.h:26-38 | gs_device_bt_const is 40 bytes |
| GsUsb.DecodeBtConst | definitions/gs_usb.h:26-38 | any 40 bytes read as a gs_device_bt_const re-encode to themselves |
| GsUsb.BtConstLayout | definitions/gs_usb.h:26-38 | its ten words sit in declared order, word i at offset 4i |
| GsUsb.BtConstRoundTrip | definitions/gs_usb.h:26-38 | decode(encode(c)) == c |
| GsUsb.EncodeBitTiming | definitions/gs_usb.h:40-47 | gs_device_bittiming is 20 bytes |
| GsUsb.DecodeBitTiming | gsusb_device/gsusb_device.cpp:247 | the 20 staged bytes read as a gs_device_bittiming re-encode to themselves |
| GsUsb.BitTimingLayout | definitions/gs_usb.h:40-47 | prop_seg, phase_seg1, phase_seg2, sjw, brp at offsets 0, 4, 8, 12, 16 |
| GsUsb.BitTimingRoundTrip | definitions/gs_usb.h:40-47 | decode(encode(t)) == t |
| GsUsb.EncodeMode | definitions/gs_usb.h:49-53 | gs_device_mode is 8 bytes |
| GsUsb.DecodeMode | gsusb_device/gsusb_device.cpp:257 | the 8 staged bytes read as a gs_device_mode re-encode to themselves |
| GsUsb.ModeLayout | definitions/gs_usb.h:49-53 | mode at offset 0, flags at offset 4 |
| GsUsb.ModeRoundTrip | definitions/gs_usb.h:49-53 | decode(encode(m)) == m |
| GsUsb.EncodeHostFrame | definitions/gs_usb.h:55-64 | gs_host_frame is 20 bytes |
| GsUsb.DecodeHostFrame | gsusb_device/gsusb_device.cpp:427 | the 20 bytes read from the FIFO as a gs_host_frame re-encode to themselves |
| GsUsb.HostFrameLayout | definitions/gs_usb.h:55-64 | echo_id at 0, can_id at 4, can_dlc 8, channel 9, flags 10, reserved 11, data 12..19 |
| GsUsb.HostFrameRoundTrip | definitions/gs_usb.h:55-64 | decode(encode(f)) == f |
| GsUsb.EncodeHostConfig | definitions/gs_usb.h:66-69 | gs_host_config is a single 4-byte word |
| GsUsb.DecodeHostConfig | definitions/gs_usb.h:66-69 | any 4 bytes read as a gs_host_config re-encode to themselves |
| GsUsb.HostConfigRoundTrip | definitions/gs_usb.h:66-69 | decode(encode(c)) == c |
| Twai.Narrow | gsusb_device/gsusb_can.cpp:64-68 | storing a uint32_t into a timing field keeps the value (32-bit field) or its low byte (8-bit field) |
| BitTiming.AddU32 | gsusb_device/gsusb_can.cpp:66 | the uint32_t sum is exact below 2^32 and loses 2^32 above |
| BitTiming.TimingOf | gsusb_device/gsusb_can.cpp:64-69 | brp copied, tseg_1 the wrapped sum narrowed, tseg_2 and sjw narrowed, no triple sampling |
| BitTiming.Translate | gsusb_device/gsusb_can.cpp:81-85 | accepted iff tseg_1 ≤ 16 and tseg_2 ≤ 8, and then the configuration is the one built from the host's values |
| BitTiming.TranslateWide | gsusb_device/gsusb_device.cpp:83-104 | with 32-bit fields, rejected iff (prop_seg + phase_seg1) mod 2^32 > 16 or phase_seg2 > 8; the accepted configuration carries those values |
| BitTiming.TranslateInRange | gsusb_device/gsusb_device.cpp:83-104 | a timing whose segments are within the limits is accepted at any field width, with tseg_1 the exact sum |
| BitTiming.WrappedSumAccepted | gsusb_device/gsusb_device.cpp:85 | prop_seg 0xFFFFFFFF with phase_seg1 2 wraps to tseg_1 = 1 and is accepted |
| BitTiming.NarrowFieldAcceptsLargePhaseSeg2 | gsusb_device/gsusb_device.cpp:86 | with 8-bit fields a phase_seg2 of 264 is stored as 8 and accepted |
| BitTiming.SjwAndBrpUnchecked | gsusb_device/gsusb_device.cpp:100-104 | acceptance depends only on the three segment fields, never on sjw or brp |
| BitTiming.ExampleTiming | gsusb_device/gsusb_can.cpp:64-85 | prop 1, phase1 3, phase2 2, sjw 1, brp 10 gives tseg_1 4, tseg_2 2 |
| BusState.PhaseOf | gsusb_device/gsusb_can.cpp:17-18 | consistent flags encode uninitialized, configured or active |
| BusState.InstallCall | gsusb_device/gsusb_can.cpp:56-62 | twai_driver_install gets 20-deep transmit and receive queues, the RX_DATA, BUS_OFF and BUS_ERROR alerts, the accept-all filter and the translated timing |
| BusState.Reconfigure | gsusb_device/gsusb_can.cpp:89-120 | true iff accepted and installed; a rejection changes nothing and calls nothing; otherwise initialized = install success, active false, the install is the last call, consistency kept |
| BusState.StartBus | gsusb_device/gsusb_can.cpp:123-150 | INVALID_STATE with no change before configuration; OK with no call while active; otherwise exactly one twai_start whose success sets active; OK iff active afterwards |
| BusState.StopBus | gsusb_device/gsusb_can.cpp:152-178 | exactly one twai_stop when running and no call otherwise; afterwards never active when initialized; nothing changes when not initialized |
| BusState.ReconfigureTearsDownFirst | gsusb_device/gsusb_device.cpp:109-137 | from active: stop, uninstall, install; from configured: uninstall, install; from uninitialized: install; ends configured iff the install succeeded |
| BusState.StopIdempotent | gsusb_device/gsusb_device.cpp:140-165 | a second stop changes nothing and calls nothing |
| BusState.StartIdempotent | gsusb_device/gsusb_can.cpp:131-135 | a start after a successful start returns OK with no driver call |
| BusState.RunKeepsConsistent | gsusb_device/gsusb_can.cpp:17-196 | can_active ⇒ can_initialized holds after any sequence of init, configure, start, stop, transmit and receive |
| BusState.OnlyStartActivates | gsusb_device/gsusb_can.cpp:137-140 | the bus becomes active only through a successful start of an installed driver |
| BusState.OnlyFailedInstallDeinitializes | gsusb_device/gsusb_can.cpp:109-116 | the driver is lost only through init or a failed reconfigure, and the bus is then not active |
| FrameConversion.IdentifierOf | gsusb_device/gsusb_device.cpp:448 | can_id & 0x1FFFFFFF is at most 29 bits |
| FrameConversion.HasEff | gsusb_device/gsusb_device.cpp:446 | the extended flag is read from bit 31 of can_id |
| FrameConversion.HasRtr | gsusb_device/gsusb_device.cpp:447 | the remote flag is read from bit 30 of can_id, whatever bit 31 is |
| FrameConversion.SetEff | gsusb_device/gsusb_device.cpp:353-357 | ORing CAN_EFF_FLAG sets bit 31 |
| FrameConversion.SetRtr | gsusb_device/gsusb_device.cpp:358-362 | ORing CAN_RTR_FLAG sets bit 30 |
| FrameConversion.ClampDlc | gsusb_device/gsusb_device.cpp:364-368 | a length code above 8 becomes 8, others are kept |
| FrameConversion.CopyPrefix | gsusb_device/gsusb_device.cpp:370-373 | the first n payload bytes are copied and the rest are zero |
| FrameConversion.HostToTwai | gsusb_device/gsusb_device.cpp:445-452 | the message has a 29-bit identifier, a length code ≤ 8 and zeros past it |
| FrameConversion.TwaiToHost | gsusb_device/gsusb_device.cpp:344-373 | echo_id 0xFFFFFFFF, channel, flags and reserved zero, length code ≤ 8 with zeros past it, bit 31 set for an extended message |
| FrameConversion.CanIdParts | gsusb_device/gsusb_device.cpp:446-448 | with bit 29 clear, can_id is the identifier plus the two flag weights |
| FrameConversion.FlagsOrIntoIdentifier | gsusb_device/gsusb_device.cpp:351-362 | ORing the flags into a 29-bit identifier reads back as the same flags and identifier |
| FrameConversion.BusHostBusRoundTrip | gsusb_device/gsusb_device.cpp:344-373 | bus → host → bus gives back identifier, extd, rtr, the clamped length and the payload prefix |
| FrameConversion.HostBusHostRoundTrip | gsusb_device/gsusb_device.cpp:445-452 | host → bus → host keeps can_id when bit 29 is clear, clamps the length, zeroes the tail and resets echo_id, channel, flags and reserved |
| FrameConversion.Bit29Dropped | gsusb_device/gsusb_device.cpp:448 | bit 29 of a host can_id does not reach the bus |
| FrameConversion.ExampleExtendedRx | gsusb_device/gsusb_device.cpp:344-373 | extended identifier 0x18DA10F1 reaches the host as can_id 0x98DA10F1 |
| FrameConversion.ExampleStandardTx | gsusb_device/gsusb_device.cpp:445-452 | echo_id 7, identifier 0x1A3, length 4: only the first four bytes go to the bus |
| FrameConversion.ExampleDlcClamped | gsusb_device/gsusb_device.cpp:449-451 | a length code of 15 is sent as 8 with the whole payload |
| GsUsbCan.StartLeds | gsusb_device/gsusb_can.cpp:137-148 | a status report iff twai_start is called; ACTIVE iff it succeeds, ERROR when it fails |
| GsUsbCan.StopLeds | gsusb_device/gsusb_can.cpp:159-173 | a status report iff twai_stop is called; OFF iff it succeeds, ERROR when it fails |
| GsUsbCan.CanController.constructor | gsusb_device/gsusb_can.cpp:17-19 | both flags false, no mutex, nothing recorded |
| GsUsbCan.CanController.Init | gsusb_device/gsusb_can.cpp:21-37 | both flags cleared; the mutex is created only when absent |
| GsUsbCan.CanController.GetMutex | gsusb_device/gsusb_can.cpp:39-42 | a handle is returned iff the mutex exists |
| GsUsbCan.CanController.IsInitialized | gsusb_device/gsusb_can.cpp:44-47 | true iff a driver is installed, with nothing changed |
| GsUsbCan.CanController.IsActive | gsusb_device/gsusb_can.cpp:49-52 | true iff the bus is running, with nothing changed |
| GsUsbCan.CanController.SetBitTiming | gsusb_device/gsusb_can.cpp:54-121 | follows BusState.Reconfigure for result, flags and driver calls; keeps the invariant |
| GsUsbCan.CanController.Start | gsusb_device/gsusb_can.cpp:123-150 | follows BusState.StartBus; LED reports as StartLeds; keeps the invariant |
| GsUsbCan.CanController.Stop | gsusb_device/gsusb_can.cpp:152-178 | follows BusState.StopBus; LED reports as StopLeds; keeps the invariant |
| GsUsbCan.CanController.Receive | gsusb_device/gsusb_can.cpp:180-187 | INVALID_STATE with no driver call unless running; otherwise one twai_receive whose result is returned |
| GsUsbCan.CanController.Transmit | gsusb_device/gsusb_can.cpp:189-196 | INVALID_STATE with no driver call unless running; otherwise one twai_transmit whose result is returned |
| GsUsbCan.ConfigureStartStop | gsusb_device/gsusb_can.cpp:54-178 | configure, start and stop from scratch: calls install, start, stop; LEDs ACTIVE then OFF; ends configured |
| GsUsbDevice.IdentifyWireBytes | gsusb_device/gsusb_device.cpp:35 | the identify word goes out as CA FE BA BE |
| GsUsbDevice.DeviceConfigWireBytes | gsusb_device/gsusb_device.cpp:41-48 | the device-config answer is twelve bytes with sw_version 2 and hw_version 1 |
| GsUsbDevice.AdvertisedRangeAccepted | gsusb_device/gsusb_device.cpp:50-61 | every timing within the advertised tseg_1 and tseg_2 ranges is accepted, at any field width |
| GsUsbDevice.AcceptedWithinAdvertisedMaxima | gsusb_device/gsusb_device.cpp:100-104 | an accepted timing never exceeds the advertised tseg maxima |
| GsUsbDevice.ZeroSegmentsAccepted | gsusb_device/gsusb_device.cpp:53-55 | segments below the advertised minima are still accepted |
| GsUsbDevice.SetupDispatch | gsusb_device/gsusb_device.cpp:179-228 | stalls exactly BERR, TIMESTAMP and codes above 7; HOST_FORMAT, BITTIMING and MODE receive into the host-format, bit-timing and mode buffers; IDENTIFY, DEVICE_CONFIG and BT_CONST answer with payloads that decode to the constant responses |
| GsUsbDevice.DataStage | gsusb_device/gsusb_device.cpp:231-293 | BITTIMING has the flags and driver calls of BusState.Reconfigure; MODE START those of BusState.StartBus; MODE RESET is BusState.StopBus; other requests change nothing; no driver call means no change; keeps the invariant |
| GsUsbDevice.StartBeforeBitTimingIgnored | gsusb_device/gsusb_device.cpp:257-262 | MODE START before any BITTIMING changes nothing and calls nothing |
| GsUsbDevice.UnknownModeIgnored | gsusb_device/gsusb_device.cpp:286-289 | a mode other than START or RESET changes nothing |
| GsUsbDevice.BringUpAndReset | gsusb_device/gsusb_device.cpp:235-285 | BITTIMING then START brings the bus up with one install and one start; RESET stops it with one stop |
| GsUsbDevice.RxStep | gsusb_device/gsusb_device.cpp:332-408 | idle iff not running; writes iff received, mounted and 20 bytes free, and the bytes decode to the converted frame; drops iff no room; timeout and other errors distinguished |
| GsUsbDevice.Chunk | gsusb_device/gsusb_device.cpp:427 | each read takes one whole 20-byte frame |
| GsUsbDevice.TxMessages | gsusb_device/gsusb_device.cpp:445-454 | one message per frame read |
| GsUsbDevice.Echoes | gsusb_device/gsusb_device.cpp:454-469 | the echo is a whole number of frames, at most one per frame read |
| GsUsbDevice.TxMessagesAt | gsusb_device/gsusb_device.cpp:445-454 | the i-th message sent is the i-th frame converted |
| GsUsbDevice.EchoesAllWhenClear | gsusb_device/gsusb_device.cpp:454-469 | when every transmit succeeds with room to write, the host gets back every frame byte for byte, in order |
| GsUsbDevice.NoEchoWhenAllFail | gsusb_device/gsusb_device.cpp:455-458 | when no transmit succeeds, nothing is echoed |
| GsUsbDevice.Device.constructor | gsusb_device/gsusb_device.cpp:64-66 | both flags false and the staging buffers zero |
| GsUsbDevice.Device.ReceiveOutData | gsusb_device/gsusb_device.cpp:204-223 | OUT data lands in the buffer the setup stage named, at most its size, and the other buffers are untouched |
| GsUsbDevice.Device.SetCanBitTiming | gsusb_device/gsusb_device.cpp:73-138 | follows BusState.Reconfigure for result, flags and driver calls; keeps the invariant |
| GsUsbDevice.Device.StopCan | gsusb_device/gsusb_device.cpp:140-165 | follows BusState.StopBus; keeps the invariant |
| GsUsbDevice.Device.ControlXfer | gsusb_device/gsusb_device.cpp:167-302 | setup: false iff stalled or the transfer is refused, with the flags untouched; data: follows DataStage on the staged bytes and answers true; ack and others: true, nothing changed |
| GsUsbDevice.Device.CanRxPass | gsusb_device/gsusb_device.cpp:330-409 | one pass of the receive loop does what RxStep says for the current flags |
| GsUsbDevice.Device.UsbTxDrain | gsusb_device/gsusb_device.cpp:425-477 | consumes every whole frame and leaves fewer than 20 bytes; transmits each converted frame only while running; echoes the original bytes of exactly the frames whose transmit succeeded with room to write |
| GsUsbDevice.TwoFrameDrain | gsusb_device/gsusb_device.cpp:425-477 | two frames, the second refused by the driver: both are transmitted, only the first is echoed, nothing is left |

## Left out

- Concurrency is not modelled. That covers the FreeRTOS mutex, task creation, task notification, delays and the
  receive ISR `tud_vendor_rx_cb` (gsusb_device/gsusb_device.cpp:305-317). Each
  task's loop body is one sequential step, so the flags cannot change while a drain runs.
- The TWAI driver and TinyUSB are outside the model. Their results are parameters; which of their
  calls are observed is listed above. The 1000 ms receive timeout (`pdMS_TO_TICKS(1000)`) and the 0-tick transmit
  timeout appear only as recorded arguments or not at all. Logging is not modelled.
- GsUsbDevice.Device.UsbTxDrain: assumes `tud_vendor_read` returns a whole
  frame whenever 20 bytes are available. So the branch for a short read, which only logs,
  is not modelled.
- GsUsbDevice.Device.CanRxPass: the count returned by `tud_vendor_write` is
  only logged by the code, so a short write counts as written.
- GsUsbDevice.Device.ControlXfer: the direction bit and `wLength` of the setup
  packet are not inspected by the code and are not modelled. What TinyUSB copies
  into a staging buffer is modelled separately by `ReceiveOutData`.
- Twai.Narrow: the width of the `tseg_1`, `tseg_2` and `sjw` fields of
  `twai_timing_config_t` is an explicit parameter. driver/twai.h is not part of this model.
- The contents of the HOST_FORMAT request are stored and never read. The unused
  `gs_resp_host_format` constant (gsusb_device/gsusb_device.cpp:37-39) is not modelled.
- USB descriptors, `gsusb_init` and `tinyusb_task` are not modelled; they are startup plumbing.
  main.cpp, the LED service (only the status values sent to it are recorded),
  the debug helpers and gsusb_can.h are not part of this model.

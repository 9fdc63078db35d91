/** The interface of the ESP-IDF TWAI (CAN) driver as the gateway consumes it.
    driver/twai.h is not part of this model: the driver's calls are recorded
    as DriverCall values and their outcomes are parameters of the operations
    that make them. */
module Twai {
  import opened GsUsb

  /** esp_err_t values the core distinguishes; EspErrOther stands for any other code. */
  datatype EspErr = EspOk | EspErrInvalidState | EspErrTimeout | EspErrOther(code: int)

  /** twai_message_t, with the flag bits the core sets (extd, rtr); the other
      flag bits stay zero because the core clears the message first. */
  datatype TwaiMessage = TwaiMessage(
    extd: bool, rtr: bool, identifier: uint32, dataLengthCode: uint8, data: Bytes8)

  /** Width of the tseg_1, tseg_2 and sjw fields of twai_timing_config_t.
      The header that declares them is not part of this model, so the width
      is an explicit assumption: Width8 for uint8_t fields, Width32 for
      fields as wide as the uint32_t values the host sends. */
  datatype FieldWidth = Width8 | Width32

  /** Storing a uint32_t value into a timing field of the given width keeps
      its low-order bits. */
  function Narrow(x: uint32, w: FieldWidth): (r: uint32)
    ensures w == Width32 ==> r == x
    ensures w == Width8 ==> r < 0x100 && r == x % 0x100
  {
    match w
    case Width8 => x % 0x100
    case Width32 => x
  }

  /** twai_timing_config_t: each field holds a value Narrow has already cut to the field's width. */
  datatype TimingConfig = TimingConfig(
    brp: uint32, tseg1: uint32, tseg2: uint32, sjw: uint32, tripleSampling: bool)

  datatype Alert = AlertRxData | AlertBusOff | AlertBusError

  /** The general configuration both copies of the bit-timing code install:
      normal mode, 20-deep transmit and receive queues, three alerts. */
  datatype GeneralConfig = GeneralConfig(txQueueLen: nat, rxQueueLen: nat, alerts: set<Alert>)

  const INSTALL_GENERAL: GeneralConfig :=
    GeneralConfig(20, 20, {AlertRxData, AlertBusOff, AlertBusError})

  /** TWAI_FILTER_CONFIG_ACCEPT_ALL is the only filter the core installs. */
  datatype FilterConfig = AcceptAll

  datatype DriverCall =
    | Install(general: GeneralConfig, timing: TimingConfig, filter: FilterConfig)
    | Uninstall
    | Start
    | Stop
    | Transmit(msg: TwaiMessage, timeout: nat)
    | Receive(timeout: nat)
}

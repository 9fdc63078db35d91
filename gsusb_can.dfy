/** The bus controller of gsusb_can.cpp: the two flags and the mutex handle
    it keeps, the LED status it reports, and the driver calls it makes. Its
    transitions are those of BusState; each method is proved to follow them
    and to keep can_active implying can_initialized. */
module GsUsbCan {
  import opened GsUsb
  import opened Twai
  import opened BitTiming
  import opened BusState

  /** The status values the controller sends to the LED service. */
  datatype LedStatus = LedActive | LedError | LedOff

  /** The LED report of gsusb_can_start: one report after a call to
      twai_start, none when the call is skipped. */
  function StartLeds(f: Flags, startErr: EspErr): (r: seq<LedStatus>)
    ensures r != [] <==> f.initialized && !f.active
    ensures r == [LedActive] <==> f.initialized && !f.active && startErr == EspOk
    ensures f.initialized && !f.active && startErr != EspOk ==> r == [LedError]
  {
    if f.initialized && !f.active then [if startErr == EspOk then LedActive else LedError] else []
  }

  /** The LED report of gsusb_can_stop: one report after a call to
      twai_stop, none when the call is skipped. */
  function StopLeds(f: Flags, stopErr: EspErr): (r: seq<LedStatus>)
    ensures r != [] <==> Running(f)
    ensures r == [LedOff] <==> Running(f) && stopErr == EspOk
    ensures Running(f) && stopErr != EspOk ==> r == [LedError]
  {
    if Running(f) then [if stopErr == EspOk then LedOff else LedError] else []
  }

  class CanController {
    var active: bool
    var initialized: bool
    /** can_mutex is non-null. */
    var mutexCreated: bool
    /** The width of the driver's timing fields, fixed by the build. */
    const width: FieldWidth
    /** Every LED status reported, in order. */
    ghost var leds: seq<LedStatus>
    /** Every driver call made, in order. */
    ghost var calls: seq<DriverCall>
    /** Every call to xSemaphoreCreateMutex. */
    ghost var mutexCreateCalls: nat

    function State(): Flags
      reads this
    {
      Flags(initialized, active)
    }

    ghost predicate Valid()
      reads this
    {
      Consistent(State())
    }

    /** The static storage before anything runs: both flags false, no mutex. */
    constructor (width: FieldWidth)
      ensures Valid() && State() == INITIAL && !mutexCreated
      ensures this.width == width && leds == [] && calls == [] && mutexCreateCalls == 0
    {
      active := false;
      initialized := false;
      mutexCreated := false;
      this.width := width;
      leds := [];
      calls := [];
      mutexCreateCalls := 0;
    }

    /** gsusb_can_init: creates the mutex only when there is none yet
      (createOk is whether that creation succeeds) and clears both flags. */
    method Init(createOk: bool)
      modifies this`active, this`initialized, this`mutexCreated, this`mutexCreateCalls
      ensures Valid() && State() == INITIAL
      ensures mutexCreated == (old(mutexCreated) || createOk)
      ensures mutexCreateCalls == old(mutexCreateCalls) + (if old(mutexCreated) then 0 else 1)
    {
      if !mutexCreated {
        mutexCreateCalls := mutexCreateCalls + 1;
        mutexCreated := createOk;
      }
      active := false;
      initialized := false;
    }

    /** gsusb_can_get_mutex: whether a mutex handle is returned. */
    method GetMutex() returns (present: bool)
      ensures present == mutexCreated
    {
      present := mutexCreated;
    }

    /** gsusb_can_is_initialized: true exactly when a driver is installed. */
    method IsInitialized() returns (r: bool)
      requires Valid()
      ensures r <==> PhaseOf(State()) != Uninitialized
    {
      r := initialized;
    }

    /** gsusb_can_is_active: true exactly when the bus is running. */
    method IsActive() returns (r: bool)
      requires Valid()
      ensures r <==> PhaseOf(State()) == Active
    {
      r := active;
    }

    /** gsusb_can_set_bittiming, with installErr the result of
      twai_driver_install. */
    method SetBitTiming(bt: DeviceBitTiming, installErr: EspErr) returns (ok: bool)
      requires Valid()
      modifies this`active, this`initialized, this`calls
      ensures Valid()
      ensures var s := Reconfigure(old(State()), bt, width, installErr);
        ok == s.result && State() == s.flags && calls == old(calls) + s.calls
    {
      var t := TimingOf(bt, width);
      if t.tseg1 > TSEG1_LIMIT || t.tseg2 > TSEG2_LIMIT {
        return false;
      }
      if initialized {
        if active {
          calls := calls + [Twai.Stop];
          active := false;
        }
        calls := calls + [Uninstall];
      }
      calls := calls + [InstallCall(t)];
      if installErr != EspOk {
        initialized := false;
        return false;
      }
      initialized := true;
      return true;
    }

    /** gsusb_can_start, with startErr the result of twai_start. */
    method Start(startErr: EspErr) returns (err: EspErr)
      requires Valid()
      modifies this`active, this`leds, this`calls
      ensures Valid()
      ensures var s := StartBus(old(State()), startErr);
        err == s.result && State() == s.flags && calls == old(calls) + s.calls
      ensures leds == old(leds) + StartLeds(old(State()), startErr)
    {
      if !initialized {
        return EspErrInvalidState;
      }
      if active {
        return EspOk;
      }
      calls := calls + [Twai.Start];
      err := startErr;
      if err == EspOk {
        active := true;
        leds := leds + [LedActive];
      } else {
        leds := leds + [LedError];
      }
    }

    /** gsusb_can_stop, with stopErr the result of twai_stop. */
    method Stop(stopErr: EspErr)
      requires Valid()
      modifies this`active, this`leds, this`calls
      ensures Valid()
      ensures var s := StopBus(old(State()));
        State() == s.flags && calls == old(calls) + s.calls
      ensures leds == old(leds) + StopLeds(old(State()), stopErr)
    {
      if !initialized {
        return;
      }
      if active {
        calls := calls + [Twai.Stop];
        if stopErr == EspOk {
          leds := leds + [LedOff];
        } else {
          leds := leds + [LedError];
        }
        active := false;
      }
    }

    /** gsusb_can_receive, with rxErr the result of twai_receive: refused
      unless the bus is running, otherwise passed through. */
    method Receive(timeout: nat, rxErr: EspErr) returns (err: EspErr)
      modifies this`calls
      ensures !Running(State()) ==> err == EspErrInvalidState && calls == old(calls)
      ensures Running(State()) ==> err == rxErr && calls == old(calls) + [Twai.Receive(timeout)]
    {
      if !initialized || !active {
        return EspErrInvalidState;
      }
      calls := calls + [Twai.Receive(timeout)];
      err := rxErr;
    }

    /** gsusb_can_transmit, with txErr the result of twai_transmit: refused
      unless the bus is running, otherwise passed through. */
    method Transmit(msg: TwaiMessage, timeout: nat, txErr: EspErr) returns (err: EspErr)
      modifies this`calls
      ensures !Running(State()) ==> err == EspErrInvalidState && calls == old(calls)
      ensures Running(State()) ==> err == txErr && calls == old(calls) + [Twai.Transmit(msg, timeout)]
    {
      if !initialized || !active {
        return EspErrInvalidState;
      }
      calls := calls + [Twai.Transmit(msg, timeout)];
      err := txErr;
    }
  }

  /** A configure, start, stop session: the driver sees exactly one install,
      one start and one stop, the LEDs show active then off, and the bus ends
      configured but stopped. */
  method ConfigureStartStop(c: CanController, bt: DeviceBitTiming)
    requires c.Valid() && c.State() == INITIAL && c.calls == [] && c.leds == []
    requires Translate(bt, c.width).Accepted?
    modifies c
    ensures c.Valid() && c.State() == Flags(true, false)
    ensures c.calls == [InstallCall(Translate(bt, c.width).config), Twai.Start, Twai.Stop]
    ensures c.leds == [LedActive, LedOff]
  {
    var ok := c.SetBitTiming(bt, EspOk);
    assert ok;
    var err := c.Start(EspOk);
    assert err == EspOk;
    c.Stop(EspOk);
  }
}

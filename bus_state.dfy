/** The bus state machine that gsusb_can.cpp and gsusb_device.cpp each
    implement with their own pair of flags, can_initialized and can_active.
    The transitions are stated here once, as functions from the old flags
    and the driver's outcomes to the new flags and the driver calls made;
    each copy's methods are proved to follow them. */
module BusState {
  import opened GsUsb
  import opened Twai
  import opened BitTiming

  datatype Flags = Flags(initialized: bool, active: bool)

  const INITIAL: Flags := Flags(false, false)

  /** The invariant both copies keep: the bus only runs with a driver installed. */
  predicate Consistent(f: Flags) {
    f.active ==> f.initialized
  }

  /** Transmit and receive reach the driver only in this state. */
  predicate Running(f: Flags) {
    f.initialized && f.active
  }

  /** The three states the two flags encode when they are consistent. */
  datatype Phase = Uninitialized | Configured | Active

  function PhaseOf(f: Flags): (p: Phase)
    requires Consistent(f)
    ensures p == Uninitialized <==> !f.initialized
    ensures p == Active <==> f.active
  {
    if f.active then Active else if f.initialized then Configured else Uninitialized
  }

  /** The outcome of one operation: what it returns, the new flags, and the
      driver calls it made, in order. */
  datatype Step<R> = Step(result: R, flags: Flags, calls: seq<DriverCall>)

  /** twai_driver_install as both copies call it: normal mode, queues of
      20 messages, the receive, bus-off and bus-error alerts, an
      accept-all filter, and the translated timing. */
  function InstallCall(t: TimingConfig): (c: DriverCall)
    ensures c.Install? && c.timing == t && c.filter == AcceptAll
    ensures c.general.txQueueLen == 20 && c.general.rxQueueLen == 20
    ensures c.general.alerts == {AlertRxData, AlertBusOff, AlertBusError}
  {
    Install(INSTALL_GENERAL, t, AcceptAll)
  }

  /** set_can_bittiming and gsusb_can_set_bittiming. After a rejection
      nothing changes and no driver call is made. Otherwise an installed
      driver is first stopped (when running) and uninstalled, the results of
      those two calls being ignored, and then the new driver is installed. */
  function Reconfigure(f: Flags, bt: DeviceBitTiming, w: FieldWidth, installErr: EspErr): (s: Step<bool>)
    ensures s.result <==> Translate(bt, w).Accepted? && installErr == EspOk
    ensures Translate(bt, w).Rejected? ==> s.flags == f && s.calls == []
    ensures Translate(bt, w).Accepted? ==>
      && s.flags.initialized == s.result
      && (Consistent(f) ==> !s.flags.active)
      && s.calls != [] && s.calls[|s.calls| - 1] == InstallCall(Translate(bt, w).config)
    ensures Consistent(f) ==> Consistent(s.flags)
  {
    var t := TimingOf(bt, w);
    if t.tseg1 > TSEG1_LIMIT || t.tseg2 > TSEG2_LIMIT then
      Step(false, f, [])
    else
      var teardown := if f.initialized then (if f.active then [Stop] else []) + [Uninstall] else [];
      var active := if f.initialized then false else f.active;
      var ok := installErr == EspOk;
      Step(ok, Flags(ok, active), teardown + [InstallCall(t)])
  }

  /** gsusb_can_start, and the MODE START branch of the control handler:
      refused before configuration, a no-op while running, otherwise one
      call to twai_start whose success sets the bus running. */
  function StartBus(f: Flags, startErr: EspErr): (s: Step<EspErr>)
    ensures !f.initialized ==> s == Step(EspErrInvalidState, f, [])
    ensures f.initialized && f.active ==> s == Step(EspOk, f, [])
    ensures f.initialized && !f.active ==> s.calls == [Start] && s.result == startErr
    ensures s.flags.initialized == f.initialized
    ensures Consistent(f) ==> Consistent(s.flags) && (s.result == EspOk <==> s.flags.active)
  {
    if !f.initialized then Step(EspErrInvalidState, f, [])
    else if f.active then Step(EspOk, f, [])
    else Step(startErr, Flags(true, startErr == EspOk), [Start])
  }

  /** gsusb_can_stop and stop_can: a no-op unless running; when running,
      one call to twai_stop, after which the bus counts as stopped whether
      or not that call succeeded. */
  function StopBus(f: Flags): (s: Step<()>)
    ensures s.calls == (if Running(f) then [Stop] else [])
    ensures s.flags.initialized == f.initialized
    ensures f.initialized ==> !s.flags.active
    ensures !f.initialized ==> s.flags == f
  {
    if f.initialized && f.active then Step((), Flags(true, false), [Stop]) else Step((), f, [])
  }

  /** A reconfiguration of a running bus stops it, uninstalls the driver and
      installs a new one; a failed install leaves no driver, whatever came before. */
  lemma ReconfigureTearsDownFirst(f: Flags, bt: DeviceBitTiming, w: FieldWidth, installErr: EspErr)
    requires Consistent(f) && Translate(bt, w).Accepted?
    ensures var s := Reconfigure(f, bt, w, installErr);
      var install := InstallCall(Translate(bt, w).config);
      && (PhaseOf(f) == Active ==> s.calls == [Stop, Uninstall, install])
      && (PhaseOf(f) == Configured ==> s.calls == [Uninstall, install])
      && (PhaseOf(f) == Uninitialized ==> s.calls == [install])
      && PhaseOf(s.flags) == (if installErr == EspOk then Configured else Uninitialized)
  {
  }

  /** Stopping twice is stopping once. */
  lemma StopIdempotent(f: Flags)
    ensures var once := StopBus(f).flags;
      StopBus(once) == Step((), once, [])
  {
  }

  /** Starting a bus that a start has just brought up returns success again
      and makes no driver call. */
  lemma StartIdempotent(f: Flags, e1: EspErr, e2: EspErr)
    requires Consistent(f) && StartBus(f, e1).result == EspOk
    ensures var once := StartBus(f, e1).flags;
      StartBus(once, e2) == Step(EspOk, once, [])
  {
  }

  /** Every operation of the bus controller, as far as the flags see it. */
  datatype Op =
    | InitOp
    | ConfigureOp(bt: DeviceBitTiming, installErr: EspErr)
    | StartOp(startErr: EspErr)
    | StopOp
    | TransmitOp
    | ReceiveOp

  function Apply(f: Flags, op: Op, w: FieldWidth): Flags {
    match op
    case InitOp => INITIAL
    case ConfigureOp(bt, e) => Reconfigure(f, bt, w, e).flags
    case StartOp(e) => StartBus(f, e).flags
    case StopOp => StopBus(f).flags
    case TransmitOp => f
    case ReceiveOp => f
  }

  function Run(f: Flags, ops: seq<Op>, w: FieldWidth): Flags
    decreases |ops|
  {
    if ops == [] then f else Run(Apply(f, ops[0], w), ops[1..], w)
  }

  /** can_active implies can_initialized after any sequence of operations. */
  lemma {:induction false} RunKeepsConsistent(f: Flags, ops: seq<Op>, w: FieldWidth)
    requires Consistent(f)
    ensures Consistent(Run(f, ops, w))
    decreases |ops|
  {
    if ops != [] {
      var g := Apply(f, ops[0], w);
      assert Consistent(g);
      RunKeepsConsistent(g, ops[1..], w);
    }
  }

  /** The bus comes up only through a start of an installed driver. */
  lemma OnlyStartActivates(f: Flags, op: Op, w: FieldWidth)
    requires !f.active && Apply(f, op, w).active
    ensures op.StartOp? && f.initialized && op.startErr == EspOk
  {
  }

  /** The driver goes away only through an init or a failed install, and
      never leaves the bus marked running. */
  lemma OnlyFailedInstallDeinitializes(f: Flags, op: Op, w: FieldWidth)
    requires Consistent(f) && f.initialized && !Apply(f, op, w).initialized
    ensures op.InitOp? || (op.ConfigureOp? && !Reconfigure(f, op.bt, w, op.installErr).result)
    ensures !Apply(f, op, w).active
  {
  }
}

/**
 * The state of a BluetoothHelper (BluetoothHelper.java) as a value, and one
 * step function per command and radio callback.  The class in module Helper
 * is proved to perform exactly these steps; the lemmas here state what the
 * steps promise, alone and over any sequence of them.
 */
module HelperSpec {
  import opened Options
  import opened BluetoothStatus
  import opened Formatting
  import opened DeviceProfile

  /** ScanDevice stops the scan automatically this many milliseconds after starting it. */
  const SCAN_PERIOD: nat := 10000
  /** BluetoothGatt.GATT_SUCCESS */
  const GATT_SUCCESS: int := 0
  /** BluetoothProfile.STATE_DISCONNECTED and STATE_CONNECTED */
  const STATE_DISCONNECTED: int := 0
  const STATE_CONNECTED: int := 2
  /** A call the helper makes into the Android framework, recorded in the order made. */
  datatype PlatformCall =
    | PostDelayedStopScan(delayMs: nat)
    | StartLeScan
    | StopLeScan
    | ConnectGatt(address: string, autoConnect: bool)
    | CloseGatt
    | DiscoverServices
    | SetCharacteristicNotification(enable: bool)
    | WriteDescriptor(descriptor: string, value: seq<int>)

  /**
   * scanning, connected: mIsScanning, mIsConnected.  gattOpen: mBluetoothGatt != null.
   * pendingTimers: StopScan runnables posted by ScanDevice that have not run yet.
   * events: the messages sent to the handler, oldest first.  calls: the framework calls made.
   */
  datatype HelperState = HelperState(
    scanning: bool, connected: bool, gattOpen: bool, pendingTimers: nat,
    events: seq<Message>, calls: seq<PlatformCall>)

  const Initial: HelperState := HelperState(false, false, false, 0, [], [])

  /** SendHandlerMessage(code): a message without text. */
  function Emit(s: HelperState, code: int): HelperState {
    s.(events := s.events + [Message(code, None)])
  }

  function ScanDeviceStep(s: HelperState): HelperState {
    var posted := s.(pendingTimers := s.pendingTimers + 1,
                     calls := s.calls + [PostDelayedStopScan(SCAN_PERIOD), StartLeScan]);
    Emit(posted.(scanning := true), START_SCAN)
  }

  function StopScanStep(s: HelperState): HelperState {
    if s.scanning then Emit(s.(calls := s.calls + [StopLeScan]), STOP_SCAN).(scanning := false)
    else s.(scanning := false)
  }

  /** A StopScan runnable posted by ScanDevice comes due; with none pending nothing runs. */
  function ScanTimeoutStep(s: HelperState): HelperState {
    if s.pendingTimers == 0 then s else StopScanStep(s.(pendingTimers := s.pendingTimers - 1))
  }

  function ConnectStep(s: HelperState, address: string, autoConnect: bool): HelperState {
    var withGatt := s.(calls := s.calls + [ConnectGatt(address, autoConnect)], gattOpen := true);
    Emit(StopScanStep(withGatt), CONNECTING)
  }

  function DisConnectStep(s: HelperState): HelperState {
    var stopped := StopScanStep(s);
    var closed := if stopped.gattOpen then stopped.(calls := stopped.calls + [CloseGatt], gattOpen := false) else stopped;
    Emit(closed.(connected := false), DISCONNECTED)
  }

  function ConnectionStateChangeStep(s: HelperState, newState: int): HelperState {
    if newState == STATE_CONNECTED then Emit(s.(calls := s.calls + [DiscoverServices], connected := true), CONNECTED)
    else if newState == STATE_DISCONNECTED then DisConnectStep(s)
    else s
  }

  /** onServicesDiscovered gets as far as requesting the notification. */
  predicate ReachesNotification(status: int, serviceFound: bool, characteristicFound: bool) {
    status == GATT_SUCCESS && serviceFound && characteristicFound
  }

  /** The one message onServicesDiscovered sends: the first check that fails, or the registration result. */
  function DiscoveryEvent(status: int, serviceFound: bool, characteristicFound: bool, registered: bool): Message {
    if status != GATT_SUCCESS then Message(FAILURE, Some("onServicesDiscovered GATT failure:" + DecimalString(status)))
    else if !serviceFound then Message(FAILURE, Some("service is null"))
    else if !characteristicFound then Message(FAILURE, Some("characteristic is null"))
    else if registered then Message(SUCCESS, Some("CharacteristicNotification Success"))
    else Message(FAILURE, Some("CharacteristicNotification Failure"))
  }

  function ServicesDiscoveredStep(s: HelperState, status: int, serviceFound: bool, characteristicFound: bool, registered: bool): HelperState {
    var requested :=
      if ReachesNotification(status, serviceFound, characteristicFound) then
        s.(calls := s.calls + [SetCharacteristicNotification(true), WriteDescriptor(CHARACTERISTIC_CONFIG, ENABLE_NOTIFICATION_VALUE)])
      else s;
    requested.(events := requested.events + [DiscoveryEvent(status, serviceFound, characteristicFound, registered)])
  }

  /** Everything that can happen to a helper: a command from the service or a callback from the radio. */
  datatype Input =
    | Scan
    | Stop
    | Timeout
    | ConnectTo(address: string, autoConnect: bool)
    | Disconnect
    | StateChange(newState: int)
    | Discovered(status: int, serviceFound: bool, characteristicFound: bool, registered: bool)

  function Apply(s: HelperState, i: Input): HelperState {
    match i
    case Scan => ScanDeviceStep(s)
    case Stop => StopScanStep(s)
    case Timeout => ScanTimeoutStep(s)
    case ConnectTo(a, auto) => ConnectStep(s, a, auto)
    case Disconnect => DisConnectStep(s)
    case StateChange(n) => ConnectionStateChangeStep(s, n)
    case Discovered(st, sv, ch, reg) => ServicesDiscoveredStep(s, st, sv, ch, reg)
  }

  function Run(s: HelperState, inputs: seq<Input>): HelperState
    decreases |inputs|
  {
    if inputs == [] then s else Run(Apply(s, inputs[0]), inputs[1..])
  }

  // ---------------------------------------------------------------- single steps

  /** StopScan emits STOP_SCAN exactly when a scan was on, always ends not scanning, and a second call does nothing. */
  lemma StopScanOnce(s: HelperState)
    ensures StopScanStep(s).events == s.events + (if s.scanning then [Message(STOP_SCAN, None)] else [])
    ensures StopScanStep(s).calls == s.calls + (if s.scanning then [StopLeScan] else [])
    ensures !StopScanStep(s).scanning
    ensures StopScanStep(s).(scanning := s.scanning, events := s.events, calls := s.calls) == s
    ensures StopScanStep(StopScanStep(s)) == StopScanStep(s)
  {
  }

  /** ScanDevice posts the timed stop, starts the radio scan, sets scanning and emits START_SCAN last. */
  lemma ScanDeviceStarts(s: HelperState)
    ensures ScanDeviceStep(s).scanning
    ensures ScanDeviceStep(s).events == s.events + [Message(START_SCAN, None)]
    ensures ScanDeviceStep(s).calls == s.calls + [PostDelayedStopScan(10000), StartLeScan]
    ensures ScanDeviceStep(s).pendingTimers == s.pendingTimers + 1
  {
  }

  /** The timed stop after a user stop (or a second timed stop) emits nothing. */
  lemma TimeoutAfterStopIsSilent(s: HelperState)
    ensures ScanTimeoutStep(StopScanStep(s)).events == StopScanStep(s).events
    ensures !ScanTimeoutStep(StopScanStep(s)).scanning
  {
  }

  /** Connect opens the GATT, then stops the scan: any STOP_SCAN comes before CONNECTING. */
  lemma ConnectOrder(s: HelperState, address: string, autoConnect: bool)
    ensures ConnectStep(s, address, autoConnect).events
         == s.events + (if s.scanning then [Message(STOP_SCAN, None)] else []) + [Message(CONNECTING, None)]
    ensures ConnectStep(s, address, autoConnect).calls
         == s.calls + [ConnectGatt(address, autoConnect)] + (if s.scanning then [StopLeScan] else [])
    ensures ConnectStep(s, address, autoConnect).gattOpen
    ensures !ConnectStep(s, address, autoConnect).scanning
    ensures ConnectStep(s, address, autoConnect).connected == s.connected
  {
  }

  /**
   * DisConnect ends with exactly one DISCONNECTED, preceded by STOP_SCAN only if
   * a scan was on; it closes the GATT only if one was open; afterwards nothing is open.
   */
  lemma DisConnectShape(s: HelperState)
    ensures DisConnectStep(s).events
         == s.events + (if s.scanning then [Message(STOP_SCAN, None)] else []) + [Message(DISCONNECTED, None)]
    ensures DisConnectStep(s).calls
         == s.calls + (if s.scanning then [StopLeScan] else []) + (if s.gattOpen then [CloseGatt] else [])
    ensures !DisConnectStep(s).scanning && !DisConnectStep(s).connected && !DisConnectStep(s).gattOpen
    ensures DisConnectStep(s).pendingTimers == s.pendingTimers
  {
  }

  /** DisConnect is not silent when repeated: every call emits DISCONNECTED again. */
  lemma DisConnectRepeats(s: HelperState)
    ensures DisConnectStep(DisConnectStep(s)).events == DisConnectStep(s).events + [Message(DISCONNECTED, None)]
    ensures DisConnectStep(DisConnectStep(s)).calls == DisConnectStep(s).calls
  {
    DisConnectShape(s);
    DisConnectShape(DisConnectStep(s));
  }

  /** STATE_CONNECTED starts discovery, sets connected and emits CONNECTED; STATE_DISCONNECTED is DisConnect; other states do nothing. */
  lemma ConnectionStateChangeCases(s: HelperState, newState: int)
    ensures newState == STATE_CONNECTED ==>
      ConnectionStateChangeStep(s, newState)
        == s.(connected := true, calls := s.calls + [DiscoverServices], events := s.events + [Message(CONNECTED, None)])
    ensures newState == STATE_DISCONNECTED ==> ConnectionStateChangeStep(s, newState) == DisConnectStep(s)
    ensures newState != STATE_CONNECTED && newState != STATE_DISCONNECTED ==> ConnectionStateChangeStep(s, newState) == s
  {
  }

  /**
   * A STATE_CONNECTED callback that arrives after DisConnect is not discarded:
   * the helper reports connected although it holds no GATT.
   */
  lemma LateConnectedCallbackAccepted(s: HelperState)
    ensures ConnectionStateChangeStep(DisConnectStep(s), STATE_CONNECTED).connected
    ensures !ConnectionStateChangeStep(DisConnectStep(s), STATE_CONNECTED).gattOpen
  {
  }

  /** onServicesDiscovered emits exactly one message and changes neither flag nor the GATT. */
  lemma DiscoveryEmitsOne(s: HelperState, status: int, serviceFound: bool, characteristicFound: bool, registered: bool)
    ensures var t := ServicesDiscoveredStep(s, status, serviceFound, characteristicFound, registered);
      t.events == s.events + [DiscoveryEvent(status, serviceFound, characteristicFound, registered)]
      && t.scanning == s.scanning && t.connected == s.connected && t.gattOpen == s.gattOpen
      && t.pendingTimers == s.pendingTimers
  {
  }

  /** The descriptor write is attempted whenever the characteristic was found, whatever the registration returned. */
  lemma DescriptorWrittenEitherWay(s: HelperState, status: int, serviceFound: bool, characteristicFound: bool, registered: bool)
    ensures var t := ServicesDiscoveredStep(s, status, serviceFound, characteristicFound, registered);
      t.calls == s.calls + (if ReachesNotification(status, serviceFound, characteristicFound)
                            then [SetCharacteristicNotification(true), WriteDescriptor(CHARACTERISTIC_CONFIG, ENABLE_NOTIFICATION_VALUE)]
                            else [])
  {
  }

  /** SUCCESS exactly when every check passed and the registration returned true; FAILURE otherwise, naming the first failed check. */
  lemma DiscoveryOutcome(status: int, serviceFound: bool, characteristicFound: bool, registered: bool)
    ensures var m := DiscoveryEvent(status, serviceFound, characteristicFound, registered);
      (m.what == SUCCESS <==> ReachesNotification(status, serviceFound, characteristicFound) && registered)
      && (m.what == FAILURE <==> !(ReachesNotification(status, serviceFound, characteristicFound) && registered))
      && m.obj.Some?
      && (status != GATT_SUCCESS ==> m.obj.value == "onServicesDiscovered GATT failure:" + DecimalString(status))
      && (status == GATT_SUCCESS && !serviceFound ==> m.obj.value == "service is null")
      && (status == GATT_SUCCESS && serviceFound && !characteristicFound ==> m.obj.value == "characteristic is null")
      && (ReachesNotification(status, serviceFound, characteristicFound) ==>
            m.obj.value == if registered then "CharacteristicNotification Success" else "CharacteristicNotification Failure")
  {
  }

  /** The status in a GATT failure text can be read back from it. */
  lemma GattFailureNamesStatus(status: int)
    requires status != GATT_SUCCESS
    ensures var text := DiscoveryEvent(status, true, true, true).obj.value;
      |text| > 34 && text[..34] == "onServicesDiscovered GATT failure:" && ParseInt(text[34..]) == Some(status)
  {
    var text := DiscoveryEvent(status, true, true, true).obj.value;
    assert text[34..] == DecimalString(status);
    DecimalRoundTrip(status);
  }

  // ---------------------------------------------------------------- over any run

  predicate IsScanCode(c: int) {
    c == START_SCAN || c == STOP_SCAN
  }

  /** The START_SCAN and STOP_SCAN codes among the events, in order. */
  function ScanCodes(ev: seq<Message>): seq<int> {
    if ev == [] then []
    else ScanCodes(ev[..|ev| - 1]) + (if IsScanCode(ev[|ev| - 1].what) then [ev[|ev| - 1].what] else [])
  }

  /** Every STOP_SCAN directly follows a START_SCAN: a scan is never reported stopped twice. */
  predicate StopsFollowStarts(codes: seq<int>) {
    forall i :: 0 <= i < |codes| && codes[i] == STOP_SCAN ==> i > 0 && codes[i - 1] == START_SCAN
  }

  predicate ScanConsistentOn(scanning: bool, ev: seq<Message>) {
    var codes := ScanCodes(ev);
    StopsFollowStarts(codes) && (scanning <==> codes != [] && codes[|codes| - 1] == START_SCAN)
  }

  /** The scan flag agrees with the last scan event, and stops alternate with starts. */
  predicate ScanConsistent(s: HelperState) {
    ScanConsistentOn(s.scanning, s.events)
  }

  lemma ScanCodesSnoc(ev: seq<Message>, m: Message)
    ensures ScanCodes(ev + [m]) == ScanCodes(ev) + (if IsScanCode(m.what) then [m.what] else [])
  {
    assert (ev + [m])[..|ev|] == ev;
  }

  lemma AppendOther(scanning: bool, ev: seq<Message>, m: Message)
    requires ScanConsistentOn(scanning, ev) && !IsScanCode(m.what)
    ensures ScanConsistentOn(scanning, ev + [m])
  {
    ScanCodesSnoc(ev, m);
  }

  lemma AppendStart(scanning: bool, ev: seq<Message>)
    requires ScanConsistentOn(scanning, ev)
    ensures ScanConsistentOn(true, ev + [Message(START_SCAN, None)])
  {
    ScanCodesSnoc(ev, Message(START_SCAN, None));
  }

  lemma AppendStop(ev: seq<Message>)
    requires ScanConsistentOn(true, ev)
    ensures ScanConsistentOn(false, ev + [Message(STOP_SCAN, None)])
  {
    ScanCodesSnoc(ev, Message(STOP_SCAN, None));
    var codes := ScanCodes(ev + [Message(STOP_SCAN, None)]);
    assert codes == ScanCodes(ev) + [STOP_SCAN];
    forall i | 0 <= i < |codes| && codes[i] == STOP_SCAN
      ensures i > 0 && codes[i - 1] == START_SCAN
    {
      if i < |codes| - 1 {
        assert codes[i] == ScanCodes(ev)[i];
      }
    }
  }

  lemma StopScanKeepsConsistent(s: HelperState)
    requires ScanConsistent(s)
    ensures ScanConsistent(StopScanStep(s))
  {
    if s.scanning {
      AppendStop(s.events);
    }
  }

  lemma ApplyKeepsScanConsistent(s: HelperState, i: Input)
    requires ScanConsistent(s)
    ensures ScanConsistent(Apply(s, i))
  {
    match i
    case Scan => AppendStart(s.scanning, s.events);
    case Stop => StopScanKeepsConsistent(s);
    case Timeout =>
      if s.pendingTimers > 0 {
        StopScanKeepsConsistent(s.(pendingTimers := s.pendingTimers - 1));
      }
    case ConnectTo(a, auto) =>
      var withGatt := s.(calls := s.calls + [ConnectGatt(a, auto)], gattOpen := true);
      StopScanKeepsConsistent(withGatt);
      AppendOther(false, StopScanStep(withGatt).events, Message(CONNECTING, None));
    case Disconnect =>
      StopScanKeepsConsistent(s);
      AppendOther(false, StopScanStep(s).events, Message(DISCONNECTED, None));
    case StateChange(n) =>
      if n == STATE_CONNECTED {
        AppendOther(s.scanning, s.events, Message(CONNECTED, None));
      } else if n == STATE_DISCONNECTED {
        StopScanKeepsConsistent(s);
        AppendOther(false, StopScanStep(s).events, Message(DISCONNECTED, None));
      }
    case Discovered(st, sv, ch, reg) =>
      AppendOther(s.scanning, s.events, DiscoveryEvent(st, sv, ch, reg));
  }

  /**
   * Whatever commands and callbacks arrive, in whatever order, every STOP_SCAN
   * the helper emits answers the START_SCAN just before it (user stop, timed
   * stop, Connect and DisConnect never report the same scan stopped twice),
   * and the scan flag is on exactly when the last scan event is START_SCAN.
   */
  lemma {:induction false} RunKeepsScanConsistent(s: HelperState, inputs: seq<Input>)
    requires ScanConsistent(s)
    ensures ScanConsistent(Run(s, inputs))
    decreases |inputs|
  {
    if inputs != [] {
      ApplyKeepsScanConsistent(s, inputs[0]);
      RunKeepsScanConsistent(Apply(s, inputs[0]), inputs[1..]);
    }
  }

  lemma InitialScanConsistent()
    ensures ScanConsistent(Initial)
  {
  }

  /**
   * The messages a helper sends: a lifecycle code without text, or SUCCESS or
   * FAILURE with a non-empty single-line text; never NOTIFY_MES.
   */
  predicate HelperMessage(m: Message) {
    (IsLifecycleCode(m.what) && m.obj == None)
    || (IsResultCode(m.what) && m.obj.Some? && m.obj.value != "" && '\n' !in m.obj.value)
  }

  predicate AllHelperMessages(ev: seq<Message>) {
    forall i :: 0 <= i < |ev| ==> HelperMessage(ev[i])
  }

  /** A text built from two single-line parts is a single line. */
  lemma OneLineConcat(a: string, b: string)
    requires '\n' !in a && '\n' !in b
    ensures '\n' !in a + b
  {
    forall j | 0 <= j < |a + b| ensures (a + b)[j] != '\n' {
      if j < |a| {
        assert (a + b)[j] == a[j];
      } else {
        assert (a + b)[j] == b[j - |a|];
      }
    }
  }

  /** The status is printed with digits and a sign only. */
  lemma GattFailureTextOneLine(status: int)
    ensures '\n' !in "onServicesDiscovered GATT failure:" + DecimalString(status)
  {
    DecimalAlphabet(status);
    OneLineConcat("onServicesDiscovered GATT failure:", DecimalString(status));
  }

  lemma DiscoveryEventIsHelperMessage(status: int, serviceFound: bool, characteristicFound: bool, registered: bool)
    ensures HelperMessage(DiscoveryEvent(status, serviceFound, characteristicFound, registered))
  {
    if status != GATT_SUCCESS {
      GattFailureTextOneLine(status);
    }
  }

  lemma ApplyEmitsHelperMessages(s: HelperState, i: Input)
    requires AllHelperMessages(s.events)
    ensures AllHelperMessages(Apply(s, i).events)
  {
    match i
    case Discovered(st, sv, ch, reg) => DiscoveryEventIsHelperMessage(st, sv, ch, reg);
    case _ =>
  }

  /** Every message a helper ever sends is a HelperMessage. */
  lemma {:induction false} RunEmitsHelperMessages(s: HelperState, inputs: seq<Input>)
    requires AllHelperMessages(s.events)
    ensures AllHelperMessages(Run(s, inputs).events)
    decreases |inputs|
  {
    if inputs != [] {
      ApplyEmitsHelperMessages(s, inputs[0]);
      RunEmitsHelperMessages(Apply(s, inputs[0]), inputs[1..]);
    }
  }
}

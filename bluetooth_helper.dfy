/**
 * BluetoothHelper.java: scan, connect and disconnect commands and the GATT
 * callbacks, with the radio replaced by its inputs and the handler by the
 * `events` sequence.  Each method performs the step of the same name in
 * HelperSpec.
 */
module Helper {
  import opened Options
  import opened BluetoothStatus
  import opened Formatting
  import opened HelperSpec
  import opened DeviceProfile

  /**
   * The test onCharacteristicChanged applies, as written: the upper-case
   * constant against UUID.toString(), which is lower-case.
   */
  predicate CharacteristicMatchesAsWritten(u: Uuid) {
    DEVICE_CHARACTERISTIC_UUID == UuidToString(u)
  }

  /** The as-written test never holds, not even for the device's own characteristic. */
  lemma AsWrittenNeverMatches(u: Uuid)
    requires ValidUuid(u)
    ensures !CharacteristicMatchesAsWritten(u)
  {
    LowerHexAt(u.timeLow, 0);
    assert UuidToString(u)[0] == LowerDigit(u.timeLow[0]);
    assert DEVICE_CHARACTERISTIC_UUID[0] == 'E';
  }

  /** The intended test, UUID equality: the characteristic is the device characteristic. */
  predicate CharacteristicMatches(u: Uuid) {
    u == DEVICE_CHARACTERISTIC
  }

  /** The toast onCharacteristicChanged shows, as written: none, ever. */
  function NotificationTextAsWritten(u: Uuid, data: Option<seq<JavaByte>>): Option<string> {
    if CharacteristicMatchesAsWritten(u) && data.Some? && |data.value| > 0 then Some(HexString(data.value)) else None
  }

  lemma AsWrittenShowsNothing(u: Uuid, data: Option<seq<JavaByte>>)
    requires ValidUuid(u)
    ensures NotificationTextAsWritten(u, data) == None
  {
    AsWrittenNeverMatches(u);
  }

  class BluetoothHelper {
    var isScanning: bool
    var isConnected: bool
    var gattOpen: bool
    var pendingStopTimers: nat
    var events: seq<Message>
    var calls: seq<PlatformCall>

    function State(): HelperState
      reads this
    {
      HelperState(isScanning, isConnected, gattOpen, pendingStopTimers, events, calls)
    }

    constructor()
      ensures State() == Initial
    {
      isScanning, isConnected, gattOpen := false, false, false;
      pendingStopTimers := 0;
      events, calls := [], [];
    }

    method SendHandlerMessage(id: int, obj: Option<string>)
      modifies this`events
      ensures events == old(events) + [Message(id, obj)]
    {
      events := events + [Message(id, obj)];
    }

    method ScanDevice()
      modifies this
      ensures State() == ScanDeviceStep(old(State()))
    {
      calls := calls + [PostDelayedStopScan(SCAN_PERIOD)];
      pendingStopTimers := pendingStopTimers + 1;
      calls := calls + [StartLeScan];
      isScanning := true;
      SendHandlerMessage(START_SCAN, None);
    }

    /** The runnable ScanDevice posted runs SCAN_PERIOD ms later. */
    method ScanTimeout()
      modifies this
      ensures State() == ScanTimeoutStep(old(State()))
    {
      if pendingStopTimers > 0 {
        pendingStopTimers := pendingStopTimers - 1;
        StopScan();
      }
    }

    method StopScan()
      modifies this
      ensures State() == StopScanStep(old(State()))
    {
      if isScanning {
        calls := calls + [StopLeScan];
        SendHandlerMessage(STOP_SCAN, None);
      }
      isScanning := false;
    }

    method Connect(autoConnect: bool, address: string)
      modifies this
      ensures State() == ConnectStep(old(State()), address, autoConnect)
    {
      calls := calls + [ConnectGatt(address, autoConnect)];
      gattOpen := true;
      StopScan();
      SendHandlerMessage(CONNECTING, None);
    }

    method DisConnect()
      modifies this
      ensures State() == DisConnectStep(old(State()))
    {
      StopScan();
      if gattOpen {
        calls := calls + [CloseGatt];
        gattOpen := false;
      }
      isConnected := false;
      SendHandlerMessage(DISCONNECTED, None);
    }

    method OnConnectionStateChange(status: int, newState: int)
      modifies this
      ensures State() == ConnectionStateChangeStep(old(State()), newState)
    {
      if newState == STATE_CONNECTED {
        calls := calls + [DiscoverServices];
        isConnected := true;
        SendHandlerMessage(CONNECTED, None);
      } else if newState == STATE_DISCONNECTED {
        DisConnect();
      }
    }

    /**
     * serviceFound, characteristicFound: getService and getCharacteristic
     * returned non-null; descriptorFound: getDescriptor did; registered: what
     * setCharacteristicNotification returned.
     */
    method OnServicesDiscovered(status: int, serviceFound: bool, characteristicFound: bool,
                                descriptorFound: bool, registered: bool)
      requires ReachesNotification(status, serviceFound, characteristicFound) ==> descriptorFound
      modifies this
      ensures State() == ServicesDiscoveredStep(old(State()), status, serviceFound, characteristicFound, registered)
    {
      if status != GATT_SUCCESS {
        SendHandlerMessage(FAILURE, Some("onServicesDiscovered GATT failure:" + DecimalString(status)));
        return;
      }
      if !serviceFound {
        SendHandlerMessage(FAILURE, Some("service is null"));
        return;
      }
      if !characteristicFound {
        SendHandlerMessage(FAILURE, Some("characteristic is null"));
        return;
      }
      calls := calls + [SetCharacteristicNotification(true)];
      calls := calls + [WriteDescriptor(CHARACTERISTIC_CONFIG, ENABLE_NOTIFICATION_VALUE)];
      if registered {
        SendHandlerMessage(SUCCESS, Some("CharacteristicNotification Success"));
      } else {
        SendHandlerMessage(FAILURE, Some("CharacteristicNotification Failure"));
      }
    }

    /**
     * onCharacteristicChanged with the characteristic test corrected: the toast
     * text for the characteristic `uuid` whose value is `data` (None for null).
     * Only the device characteristic with a non-empty value shows anything,
     * and then it shows three characters per byte; "Notify is empty" never appears.
     */
    method OnCharacteristicChanged(uuid: Uuid, data: Option<seq<JavaByte>>) returns (toast: Option<string>)
      ensures toast.Some? <==> CharacteristicMatches(uuid) && data.Some? && |data.value| > 0
      ensures toast.Some? ==> toast.value == HexString(data.value) && |toast.value| == 3 * |data.value|
      ensures toast != Some("Notify is empty")
    {
      toast := None;
      if CharacteristicMatches(uuid) {
        if data.Some? && |data.value| > 0 {
          var bytes := data.value;
          var sb := "";
          for i := 0 to |bytes|
            invariant sb == HexString(bytes[..i])
          {
            assert bytes[..i + 1][..i] == bytes[..i];
            sb := sb + ByteHex(bytes[i]);
          }
          assert bytes[..|bytes|] == bytes;
          var mes := sb;
          HexLength(bytes);
          if |mes| == 0 {
            mes := "Notify is empty";
          }
          HexAlphabet(bytes);
          assert IsUpperHexDigit(mes[0]) || mes[0] == ' ';
          assert mes != "Notify is empty";
          toast := Some(mes);
        }
      }
    }

    method IsConnected() returns (connected: bool)
      ensures connected == isConnected
    {
      connected := isConnected;
    }
  }
}

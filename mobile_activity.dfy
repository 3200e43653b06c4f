/**
 * The mobile copy of BLEAct.  It differs from the wear copy in three places:
 * its TextView keeps ten lines, IsEnabledBluetooth does not look at
 * mIsBound, and StopService does not disconnect first.  It drives the same
 * BTService model: the mobile BTService is not part of this model.
 */
module MobileActivity {
  import opened Options
  import opened BluetoothStatus
  import opened HelperSpec
  import opened Helper
  import opened Service
  import opened LineHistory
  import opened ActivityCommon

  const MAX_LINE: nat := 10

  /**
   * IsEnabledBluetooth's verdict: None when a command may go ahead,
   * otherwise the line it shows.  Only a missing service counts as unbound.
   */
  function EnableCheck(serviceSet: bool, btEnabled: bool): (r: Option<string>)
    ensures r.None? <==> serviceSet && btEnabled
    ensures r == Some(NOT_BOUND) <==> !serviceSet
    ensures r == Some(NOT_ENABLED) <==> serviceSet && !btEnabled
  {
    if !serviceSet then Some(NOT_BOUND)
    else if !btEnabled then Some(NOT_ENABLED)
    else None
  }

  class BLEAct {
    /** The TextView's contents. */
    var text: string
    var boundService: BTService?
    var isBound: bool
    /** The BTServiceHandler last handed to the service. */
    var handler: Option<HandlerId>
    var calls: seq<FrameworkCall>

    constructor()
      ensures text == "" && boundService == null && !isBound && handler == None && calls == []
    {
      text, boundService, isBound, handler, calls := "", null, false, None, [];
    }

    /** onCreate: starts (and binds) the service when it was already running. */
    method OnCreate(isRunning: bool)
      modifies this`calls, this`isBound
      ensures isRunning ==> calls == old(calls) + [StartServiceIntent, BindService] && isBound
      ensures !isRunning ==> calls == old(calls) && isBound == old(isBound)
    {
      if isRunning {
        StartService();
      }
    }

    method OnDestroy()
      modifies this`calls
      ensures calls == old(calls) + (if isBound then [UnbindService] else [])
    {
      if isBound {
        calls := calls + [UnbindService];
      }
    }

    /** A single-line message keeps the display within MAX_LINE lines. */
    method SetText(mes: string)
      modifies this`text
      ensures text == Compose(old(text), mes, MAX_LINE)
      ensures NEW_LINE !in mes && |JavaSplit(old(text))| <= MAX_LINE ==> |JavaSplit(text)| <= MAX_LINE
    {
      if NEW_LINE !in mes && |JavaSplit(text)| <= MAX_LINE {
        ComposeBound(text, mes, MAX_LINE);
      }
      text := ComposeText(text, mes, MAX_LINE);
    }

    method IsEnabledBluetooth(btEnabled: bool) returns (ok: bool)
      modifies this`text
      ensures ok <==> EnableCheck(boundService != null, btEnabled).None?
      ensures ok ==> text == old(text)
      ensures !ok ==> text == Compose(old(text), EnableCheck(boundService != null, btEnabled).value, MAX_LINE)
    {
      if boundService == null {
        SetText(NOT_BOUND);
        return false;
      } else if !btEnabled {
        SetText(NOT_ENABLED);
        return false;
      }
      return true;
    }

    /** The search button: scan when the service is usable. */
    method OnSearchClick(btEnabled: bool)
      requires boundService != null ==> boundService.helper != null
      modifies this`text, if boundService != null then {boundService.helper} else {}
      ensures var check := EnableCheck(boundService != null, btEnabled);
        if check.None? then
          text == old(text) && boundService.helper.State() == ScanDeviceStep(old(boundService.helper.State()))
        else
          text == Compose(old(text), check.value, MAX_LINE) && (boundService != null ==> unchanged(boundService.helper))
    {
      var ok := IsEnabledBluetooth(btEnabled);
      if !ok {
        return;
      }
      boundService.ScanDevice();
    }

    /** A click on a found device: connect to its address. */
    method OnDeviceClick(btEnabled: bool, address: string)
      requires boundService != null ==> boundService.helper != null
      modifies this`text, if boundService != null then {boundService.helper} else {}
      ensures var check := EnableCheck(boundService != null, btEnabled);
        if check.None? then
          text == old(text) && boundService.helper.State() == ConnectStep(old(boundService.helper.State()), address, false)
        else
          text == Compose(old(text), check.value, MAX_LINE) && (boundService != null ==> unchanged(boundService.helper))
    {
      var ok := IsEnabledBluetooth(btEnabled);
      if !ok {
        return;
      }
      boundService.Connect(address);
    }

    /** The test button: the toast when connected, a line otherwise. */
    method OnTestClick(btEnabled: bool) returns (toast: Option<string>)
      requires boundService != null ==> boundService.helper != null
      modifies this`text
      ensures var check := EnableCheck(boundService != null, btEnabled);
        if check.Some? then
          toast == None && text == Compose(old(text), check.value, MAX_LINE)
        else if boundService.helper.isConnected then
          toast == Some(SENT_TOAST) && text == old(text)
        else
          toast == None && text == Compose(old(text), NOT_CONNECTED, MAX_LINE)
    {
      var ok := IsEnabledBluetooth(btEnabled);
      if !ok {
        return None;
      }
      var connected := boundService.IsConnected();
      if connected {
        boundService.SendMessage("Test Message");
        toast := Some(SENT_TOAST);
      } else {
        SetText(NOT_CONNECTED);
        toast := None;
      }
    }

    method StartService()
      modifies this`calls, this`isBound
      ensures calls == old(calls) + [StartServiceIntent, BindService] && isBound
    {
      calls := calls + [StartServiceIntent, BindService];
      isBound := true;
    }

    /** Unbinds and stops the service, without disconnecting. */
    method StopService()
      modifies this`calls, this`isBound
      ensures calls == old(calls) + [UnbindService, StopServiceIntent] && !isBound
      ensures boundService == old(boundService)
    {
      calls := calls + [UnbindService, StopServiceIntent];
      isBound := false;
    }

    /** The binder's service, or null; a new handler `h` is registered with it. */
    method OnServiceConnected(s: BTService?, h: HandlerId)
      modifies this`boundService, this`text, this`handler, if s != null then {s} else {}
      ensures boundService == s
      ensures s == null ==> text == Compose(old(text), NOT_BOUND, MAX_LINE) && handler == old(handler)
      ensures s != null ==> text == old(text) && handler == Some(h) && s.handlerAct == Some(h)
      ensures s != null ==> s.helper == old(s.helper) && s.delivered == old(s.delivered)
    {
      boundService := s;
      if boundService == null {
        SetText(NOT_BOUND);
        return;
      }
      handler := Some(h);
      s.SetHandlerAct(handler);
    }

    method OnServiceDisconnected()
      modifies this`boundService
      ensures boundService == null
    {
      boundService := null;
    }

    /** BTServiceHandler.handleMessage; actAlive: its weak reference to the activity still resolves. */
    method HandleMessage(msg: Message, actAlive: bool)
      modifies this`text
      ensures text == if actAlive then Shown(old(text), msg, MAX_LINE) else old(text)
    {
      if !actAlive {
        return;
      }
      var line := DisplayText(msg);
      if line.Some? {
        SetText(line.value);
      }
    }
  }
}

/**
 * BTService.java: the background service that owns the BluetoothHelper and
 * forwards the helper's status messages to the activity's handler.
 */
module Service {
  import opened Options
  import opened BluetoothStatus
  import opened HelperSpec
  import opened Helper

  /** Identifies a Handler object of the activity; the model needs only its identity. */
  type HandlerId = nat

  /** A message sent to the activity's handler `target`. */
  datatype Delivery = Delivery(target: HandlerId, msg: Message)

  /**
   * BtProcHandler.handleMessage: what, if anything, the service sends on when
   * the helper's message `msg` arrives.  serviceAlive: the handler's weak
   * reference to the service still resolves; handlerAct: mHandlerAct.
   * Lifecycle codes go on with their payload stripped, SUCCESS and FAILURE
   * with it kept, and any other code goes nowhere.
   */
  function Forward(msg: Message, serviceAlive: bool, handlerAct: Option<HandlerId>): (r: Option<Delivery>)
    ensures r.Some? <==> serviceAlive && handlerAct.Some? && (IsLifecycleCode(msg.what) || IsResultCode(msg.what))
    ensures r.Some? ==> r.value.target == handlerAct.value && r.value.msg.what == msg.what
    ensures r.Some? && IsLifecycleCode(msg.what) ==> r.value.msg.obj == None
    ensures r.Some? && IsResultCode(msg.what) ==> r.value.msg.obj == msg.obj
  {
    if !serviceAlive then None
    else if msg.what in {START_SCAN, STOP_SCAN, CONNECTING, CONNECTED, DISCONNECTED} then
      if handlerAct.Some? then Some(Delivery(handlerAct.value, Message(msg.what, None))) else None
    else if msg.what in {SUCCESS, FAILURE} then
      if handlerAct.Some? then Some(Delivery(handlerAct.value, Message(msg.what, msg.obj))) else None
    else None
  }

  function OptionToSeq<T>(o: Option<T>): seq<T> {
    if o.Some? then [o.value] else []
  }

  /** What the activity's handler receives when the service handles `msgs` in order. */
  function ForwardAll(msgs: seq<Message>, serviceAlive: bool, handlerAct: Option<HandlerId>): seq<Delivery>
  {
    if msgs == [] then []
    else ForwardAll(msgs[..|msgs| - 1], serviceAlive, handlerAct) + OptionToSeq(Forward(msgs[|msgs| - 1], serviceAlive, handlerAct))
  }

  /** The same messages, all addressed to `target`. */
  function AddressedTo(target: HandlerId, msgs: seq<Message>): (r: seq<Delivery>)
    ensures |r| == |msgs|
    ensures forall i :: 0 <= i < |msgs| ==> r[i] == Delivery(target, msgs[i])
  {
    if msgs == [] then [] else AddressedTo(target, msgs[..|msgs| - 1]) + [Delivery(target, msgs[|msgs| - 1])]
  }

  /**
   * Every message a helper sends reaches the activity's handler unchanged
   * and in order, as long as the service lives and a handler is set.
   */
  lemma {:induction false} HelperMessagesPassThrough(msgs: seq<Message>, target: HandlerId)
    requires AllHelperMessages(msgs)
    ensures ForwardAll(msgs, true, Some(target)) == AddressedTo(target, msgs)
  {
    if msgs != [] {
      var front := msgs[..|msgs| - 1];
      assert AllHelperMessages(front) by {
        forall i | 0 <= i < |front| ensures HelperMessage(front[i]) {
          assert front[i] == msgs[i];
        }
      }
      HelperMessagesPassThrough(front, target);
      assert HelperMessage(msgs[|msgs| - 1]);
    }
  }

  /** Without a live service or an activity handler nothing is forwarded. */
  lemma {:induction false} NothingForwardedWithoutTarget(msgs: seq<Message>, serviceAlive: bool, handlerAct: Option<HandlerId>)
    requires !serviceAlive || handlerAct.None?
    ensures ForwardAll(msgs, serviceAlive, handlerAct) == []
  {
    if msgs != [] {
      NothingForwardedWithoutTarget(msgs[..|msgs| - 1], serviceAlive, handlerAct);
    }
  }

  /**
   * End to end: whatever commands and radio callbacks a fresh helper sees,
   * the activity's handler receives every message it sent, in order.
   */
  lemma RunReachesActivity(inputs: seq<Input>, target: HandlerId)
    ensures ForwardAll(Run(Initial, inputs).events, true, Some(target)) == AddressedTo(target, Run(Initial, inputs).events)
  {
    RunEmitsHelperMessages(Initial, inputs);
    HelperMessagesPassThrough(Run(Initial, inputs).events, target);
  }

  /** The handler BtProcHandler; its weak reference to the service is the serviceAlive input of Forward. */
  class BtProcHandler {
    constructor() {}
  }

  class BTService {
    var helper: BluetoothHelper?
    var procHandler: BtProcHandler?
    var handlerAct: Option<HandlerId>
    /** The messages sent to the activity's handlers, oldest first. */
    var delivered: seq<Delivery>

    constructor()
      ensures helper == null && procHandler == null && handlerAct == None && delivered == []
    {
      helper, procHandler, handlerAct, delivered := null, null, None, [];
    }

    /** Creates the handler and the helper on the first start; later starts keep them. */
    method OnStartCommand()
      modifies this
      ensures procHandler != null && helper != null
      ensures old(procHandler) != null ==> procHandler == old(procHandler)
      ensures old(helper) != null ==> helper == old(helper)
      ensures old(helper) == null ==> fresh(helper) && helper.State() == Initial
      ensures handlerAct == old(handlerAct) && delivered == old(delivered)
    {
      if procHandler == null {
        procHandler := new BtProcHandler();
      }
      if helper == null {
        helper := new BluetoothHelper();
      }
    }

    /** Replaces any earlier handler: only the latest one receives forwards. */
    method SetHandlerAct(handler: Option<HandlerId>)
      modifies this`handlerAct
      ensures handlerAct == handler
    {
      handlerAct := handler;
    }

    /** BtProcHandler.handleMessage for a message from the helper. */
    method HandleProcMessage(msg: Message, serviceAlive: bool)
      modifies this`delivered
      ensures delivered == old(delivered) + OptionToSeq(Forward(msg, serviceAlive, handlerAct))
    {
      if !serviceAlive {
        return;
      }
      if IsLifecycleCode(msg.what) {
        if handlerAct.Some? {
          delivered := delivered + [Delivery(handlerAct.value, GetMessage(msg.what, None))];
        }
      } else if IsResultCode(msg.what) {
        if handlerAct.Some? {
          delivered := delivered + [Delivery(handlerAct.value, GetMessage(msg.what, msg.obj))];
        }
      }
    }

    static function GetMessage(id: int, obj: Option<string>): Message {
      Message(id, obj)
    }

    method ScanDevice()
      requires helper != null
      modifies helper
      ensures helper.State() == ScanDeviceStep(old(helper.State()))
    {
      helper.ScanDevice();
    }

    method IsConnected() returns (connected: bool)
      requires helper != null
      ensures connected == helper.isConnected
    {
      connected := helper.IsConnected();
    }

    /** Sending is disabled in the service: the call does nothing. */
    method SendMessage(message: string)
    {
    }

    /** Connections are made by hand, so autoConnect is always false. */
    method Connect(address: string)
      requires helper != null
      modifies helper
      ensures helper.State() == ConnectStep(old(helper.State()), address, false)
    {
      helper.Connect(false, address);
    }

    /** Does nothing before the helper exists. */
    method DisConnect()
      modifies helper
      ensures helper != null ==> helper.State() == DisConnectStep(old(helper.State()))
    {
      if helper != null {
        helper.DisConnect();
      }
    }

    method OnDestroy()
      modifies helper
      ensures helper != null ==> helper.State() == DisConnectStep(old(helper.State()))
    {
      DisConnect();
    }
  }
}

/**
 * What the two BLEAct copies share: the text BTServiceHandler.handleMessage
 * shows for each status code, and the framework calls the activities make.
 */
module ActivityCommon {
  import opened Options
  import opened BluetoothStatus
  import opened HelperSpec
  import opened LineHistory

  /**
   * Calls from an activity into the Android framework, in the order made;
   * ServiceDisConnect records the relay of DisConnect to the bound service.
   */
  datatype FrameworkCall = StartServiceIntent | BindService | UnbindService | StopServiceIntent | ServiceDisConnect

  /** The lines and the toast an activity shows when a command cannot go ahead or succeeds. */
  const NOT_BOUND: string := "Service Not Bound"
  const NOT_ENABLED: string := "BlueTooth Not Enable"
  const NOT_CONNECTED: string := "BlueTooth Not Connected"
  const SENT_TOAST: string := "Send Message"

  /**
   * BTServiceHandler.handleMessage: the line shown for a message, or None
   * when the display is left alone (a result without text, an unknown code).
   */
  function DisplayText(msg: Message): (t: Option<string>)
    ensures t.Some? <==> IsLifecycleCode(msg.what) || (IsResultCode(msg.what) && msg.obj.Some?)
    ensures IsResultCode(msg.what) ==> t == msg.obj
  {
    if msg.what == START_SCAN then Some("Start Scan")
    else if msg.what == STOP_SCAN then Some("Stop Scan")
    else if msg.what == CONNECTING then Some("Connecting...")
    else if msg.what == CONNECTED then Some("Connected. Discover Services")
    else if msg.what == DISCONNECTED then Some("DisConnected")
    else if msg.what == SUCCESS || msg.what == FAILURE then msg.obj
    else None
  }

  /** Each lifecycle code has its own text, so the display tells the events apart. */
  lemma LifecycleTextsDistinct(a: Message, b: Message)
    requires IsLifecycleCode(a.what) && IsLifecycleCode(b.what)
    ensures DisplayText(a) == DisplayText(b) <==> a.what == b.what
  {
  }

  /** A line shown for a helper's message is one non-empty line. */
  lemma HelperMessageShowsOneLine(m: Message)
    requires HelperMessage(m)
    ensures DisplayText(m).Some?
    ensures DisplayText(m).value != "" && NEW_LINE !in DisplayText(m).value
  {
  }

  /** The display after handleMessage(m) on a live activity. */
  function Shown(text: string, m: Message, maxLine: nat): string
    requires maxLine >= 1
  {
    match DisplayText(m)
    case Some(line) => Compose(text, line, maxLine)
    case None => text
  }

  /** The display after the activity handles `ms` in order. */
  function ShowAll(text: string, ms: seq<Message>, maxLine: nat): string
    requires maxLine >= 1
    decreases |ms|
  {
    if ms == [] then text else ShowAll(Shown(text, ms[0], maxLine), ms[1..], maxLine)
  }

  /**
   * However many messages from the helper an activity shows, its display
   * never holds more than maxLine lines.
   */
  lemma {:induction false} DisplayStaysBounded(text: string, ms: seq<Message>, maxLine: nat)
    requires maxLine >= 1
    requires |JavaSplit(text)| <= maxLine
    requires AllHelperMessages(ms)
    ensures |JavaSplit(ShowAll(text, ms, maxLine))| <= maxLine
    decreases |ms|
  {
    if ms != [] {
      HelperMessageShowsOneLine(ms[0]);
      ComposeBound(text, DisplayText(ms[0]).value, maxLine);
      assert AllHelperMessages(ms[1..]) by {
        forall i | 0 <= i < |ms[1..]| ensures HelperMessage(ms[1..][i]) {
          assert ms[1..][i] == ms[i + 1];
        }
      }
      DisplayStaysBounded(Shown(text, ms[0], maxLine), ms[1..], maxLine);
    }
  }

  /**
   * End to end: a fresh activity that shows every message a fresh helper
   * sends, whatever commands and callbacks the helper sees, never holds
   * more than maxLine lines.
   */
  lemma RunDisplayBounded(inputs: seq<Input>, maxLine: nat)
    requires maxLine >= 1
    ensures |JavaSplit(ShowAll("", Run(Initial, inputs).events, maxLine))| <= maxLine
  {
    RunEmitsHelperMessages(Initial, inputs);
    assert JavaSplit("") == [""];
    DisplayStaysBounded("", Run(Initial, inputs).events, maxLine);
  }
}

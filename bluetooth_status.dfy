/**
 * The status codes that BluetoothHelper posts to its handler and that the
 * activities display (BluetoothStatus.java), and the message that carries them.
 */
module BluetoothStatus {
  import opened Options

  const START_SCAN: int := 0x1001
  const STOP_SCAN: int := 0x1002
  const CONNECTING: int := 0x1003
  const CONNECTED: int := 0x1004
  const DISCONNECTED: int := 0x1005
  const NOTIFY_MES: int := 0x1006
  const SUCCESS: int := 0x0000
  const FAILURE: int := 0x9999

  /** The vocabulary of the codes above, one constructor per constant. */
  datatype Status = StartScan | StopScan | Connecting | Connected | Disconnected | NotifyMes | Success | Failure

  /** An android.os.Message as the program uses it: the code in `what`, an optional text in `obj`. */
  datatype Message = Message(what: int, obj: Option<string>)

  function Code(k: Status): (c: int)
    ensures c == SUCCESS || c == FAILURE || START_SCAN <= c <= NOTIFY_MES
  {
    match k
    case StartScan => START_SCAN
    case StopScan => STOP_SCAN
    case Connecting => CONNECTING
    case Connected => CONNECTED
    case Disconnected => DISCONNECTED
    case NotifyMes => NOTIFY_MES
    case Success => SUCCESS
    case Failure => FAILURE
  }

  /** The status a received code stands for; None for a code outside the vocabulary. */
  function StatusOf(c: int): (r: Option<Status>)
    ensures r.Some? ==> Code(r.value) == c
    ensures r.None? ==> forall k: Status :: Code(k) != c
  {
    if c == START_SCAN then Some(StartScan)
    else if c == STOP_SCAN then Some(StopScan)
    else if c == CONNECTING then Some(Connecting)
    else if c == CONNECTED then Some(Connected)
    else if c == DISCONNECTED then Some(Disconnected)
    else if c == NOTIFY_MES then Some(NotifyMes)
    else if c == SUCCESS then Some(Success)
    else if c == FAILURE then Some(Failure)
    else None
  }

  /** Codes whose message carries no text: the scan and connection lifecycle. */
  predicate IsLifecycleCode(c: int) {
    c == START_SCAN || c == STOP_SCAN || c == CONNECTING || c == CONNECTED || c == DISCONNECTED
  }

  /** Codes whose message carries a text in `obj`. */
  predicate IsResultCode(c: int) {
    c == SUCCESS || c == FAILURE
  }

  /** No two statuses share a code. */
  lemma CodesDistinct(j: Status, k: Status)
    ensures Code(j) == Code(k) <==> j == k
  {
  }

  /** Status -> code -> status is the identity. */
  lemma StatusRoundTrip(k: Status)
    ensures StatusOf(Code(k)) == Some(k)
  {
  }

  /** The six lifecycle and notify codes are consecutive from 0x1001; SUCCESS and FAILURE lie outside that range. */
  lemma CodeLayout()
    ensures [Code(StartScan), Code(StopScan), Code(Connecting), Code(Connected), Code(Disconnected), Code(NotifyMes)]
         == [0x1001, 0x1002, 0x1003, 0x1004, 0x1005, 0x1006]
    ensures Code(Success) == 0 && Code(Failure) == 0x9999
    ensures !(0x1001 <= Code(Success) <= 0x1006) && !(0x1001 <= Code(Failure) <= 0x1006)
  {
  }
}
